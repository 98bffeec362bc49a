/**
 * App\Service\MetricsClient::record: the configuration and empty-fields guards and the
 * InfluxDB line-protocol body built from a measurement, its tags and its fields. The curl
 * request is a ghost event; rendering a float read from a numeric string is a parameter.
 */
module Metrics {
  import opened PhpStrings
  import opened PhpValues
  import FormatHelper

  /** One call of record(measurement, fields, tags); PHP arrays keep their order, so both
      are sequences of key/value pairs. */
  datatype Metric = Metric(measurement: string, fields: seq<(string, Scalar)>, tags: seq<(string, string)>)

  /** preg_replace('/[ ,]/', '_', s): spaces and commas become '_'. */
  function SanitizeTag(s: string): (r: string)
    ensures |r| == |s|
    ensures ' ' !in r && ',' !in r
    ensures forall i :: 0 <= i < |s| && s[i] != ' ' && s[i] != ',' ==> r[i] == s[i]
    ensures forall i :: 0 <= i < |s| && (s[i] == ' ' || s[i] == ',') ==> r[i] == '_'
  {
    seq(|s|, i requires 0 <= i < |s| => if s[i] == ' ' || s[i] == ',' then '_' else s[i])
  }

  /** str_replace('"', '\"', s): a backslash before every double quote. */
  function Escape(s: string): string {
    if |s| == 0 then ""
    else (if s[0] == '"' then "\\\"" else [s[0]]) + Escape(s[1..])
  }

  /** Drops the backslash in front of each double quote. */
  function Unescape(t: string): string {
    if |t| == 0 then ""
    else if |t| >= 2 && t[0] == '\\' && t[1] == '"' then "\"" + Unescape(t[2..])
    else [t[0]] + Unescape(t[1..])
  }

  /** The tag string as the loop builds it: ",key=value" per tag, in order. */
  function TagString(tags: seq<(string, string)>): string {
    if |tags| == 0 then ""
    else
      var (key, value) := tags[|tags| - 1];
      TagString(tags[..|tags| - 1]) + "," + SanitizeTag(key) + "=" + SanitizeTag(value)
  }

  /** One field: key=number for a numeric value (an int as an int, anything else through
      (float)), key="text" with quotes escaped otherwise. */
  function FieldPart(floatText: real -> string, key: string, value: Scalar): string {
    match value
    case Int(n) => key + "=" + IntText(n)
    case Float(_, text) => key + "=" + text
    case NumericStr(_, v) => key + "=" + floatText(v)
    case _ => key + "=\"" + Escape(ToText(value)) + "\""
  }

  /** The field parts as the loop builds them: one per field, in order. */
  function FieldParts(floatText: real -> string, fields: seq<(string, Scalar)>): (parts: seq<string>)
    ensures |parts| == |fields|
  {
    if |fields| == 0 then []
    else
      var (key, value) := fields[|fields| - 1];
      FieldParts(floatText, fields[..|fields| - 1]) + [FieldPart(floatText, key, value)]
  }

  /** measurement, tag string, one space, the field parts joined by ','. */
  function Body(floatText: real -> string, measurement: string, fields: seq<(string, Scalar)>,
      tags: seq<(string, string)>): string
  {
    measurement + TagString(tags) + " " + Join(FieldParts(floatText, fields), ',')
  }

  class MetricsClient {
    const url: string
    const token: string
    const org: string
    const bucket: string
    /** PHP's rendering of a float, used for numeric strings cast with (float). */
    const floatText: real -> string
    /** Every call of record, oldest first. */
    ghost var recorded: seq<Metric>
    /** Every body handed to the write endpoint, oldest first. */
    ghost var sent: seq<string>

    /** None of url, token, org and bucket is falsy ("" or "0"). */
    predicate Configured() {
      TruthyText(url) && TruthyText(token) && TruthyText(org) && TruthyText(bucket)
    }

    /** The bodies that recording `ms` in order sends: at most one per metric, none for a
        metric without fields, and none at all when the client is not configured. */
    function Transmitted(ms: seq<Metric>): (bodies: seq<string>)
      ensures |bodies| <= |ms|
      ensures !Configured() ==> bodies == []
    {
      if ms == [] then []
      else
        var m := ms[|ms| - 1];
        Transmitted(ms[..|ms| - 1])
        + if Configured() && |m.fields| > 0 then [Body(floatText, m.measurement, m.fields, m.tags)] else []
    }

    constructor(url: string, token: string, org: string, bucket: string, floatText: real -> string)
      ensures this.url == url && this.token == token && this.org == org && this.bucket == bucket
      ensures this.floatText == floatText
      ensures recorded == [] && sent == []
    {
      this.url, this.token, this.org, this.bucket := url, token, org, bucket;
      this.floatText := floatText;
      recorded, sent := [], [];
    }

    /** The two loops of record and the implode that follows them. */
    method BuildBody(measurement: string, fields: seq<(string, Scalar)>, tags: seq<(string, string)>)
      returns (body: string)
      ensures body == Body(floatText, measurement, fields, tags)
    {
      var tagStr := "";
      var i := 0;
      while i < |tags|
        invariant 0 <= i <= |tags|
        invariant tagStr == TagString(tags[..i])
      {
        var (key, value) := tags[i];
        assert tags[..i + 1][..i] == tags[..i];
        tagStr := tagStr + "," + SanitizeTag(key) + "=" + SanitizeTag(value);
        i := i + 1;
      }
      assert tags[..|tags|] == tags;
      var fieldParts: seq<string> := [];
      var j := 0;
      while j < |fields|
        invariant 0 <= j <= |fields|
        invariant fieldParts == FieldParts(floatText, fields[..j])
      {
        var (key, value) := fields[j];
        assert fields[..j + 1][..j] == fields[..j];
        fieldParts := fieldParts + [FieldPart(floatText, key, value)];
        j := j + 1;
      }
      assert fields[..|fields|] == fields;
      body := measurement + tagStr + " " + Join(fieldParts, ',');
    }

    /** record: logged always; sent only when configured and given at least one field. The
        curl call's failures are swallowed, so record never throws. */
    method Record(measurement: string, fields: seq<(string, Scalar)>, tags: seq<(string, string)>)
      modifies this
      ensures recorded == old(recorded) + [Metric(measurement, fields, tags)]
      ensures sent == if Configured() && |fields| > 0
        then old(sent) + [Body(floatText, measurement, fields, tags)]
        else old(sent)
      ensures sent == old(sent) + Transmitted([Metric(measurement, fields, tags)])
    {
      recorded := recorded + [Metric(measurement, fields, tags)];
      if !Configured() {
        return;
      }
      if |fields| == 0 {
        return;
      }
      // FieldParts has one part per field, so the `!$fieldParts` guard cannot fire here.
      var body := BuildBody(measurement, fields, tags);
      sent := sent + [body];
    }
  }

  /** Escaping loses nothing: the escaped text reads back as the original. */
  lemma {:induction false} EscapeRoundTrip(s: string)
    ensures Unescape(Escape(s)) == s
  {
    if |s| > 0 {
      EscapeRoundTrip(s[1..]);
      EscapeStart(s[1..]);
      var rest := Escape(s[1..]);
      if s[0] == '"' {
        assert Escape(s) == "\\\"" + rest;
        assert Escape(s)[2..] == rest;
      } else {
        assert Escape(s) == [s[0]] + rest;
        assert Escape(s)[1..] == rest;
      }
    }
  }

  /** Escaped text never starts with a bare double quote. */
  lemma EscapeStart(s: string)
    ensures Escape(s) == [] || Escape(s)[0] != '"'
  {
  }

  /** Every double quote in escaped text has a backslash right before it. */
  lemma {:induction false} EscapedQuotes(s: string, i: int)
    requires 0 <= i < |Escape(s)| && Escape(s)[i] == '"'
    ensures i > 0 && Escape(s)[i - 1] == '\\'
  {
    var head := if s[0] == '"' then "\\\"" else [s[0]];
    assert Escape(s) == head + Escape(s[1..]);
    if i >= |head| {
      EscapedQuotes(s[1..], i - |head|);
    }
  }

  /** Tag keys and values never hold a space, so the tag string holds none either. */
  lemma {:induction false} TagStringHasNoSpace(tags: seq<(string, string)>)
    ensures ' ' !in TagString(tags)
  {
    if |tags| > 0 {
      TagStringHasNoSpace(tags[..|tags| - 1]);
    }
  }

  /** First space ends the measurement and tags: what precedes the first space of the body
      is the measurement followed by the tag string, when the measurement has no space. */
  lemma BodySplit(floatText: real -> string, measurement: string, fields: seq<(string, Scalar)>,
      tags: seq<(string, string)>)
    requires ' ' !in measurement
    ensures SplitBefore(Body(floatText, measurement, fields, tags), ' ') == measurement + TagString(tags)
  {
    var head := measurement + TagString(tags);
    TagStringHasNoSpace(tags);
    assert ' ' !in head;
    var rest := Join(FieldParts(floatText, fields), ',');
    assert Body(floatText, measurement, fields, tags) == head + [' '] + rest;
    FormatHelper.SplitBeforeAt(head, ' ', rest);
  }

  /** A metric with one tag and one int field, none of whose names needs sanitising. */
  lemma OneTagIntBody(floatText: real -> string, measurement: string, key: string, value: string,
      field: string, n: int)
    requires ' ' !in key && ',' !in key && ' ' !in value && ',' !in value
    ensures Body(floatText, measurement, [(field, Int(n))], [(key, value)])
      == measurement + ("," + key + "=" + value) + " " + (field + "=" + IntText(n))
  {
    OneTag(key, value);
    OneIntField(floatText, field, n);
    var t := "," + key + "=" + value;
    BodyOf(floatText, measurement, [(field, Int(n))], [(key, value)], t, field + "=" + IntText(n));
  }

  /** A metric with two tags and one int field, none of whose names needs sanitising. */
  lemma TwoTagIntBody(floatText: real -> string, measurement: string, key: string, value: string,
      key': string, value': string, field: string, n: int)
    requires ' ' !in key && ',' !in key && ' ' !in value && ',' !in value
    requires ' ' !in key' && ',' !in key' && ' ' !in value' && ',' !in value'
    ensures Body(floatText, measurement, [(field, Int(n))], [(key, value), (key', value')])
      == measurement + ("," + key + "=" + value + "," + key' + "=" + value') + " " + (field + "=" + IntText(n))
  {
    TwoTags(key, value, key', value');
    OneIntField(floatText, field, n);
    var t := "," + key + "=" + value + "," + key' + "=" + value';
    BodyOf(floatText, measurement, [(field, Int(n))], [(key, value), (key', value')], t, field + "=" + IntText(n));
  }

  /** The body of the success metric: requests,route=convert_get duration_ms=<ms>. */
  lemma RequestsBody(floatText: real -> string, ms: int)
    ensures Body(floatText, "requests", [("duration_ms", Int(ms))], [("route", "convert_get")])
      == "requests" + ("," + "route" + "=" + "convert_get") + " " + ("duration_ms" + "=" + IntText(ms))
  {
    OneTagIntBody(floatText, "requests", "route", "convert_get", "duration_ms", ms);
  }

  /** The body of an error metric: errors,route=convert_get,error=<kind> count=1. */
  lemma ErrorsBody(floatText: real -> string, kind: string)
    requires ' ' !in kind && ',' !in kind
    ensures Body(floatText, "errors", [("count", Int(1))], [("route", "convert_get"), ("error", kind)])
      == "errors" + ("," + "route" + "=" + "convert_get" + "," + "error" + "=" + kind) + " " + ("count" + "=" + IntText(1))
  {
    TwoTagIntBody(floatText, "errors", "route", "convert_get", "error", kind, "count", 1);
  }

  lemma BodyOf(floatText: real -> string, measurement: string, fields: seq<(string, Scalar)>,
      tags: seq<(string, string)>, t: string, f: string)
    requires TagString(tags) == t && Join(FieldParts(floatText, fields), ',') == f
    ensures Body(floatText, measurement, fields, tags) == measurement + t + " " + f
  {
  }

  /** One tag whose key and value need no sanitising is written as ",key=value". */
  lemma OneTag(key: string, value: string)
    requires ' ' !in key && ',' !in key && ' ' !in value && ',' !in value
    ensures TagString([(key, value)]) == "," + key + "=" + value
  {
    var tags := [(key, value)];
    assert tags[..0] == [];
    SanitizeKeeps(key);
    SanitizeKeeps(value);
  }

  /** Two such tags are written one after the other, in order. */
  lemma TwoTags(key: string, value: string, key': string, value': string)
    requires ' ' !in key && ',' !in key && ' ' !in value && ',' !in value
    requires ' ' !in key' && ',' !in key' && ' ' !in value' && ',' !in value'
    ensures TagString([(key, value), (key', value')]) == "," + key + "=" + value + "," + key' + "=" + value'
  {
    var tags := [(key, value), (key', value')];
    assert tags[..1] == [(key, value)];
    OneTag(key, value);
    SanitizeKeeps(key');
    SanitizeKeeps(value');
  }

  /** A single int field is written as key=<the int>. */
  lemma OneIntField(floatText: real -> string, key: string, n: int)
    ensures Join(FieldParts(floatText, [(key, Int(n))]), ',') == key + "=" + IntText(n)
  {
    var fields := [(key, Int(n))];
    assert fields[..0] == [];
    assert FieldParts(floatText, fields) == [key + "=" + IntText(n)];
  }

  /** Text without spaces or commas passes through the tag sanitiser unchanged. */
  lemma SanitizeKeeps(s: string)
    requires ' ' !in s && ',' !in s
    ensures SanitizeTag(s) == s
  {
    var r := SanitizeTag(s);
    assert forall i :: 0 <= i < |s| ==> r[i] == s[i];
  }

  /** A non-numeric field value is written between double quotes with its quotes escaped. */
  lemma TextFieldQuoted(floatText: real -> string, key: string, text: string, value: real)
    ensures FieldPart(floatText, key, OtherStr(text, value)) == key + "=\"" + Escape(text) + "\""
  {
  }
}
