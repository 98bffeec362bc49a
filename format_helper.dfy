/**
 * App\Util\FormatHelper: currency-code and locale normalisation and cache-key building.
 * All three are pure string transforms.
 */
module FormatHelper {
  import opened Wrappers
  import opened PhpStrings
  import opened Errors

  /** Exactly three characters, each in A-Z: the shape ^[A-Z]{3}$ describes. */
  predicate IsCurrencyCode(s: string) {
    |s| == 3 && IsUpperAscii(s[0]) && IsUpperAscii(s[1]) && IsUpperAscii(s[2])
  }

  /** preg_match('/^[A-Z]{3}$/', s) === 1. Without the D modifier PCRE's `$` also matches
      right before a final "\n", so "USD\n" matches too. */
  predicate MatchesCurrencyPattern(s: string) {
    IsCurrencyCode(s) || (|s| == 4 && s[3] == '\n' && IsCurrencyCode(s[..3]))
  }

  /** normalizeCurrencyCode: trim, upper-case, then insist on three letters A-Z. */
  function NormalizeCurrencyCode(code: string): (r: Result<string, Exception>)
    ensures r.Success? ==> IsCurrencyCode(r.value) && r.value == ToUpper(Trim(code))
    ensures r.Failure? ==> !IsCurrencyCode(ToUpper(Trim(code)))
    ensures r.Failure? ==> r.error == InvalidArgument(InvalidCurrencyCode(ToUpper(Trim(code))))
  {
    var currencyCode := ToUpper(Trim(code));
    if !MatchesCurrencyPattern(currencyCode) then
      Failure(InvalidArgument(InvalidCurrencyCode(currencyCode)))
    else
      Success(currencyCode)
  }

  /** Letter case does not matter: inputs that agree once upper-cased normalise alike. */
  lemma NormalizeCurrencyCodeIgnoresCase(s: string, t: string)
    requires ToUpper(s) == ToUpper(t)
    ensures NormalizeCurrencyCode(s) == NormalizeCurrencyCode(t)
  {
    TrimUpperCommute(s);
    TrimUpperCommute(t);
    ToUpperIdempotent(Trim(s));
    ToUpperIdempotent(Trim(t));
  }

  /** Surrounding whitespace does not matter. */
  lemma NormalizeCurrencyCodeIgnoresPadding(pre: string, s: string, post: string)
    requires forall k :: 0 <= k < |pre| ==> IsTrimmable(pre[k])
    requires forall k :: 0 <= k < |post| ==> IsTrimmable(post[k])
    ensures NormalizeCurrencyCode(pre + s + post) == NormalizeCurrencyCode(s)
  {
    TrimIgnoresPadding(pre, s, post);
  }

  /** A normalised code normalises to itself. */
  lemma NormalizeCurrencyCodeIdempotent(code: string)
    requires NormalizeCurrencyCode(code).Success?
    ensures NormalizeCurrencyCode(NormalizeCurrencyCode(code).value) == NormalizeCurrencyCode(code)
  {
    var c := NormalizeCurrencyCode(code).value;
    TrimKeepsTrimmed(c);
    assert ToUpper(c) == c;
  }

  /** Every three-letter upper-case code is accepted unchanged. */
  lemma NormalizeCurrencyCodeAccepts(code: string)
    requires IsCurrencyCode(code)
    ensures NormalizeCurrencyCode(code) == Success(code)
  {
    CurrencyCodeIsTrimmed(code);
    CurrencyCodeIsUpper(code);
  }

  lemma CurrencyCodeIsTrimmed(code: string)
    requires IsCurrencyCode(code)
    ensures Trim(code) == code
  {
    TrimKeepsTrimmed(code);
  }

  lemma CurrencyCodeIsUpper(code: string)
    requires IsCurrencyCode(code)
    ensures ToUpper(code) == code
  {
    var u := ToUpper(code);
    assert forall i :: 0 <= i < 3 ==> u[i] == code[i];
  }

  /** " usd ", "usd" and "USD" all normalise to "USD". */
  lemma NormalizeCurrencyCodeExample()
    ensures NormalizeCurrencyCode(" usd ") == NormalizeCurrencyCode("USD") == Success("USD")
    ensures NormalizeCurrencyCode("usd") == Success("USD")
  {
    var pad, lower, upper := " ", "usd", "USD";
    assert pad + lower + pad == " usd ";
    NormalizeCurrencyCodeAccepts(upper);
    NormalizeCurrencyCodeIgnoresPadding(pad, lower, pad);
    UpperLetters(lower, upper);
    NormalizeCurrencyCodeIgnoresCase(lower, upper);
  }

  lemma UpperLetters(lower: string, upper: string)
    requires lower == "usd" && upper == "USD"
    ensures ToUpper(lower) == ToUpper(upper)
  {
    CurrencyCodeIsUpper(upper);
    var u := ToUpper(lower);
    assert u[0] == 'U' && u[1] == 'S' && u[2] == 'D';
  }

  /** Fewer than three characters can never make a currency code. */
  lemma ShortCodeRejected(code: string)
    requires |code| < 3
    ensures NormalizeCurrencyCode(code) == Failure(InvalidArgument(InvalidCurrencyCode(ToUpper(Trim(code)))))
  {
  }

  /** A two-letter lower-case language, optionally followed by '_' and a two-letter
      upper-case region: the shape ^[a-z]{2}(_[A-Z]{2})?$ describes. */
  predicate IsLocaleTag(s: string) {
    || (|s| == 2 && IsLowerAscii(s[0]) && IsLowerAscii(s[1]))
    || (|s| == 5 && IsLowerAscii(s[0]) && IsLowerAscii(s[1]) && s[2] == '_'
        && IsUpperAscii(s[3]) && IsUpperAscii(s[4]))
  }

  /** preg_match('/^[a-z]{2}(_[A-Z]{2})?$/', s) === 1, with PCRE's final-newline `$`. */
  predicate MatchesLocalePattern(s: string) {
    IsLocaleTag(s) || (|s| > 0 && s[|s| - 1] == '\n' && IsLocaleTag(s[..|s| - 1]))
  }

  /** normalizeLocale: the first entry of an Accept-Language value as an ICU tag, or "en_US".
      explode() always yields an element 0, so its `?? 'en-US'` never applies; `?:` treats
      both "" and "0" as false. */
  function NormalizeLocale(acceptLanguage: string): (r: string)
    ensures r == "en_US" || IsLocaleTag(r)
    ensures '-' !in r && ',' !in r && ';' !in r
  {
    var first := SplitBefore(acceptLanguage, ',');
    var first' := SplitBefore(first, ';');
    var trimmed := Trim(first');
    var chosen := if trimmed == "" || trimmed == "0" then "en-US" else trimmed;
    var replaced := ReplaceChar(chosen, '-', '_');
    if replaced == "" || !MatchesLocalePattern(replaced) then
      FallbackLocaleIsTag();
      "en_US"
    else
      FallbackHeaderEnd();
      MatchedLocaleIsTag(chosen, replaced);
      LocaleTagPunctuation(replaced);
      replaced
  }

  lemma FallbackLocaleIsTag()
    ensures IsLocaleTag("en_US") && '-' !in "en_US" && ',' !in "en_US" && ';' !in "en_US"
  {
    var tag := "en_US";
    assert IsLocaleTag(tag);
    LocaleTagPunctuation(tag);
  }

  lemma FallbackHeaderEnd()
    ensures "en-US"[|"en-US"| - 1] != '\n'
  {
  }

  /** Once the value has no final newline, matching the pattern means being a locale tag. */
  lemma MatchedLocaleIsTag(chosen: string, replaced: string)
    requires replaced == ReplaceChar(chosen, '-', '_') && replaced != ""
    requires chosen[|chosen| - 1] != '\n'
    requires MatchesLocalePattern(replaced)
    ensures IsLocaleTag(replaced)
  {
    assert replaced[|replaced| - 1] == chosen[|chosen| - 1];
  }

  /** A locale tag holds none of '-', ',' and ';'. */
  lemma LocaleTagPunctuation(s: string)
    requires IsLocaleTag(s)
    ensures '-' !in s && ',' !in s && ';' !in s
  {
  }

  lemma {:induction false} SplitBeforeAppend(x: string, y: string, sep: char)
    requires sep !in x
    ensures SplitBefore(x + y, sep) == x + SplitBefore(y, sep)
  {
    if |x| > 0 {
      assert (x + y)[1..] == x[1..] + y;
      SplitBeforeAppend(x[1..], y, sep);
      assert x == [x[0]] + x[1..];
    } else {
      assert x + y == y;
    }
  }

  lemma SplitBeforeAbsent(x: string, sep: char)
    requires sep !in x
    ensures SplitBefore(x, sep) == x
  {
    SplitBeforeAppend(x, "", sep);
    assert x + "" == x;
  }

  lemma SplitBeforeAt(x: string, sep: char, rest: string)
    requires sep !in x
    ensures SplitBefore(x + [sep] + rest, sep) == x
  {
    assert x + [sep] + rest == x + ([sep] + rest);
    SplitBeforeAppend(x, [sep] + rest, sep);
  }

  /** Only the first comma-separated entry counts. */
  lemma NormalizeLocaleFirstEntry(entry: string, rest: string)
    requires ',' !in entry
    ensures NormalizeLocale(entry + "," + rest) == NormalizeLocale(entry)
  {
    SplitBeforeAt(entry, ',', rest);
    SplitBeforeAbsent(entry, ',');
  }

  /** The ";q=..." parameters of the first entry are stripped. */
  lemma NormalizeLocaleDropsParameters(tag: string, params: string)
    requires ',' !in tag && ';' !in tag
    ensures NormalizeLocale(tag + ";" + params) == NormalizeLocale(tag)
  {
    assert tag + ";" + params == tag + (";" + params);
    SplitBeforeAppend(tag, ";" + params, ',');
    var first := tag + SplitBefore(";" + params, ',');
    assert first == tag + [';'] + first[|tag| + 1..];
    SplitBeforeAt(tag, ';', first[|tag| + 1..]);
    SplitBeforeAbsent(tag, ',');
    SplitBeforeAbsent(tag, ';');
  }

  /** A well-formed ICU tag is returned as it is. */
  lemma NormalizeLocaleKeepsTag(tag: string)
    requires IsLocaleTag(tag)
    ensures NormalizeLocale(tag) == tag
  {
    LocaleTagPunctuation(tag);
    SplitBeforeAbsent(tag, ',');
    SplitBeforeAbsent(tag, ';');
    TrimKeepsTrimmed(tag);
    ReplaceAbsentChar(tag, '-', '_');
  }

  /** Normalising twice changes nothing. */
  lemma NormalizeLocaleIdempotent(acceptLanguage: string)
    ensures NormalizeLocale(NormalizeLocale(acceptLanguage)) == NormalizeLocale(acceptLanguage)
  {
    var r := NormalizeLocale(acceptLanguage);
    if r == "en_US" {
      NormalizeLocaleFallback();
    } else {
      NormalizeLocaleKeepsTag(r);
    }
  }

  /** The fallback locale is itself a fixed point. */
  lemma NormalizeLocaleFallback()
    ensures NormalizeLocale("en_US") == "en_US"
  {
    var tag := "en_US";
    assert IsLocaleTag(tag);
    NormalizeLocaleKeepsTag(tag);
  }

  /** A value made of whitespace only (the empty one included) falls back to "en_US". */
  lemma NormalizeLocaleBlank(blank: string)
    requires forall k :: 0 <= k < |blank| ==> IsTrimmable(blank[k])
    ensures NormalizeLocale(blank) == "en_US"
  {
    SplitBeforeAbsent(blank, ',');
    SplitBeforeAbsent(blank, ';');
    TrimIgnoresPadding(blank, "", "");
    assert blank + "" + "" == blank;
    EmptyEntryLocale(blank);
  }

  /** A first entry that trims to nothing gives the default "en-US", hence en_US. */
  lemma EmptyEntryLocale(acceptLanguage: string)
    requires Trim(SplitBefore(SplitBefore(acceptLanguage, ','), ';')) == ""
    ensures NormalizeLocale(acceptLanguage) == "en_US"
  {
    DefaultHeaderLocale();
  }

  /** The default header "en-US" reads as the locale en_US. */
  lemma DefaultHeaderLocale()
    ensures ReplaceChar("en-US", '-', '_') == "en_US" && MatchesLocalePattern("en_US")
  {
    var tag := "en_US";
    var header := tag[..2] + "-" + tag[3..];
    assert header == "en-US";
    HyphenToUnderscore(header, tag);
  }

  /** "en-US,en;q=0.9" gives "en_US": the first entry, with '-' turned into '_'. */
  lemma NormalizeLocaleBrowserHeader()
    ensures NormalizeLocale("en-US,en;q=0.9") == "en_US"
  {
    var tag, rest := "en_US", "en;q=0.9";
    assert tag[..2] + "-" + tag[3..] + "," + rest == "en-US,en;q=0.9";
    HyphenatedFirstEntry(tag, rest);
  }

  /** A header whose first entry is "ll-RR" yields "ll_RR", whatever follows the comma. */
  lemma HyphenatedFirstEntry(tag: string, rest: string)
    requires IsLocaleTag(tag) && |tag| == 5
    ensures NormalizeLocale(tag[..2] + "-" + tag[3..] + "," + rest) == tag
  {
    var entry := tag[..2] + "-" + tag[3..];
    NormalizeLocaleFirstEntry(entry, rest);
    HyphenatedLocale(entry, tag);
  }

  /** "de-DE" gives "de_DE"; "" gives "en_US". */
  lemma NormalizeLocaleExamples()
    ensures NormalizeLocale("de-DE") == "de_DE"
    ensures NormalizeLocale("") == "en_US"
  {
    HyphenatedLocale("de-DE", "de_DE");
    NormalizeLocaleBlank("");
  }

  /** A value that is no locale tag, such as "???", falls back to "en_US". */
  lemma NormalizeLocaleRejects()
    ensures NormalizeLocale("???") == "en_US"
  {
    SplitBeforeAbsent("???", ',');
    SplitBeforeAbsent("???", ';');
    TrimKeepsTrimmed("???");
    ReplaceAbsentChar("???", '-', '_');
  }

  /** "ll-RR" is written out as "ll_RR". */
  lemma HyphenatedLocale(header: string, tag: string)
    requires IsLocaleTag(tag) && |tag| == 5
    requires header == tag[..2] + "-" + tag[3..]
    ensures NormalizeLocale(header) == tag
  {
    HyphenToUnderscore(header, tag);
    SplitBeforeAbsent(header, ',');
    SplitBeforeAbsent(header, ';');
    TrimKeepsTrimmed(header);
  }

  lemma HyphenToUnderscore(header: string, tag: string)
    requires IsLocaleTag(tag) && |tag| == 5
    requires header == tag[..2] + "-" + tag[3..]
    ensures ',' !in header && ';' !in header
    ensures ReplaceChar(header, '-', '_') == tag
  {
    assert |header| == 5 && header[2] == '-';
    assert forall k :: 0 <= k < 5 && k != 2 ==> header[k] == tag[k];
    var replaced := ReplaceChar(header, '-', '_');
    assert forall k :: 0 <= k < 5 ==> replaced[k] == tag[k];
  }

  /** Characters a cache key may keep: A-Z, 0-9, '.', '_' and '-'. */
  predicate IsKeyChar(c: char) {
    IsUpperAscii(c) || IsDigit(c) || c == '.' || c == '_' || c == '-'
  }

  /** cacheKey: join with '.', upper-case, and turn every other character into '_'. */
  function CacheKey(parts: seq<string>): (r: string)
    ensures |r| == |Join(parts, '.')|
    ensures forall i :: 0 <= i < |r| ==> IsKeyChar(r[i])
  {
    var joined := ToUpper(Join(parts, '.'));
    seq(|joined|, i requires 0 <= i < |joined| => if IsKeyChar(joined[i]) then joined[i] else '_')
  }

  /** Where the joined text already holds an allowed character (after upper-casing), the key
      keeps it; everywhere else the key has '_'. */
  lemma CacheKeyAt(parts: seq<string>, i: int)
    requires 0 <= i < |Join(parts, '.')|
    ensures var c := UpperChar(Join(parts, '.')[i]);
      CacheKey(parts)[i] == if IsKeyChar(c) then c else '_'
  {
  }

  /** A single part made of allowed characters is its own key. */
  lemma CacheKeyOfKey(key: string)
    requires forall i :: 0 <= i < |key| ==> IsKeyChar(key[i])
    ensures CacheKey([key]) == key
  {
    assert Join([key], '.') == key;
  }

  /** cacheKey applied to its own output returns it unchanged. */
  lemma CacheKeyIdempotent(parts: seq<string>)
    ensures CacheKey([CacheKey(parts)]) == CacheKey(parts)
  {
    CacheKeyOfKey(CacheKey(parts));
  }

  /** The key under which the rate for a code is cached: "RATE.EUR." followed by the code. */
  lemma RateCacheKey(code: string)
    requires IsCurrencyCode(code)
    ensures CacheKey(["rate", "EUR", code]) == "RATE.EUR." + code
  {
    var parts := ["rate", "EUR", code];
    var joined := Join(parts, '.');
    assert Join(parts[1..], '.') == "EUR" + ['.'] + code by {
      assert parts[1..] == ["EUR", code];
      assert parts[1..][1..] == [code];
    }
    assert joined == "rate" + ['.'] + ("EUR" + ['.'] + code);
    var key := "RATE.EUR." + code;
    assert |joined| == 12 == |key|;
    assert forall i :: 0 <= i < 12 ==> UpperChar(joined[i]) == key[i];
    assert forall i :: 0 <= i < 12 ==> IsKeyChar(key[i]);
    var r := CacheKey(parts);
    forall i | 0 <= i < 12
      ensures r[i] == key[i]
    {
      CacheKeyAt(parts, i);
    }
  }

  /** cacheKey("rate", "EUR", "USD") is "RATE.EUR.USD". */
  lemma CacheKeyExample()
    ensures CacheKey(["rate", "EUR", "USD"]) == "RATE.EUR.USD"
  {
    RateCacheKey("USD");
  }
}
