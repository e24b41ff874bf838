/**
 * Timestamp handling of demosite/scheduleboard/services.py: the UTC-offset normaliser
 * `fix_UTC_offset` and the "parse if truthy" step every parser applies to a time attribute.
 * `datetime.strptime` itself is not modelled: it is a parameter `parse`, an arbitrary function
 * from normalised text to an instant, or None where it would raise ValueError.
 */
module Timestamps {
  import opened Wrappers
  import opened Models

  /** The intended `fix_UTC_offset`: the colon of a trailing `±HH:MM` offset removed. */
  function FixUtcOffset(dateString: string): string
  {
    var n := |dateString|;
    if n >= 3 && dateString[n - 3] == ':' then dateString[..n - 3] + dateString[n - 2..] else dateString
  }

  /**
   * When the third-to-last character is ':', exactly that character is dropped and every other
   * character keeps its order; every other string, including those shorter than three
   * characters, is returned unchanged.
   */
  lemma FixUtcOffsetDropsColon(dateString: string)
    ensures var fixed := FixUtcOffset(dateString);
      |dateString| >= 3 && dateString[|dateString| - 3] == ':' ==>
        |fixed| == |dateString| - 1 &&
        forall i :: 0 <= i < |fixed| ==> fixed[i] == dateString[if i < |dateString| - 3 then i else i + 1]
    ensures !(|dateString| >= 3 && dateString[|dateString| - 3] == ':') ==> FixUtcOffset(dateString) == dateString
  {
  }

  /**
   * The function as written: line 33 rebinds its own parameter and the function returns None,
   * so the string its callers go on to parse is the one they passed in.
   */
  function FixUtcOffsetAsWritten(dateString: string): (returned: Option<string>)
    ensures returned == None
  {
    var n := |dateString|;
    var rebound := if n >= 3 && dateString[n - 3] == ':' then dateString[..n - 3] + dateString[n - 2..] else dateString;
    None
  }

  /** `s` ends in a well-formed `+HH:MM` or `-HH:MM` offset. */
  predicate EndsWithColonOffset(s: string)
  {
    |s| >= 6 && s[|s| - 6] in "+-" && IsDigit(s[|s| - 5]) && IsDigit(s[|s| - 4]) &&
    s[|s| - 3] == ':' && IsDigit(s[|s| - 2]) && IsDigit(s[|s| - 1])
  }

  /** `s` ends in a well-formed `+HHMM` or `-HHMM` offset. */
  predicate EndsWithCompactOffset(s: string)
  {
    |s| >= 5 && s[|s| - 5] in "+-" && IsDigit(s[|s| - 4]) && IsDigit(s[|s| - 3]) &&
    IsDigit(s[|s| - 2]) && IsDigit(s[|s| - 1])
  }

  /** Normalising `...±HH:MM` gives `...±HHMM`, which a second normalisation leaves alone. */
  lemma FixUtcOffsetIdempotent(s: string)
    requires EndsWithColonOffset(s)
    ensures EndsWithCompactOffset(FixUtcOffset(s))
    ensures FixUtcOffset(FixUtcOffset(s)) == FixUtcOffset(s)
  {

  }

  /** A string already ending in `±HHMM` is left unchanged. */
  lemma FixUtcOffsetKeepsCompact(s: string)
    requires EndsWithCompactOffset(s)
    ensures FixUtcOffset(s) == s
  {
  }

  /**
   * One time attribute as the parsers handle it (lines 47-50): a falsy attribute is not parsed and
   * gives no instant; a truthy one is normalised and parsed, and a parse failure is an error.
   */
  function ParseTime(raw: Option<string>, parse: string -> Option<Instant>): (r: Result<Option<Instant>>)
    ensures r == Ok(None) <==> !Truthy(raw)
    ensures r.Ok? && r.value.Some? ==> r.value == parse(FixUtcOffset(raw.value))
    ensures r.Err? <==> Truthy(raw) && parse(FixUtcOffset(raw.value)).None?
    ensures r.Err? ==> r.error == MalformedTimestamp(raw.value)
  {
    if !Truthy(raw) then Ok(None)
    else
      match parse(FixUtcOffset(raw.value))
      case Some(t) => Ok(Some(t))
      case None => Err(MalformedTimestamp(raw.value))
  }

  /**
   * The same step as the code performs it: the normaliser's result is discarded, so the text
   * handed to the parser is the attribute itself.
   */
  function ParseTimeAsWritten(raw: Option<string>, parse: string -> Option<Instant>): (r: Result<Option<Instant>>)
    ensures r == Ok(None) <==> !Truthy(raw)
    ensures r.Ok? && r.value.Some? ==> r.value == parse(raw.value)
    ensures r.Err? <==> Truthy(raw) && parse(raw.value).None?
    ensures r.Err? ==> r.error == MalformedTimestamp(raw.value)
  {
    if !Truthy(raw) then Ok(None)
    else
      match parse(raw.value)
      case Some(t) => Ok(Some(t))
      case None => Err(MalformedTimestamp(raw.value))
  }

  /**
   * With a parser that rejects a colon in the offset and accepts it without one (the `%z` of
   * Python 3.6 and earlier), the code as written fails on the API's own timestamp format, while
   * the intended normalise-then-parse step succeeds.
   */
  lemma AsWrittenRejectsColonOffset(parse: string -> Option<Instant>)
    requires parse("2020-04-20T23:59:59-04:00").None? && parse("2020-04-20T23:59:59-0400").Some?
    ensures ParseTimeAsWritten(Some("2020-04-20T23:59:59-04:00"), parse) ==
      Err(MalformedTimestamp("2020-04-20T23:59:59-04:00"))
    ensures ParseTime(Some("2020-04-20T23:59:59-04:00"), parse) == Ok(parse("2020-04-20T23:59:59-0400"))
  {
    FixUtcOffsetAsWrittenHasNoEffect();
  }

  /**
   * With a parser that gives the same answer for both offset spellings (the `%z` of Python 3.7
   * and later), the code as written and the intended step agree on every attribute.
   */
  lemma AsWrittenAgreesWhenColonAccepted(raw: Option<string>, parse: string -> Option<Instant>)
    requires Truthy(raw) ==> parse(raw.value) == parse(FixUtcOffset(raw.value))
    ensures ParseTimeAsWritten(raw, parse) == ParseTime(raw, parse)
  {
  }

  /**
   * The colon and colon-less spellings of the same offset yield the same instant, or both
   * fail to parse, whatever the parser is.
   */
  lemma OffsetSpellingsParseAlike(prefix: string, sign: char, h1: char, h2: char, m1: char, m2: char,
                                  parse: string -> Option<Instant>)
    requires sign in "+-" && IsDigit(h1) && IsDigit(h2) && IsDigit(m1) && IsDigit(m2)
    ensures var colon := prefix + [sign, h1, h2, ':', m1, m2];
            var compact := prefix + [sign, h1, h2, m1, m2];
            ParseTime(Some(colon), parse).Ok? == ParseTime(Some(compact), parse).Ok? &&
            (ParseTime(Some(colon), parse).Ok? ==> ParseTime(Some(colon), parse) == ParseTime(Some(compact), parse))
  {
    var colon := prefix + [sign, h1, h2, ':', m1, m2];
    var compact := prefix + [sign, h1, h2, m1, m2];
    assert colon[|colon| - 3] == ':';
    assert FixUtcOffset(colon) == compact by {
      assert colon[..|colon| - 3] == prefix + [sign, h1, h2];
      assert colon[|colon| - 2..] == [m1, m2];
    }
    assert compact[|compact| - 3] == h2;
  }

  /**
   * The as-written normaliser has no effect on its callers: on a timestamp in the API's format the
   * text that reaches the parser keeps its colon, which the intended normalisation removes.
   */
  lemma FixUtcOffsetAsWrittenHasNoEffect()
    ensures var s := "2020-04-20T23:59:59-04:00";
            FixUtcOffsetAsWritten(s) == None && s[|s| - 3] == ':' &&
            FixUtcOffset(s) == "2020-04-20T23:59:59-0400" && FixUtcOffset(s) != s
  {

  }
}
