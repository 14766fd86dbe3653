/** Reading and writing the `traceparent` header (section 3.2 of W3C Trace Context). */
module TraceContext {
  import opened Wrappers
  import opened Text

  datatype TraceContext = TraceContext(traceId: string, spanId: string, sampled: bool)

  predicate IsHexDigit(c: char) {
    '0' <= c <= '9' || 'a' <= c <= 'f'
  }

  predicate IsHex(s: string, length: nat) {
    |s| == length && forall i :: 0 <= i < |s| ==> IsHexDigit(s[i])
  }

  predicate IsZero(s: string) {
    forall i :: 0 <= i < |s| ==> s[i] == '0'
  }

  /** Ids of the right length, lower-case hexadecimal and not all zeros (sections 3.2.2.3 and 3.2.2.4). */
  predicate Valid(c: TraceContext) {
    && IsHex(c.traceId, 32) && !IsZero(c.traceId)
    && IsHex(c.spanId, 16) && !IsZero(c.spanId)
  }

  function Normalised(header: Option<string>): string {
    ToLower(Trim(header.GetOr("")))
  }

  /** `version-traceid-spanid-flags`, nothing before and nothing after. */
  predicate Matches(s: string) {
    && |s| == 55 && s[2] == '-' && s[35] == '-' && s[52] == '-'
    && IsHex(s[..2], 2) && IsHex(s[3..35], 32) && IsHex(s[36..52], 16) && IsHex(s[53..], 2)
  }

  /** The lowest bit of a hexadecimal digit. */
  predicate OddHexDigit(c: char) {
    c in {'1', '3', '5', '7', '9', 'b', 'd', 'f'}
  }

  function ParseTraceparent(header: Option<string>): Option<TraceContext> {
    var s := Normalised(header);
    if !Matches(s) then None
    else
      var version, traceId, spanId, flags := s[..2], s[3..35], s[36..52], s[53..];
      if version == "ff" || IsZero(traceId) || IsZero(spanId) then None
      else Some(TraceContext(traceId, spanId, OddHexDigit(flags[1])))
  }

  function FormatTraceparent(c: TraceContext): string {
    "00-" + c.traceId + "-" + c.spanId + "-" + (if c.sampled then "01" else "00")
  }

  /** Continues the caller's trace, or starts one; the new ids are drawn by the caller of this function. */
  function TraceContextFrom(header: Option<string>, newTraceId: string, newSpanId: string): TraceContext {
    match ParseTraceparent(header)
    case Some(parent) => TraceContext(parent.traceId, newSpanId, parent.sampled)
    case None => TraceContext(newTraceId, newSpanId, true)
  }

  // ---------- Results ----------

  /** Whatever the header holds, a context read from it is valid: nothing else gets into logs. */
  lemma ParsedIsValid(header: Option<string>)
    ensures ParseTraceparent(header).Some? ==> Valid(ParseTraceparent(header).value)
  {
  }

  lemma NormalTextStays(s: string)
    requires s != [] && !IsSpace(s[0]) && !IsSpace(s[|s| - 1])
    requires forall i :: 0 <= i < |s| ==> !('A' <= s[i] <= 'Z')
    ensures Normalised(Some(s)) == s
  {
    assert TrimStart(s) == s && TrimEnd(s) == s;
    assert forall i :: 0 <= i < |s| ==> LowerChar(s[i]) == s[i];
  }

  lemma ValidRoundTrip(c: TraceContext)
    requires Valid(c)
    ensures ParseTraceparent(Some(FormatTraceparent(c))) == Some(c)
  {
    var flags := if c.sampled then "01" else "00";
    assert "00-" == "00" + "-";
    assert FormatTraceparent(c) == Header("00", c.traceId, c.spanId, flags);
    WellFormedIsReadIff("00", c.traceId, c.spanId, flags);
    assert HexValue('1') == 1 && HexValue('0') == 0;
    assert "00" != "ff" by {
      assert "00"[0] != "ff"[0];
    }
  }

  /** Writing a context and reading it back gives it again, exactly when it is valid. */
  lemma RoundTripIffValid(c: TraceContext)
    ensures ParseTraceparent(Some(FormatTraceparent(c))) == Some(c) <==> Valid(c)
  {
    if Valid(c) {
      ValidRoundTrip(c);
    } else {
      ParsedIsValid(Some(FormatTraceparent(c)));
    }
  }

  /** Reading is stable: what was read from any header is read again from its written form. */
  lemma ParsedIsFixedPoint(header: Option<string>)
    requires ParseTraceparent(header).Some?
    ensures ParseTraceparent(Some(FormatTraceparent(ParseTraceparent(header).value))) == ParseTraceparent(header)
  {
    ParsedIsValid(header);
    ValidRoundTrip(ParseTraceparent(header).value);
  }

  /**
   Between two services: the receiver of a header this service wrote is in the same trace, with
   the same sampling decision, under its own span.
   */
  lemma TraceIsContinued(c: TraceContext, traceId: string, spanId: string)
    requires Valid(c)
    ensures TraceContextFrom(Some(FormatTraceparent(c)), traceId, spanId) == TraceContext(c.traceId, spanId, c.sampled)
  {
    ValidRoundTrip(c);
  }

  function HexValue(c: char): nat
    requires IsHexDigit(c)
  {
    if c <= '9' then (c - '0') as nat else (c - 'a') as nat + 10
  }

  /** The sampling decision is the lowest bit of the flags, read as a number (section 3.2.2.5). */
  lemma SampledIsLowestBit(header: Option<string>)
    requires ParseTraceparent(header).Some?
    ensures var flags := Normalised(header)[53..];
            ParseTraceparent(header).value.sampled <==> (16 * HexValue(flags[0]) + HexValue(flags[1])) % 2 == 1
  {
    LowestBit(Normalised(header)[53..]);
  }

  lemma LowestBit(flags: string)
    requires IsHex(flags, 2)
    ensures OddHexDigit(flags[1]) <==> (16 * HexValue(flags[0]) + HexValue(flags[1])) % 2 == 1
  {
    OddDigits(flags[1]);
    EvenPart(HexValue(flags[0]), HexValue(flags[1]));
  }

  lemma EvenPart(a: nat, b: nat)
    ensures (16 * a + b) % 2 == b % 2
  {
  }

  lemma OddDigits(c: char)
    requires IsHexDigit(c)
    ensures OddHexDigit(c) <==> HexValue(c) % 2 == 1
  {
    var digits := "0123456789abcdef";
    assert HexValue(c) < 16 && c == digits[HexValue(c)];
  }

  // ---------- What is accepted ----------

  /** White space around a header makes no difference. */
  lemma SpaceIsIgnored(left: string, header: string, right: string)
    requires AllSpace(left) && AllSpace(right)
    ensures ParseTraceparent(Some(left + header + right)) == ParseTraceparent(Some(header))
  {
    TrimIgnoresSpace(left, header, right);
  }

  lemma {:induction false} TrimStartLowers(s: string)
    ensures TrimStart(ToLower(s)) == ToLower(TrimStart(s))
    decreases |s|
  {
    if s == [] {
    } else {
      assert ToLower(s)[1..] == ToLower(s[1..]) && IsSpace(ToLower(s)[0]) == IsSpace(s[0]);
      TrimStartLowers(s[1..]);
    }
  }

  lemma {:induction false} TrimEndLowers(s: string)
    ensures TrimEnd(ToLower(s)) == ToLower(TrimEnd(s))
    decreases |s|
  {
    if s == [] {
    } else {
      var n := |s| - 1;
      assert ToLower(s)[..n] == ToLower(s[..n]) && IsSpace(ToLower(s)[n]) == IsSpace(s[n]);
      TrimEndLowers(s[..n]);
    }
  }

  /** Nor does the case of its letters. */
  lemma CaseIsIgnored(a: string, b: string)
    requires ToLower(a) == ToLower(b)
    ensures ParseTraceparent(Some(a)) == ParseTraceparent(Some(b))
  {
    TrimStartLowers(a);
    TrimStartLowers(b);
    TrimEndLowers(TrimStart(a));
    TrimEndLowers(TrimStart(b));
  }

  /** A header with the given version and flags. */
  function Header(version: string, traceId: string, spanId: string, flags: string): string {
    version + "-" + traceId + "-" + spanId + "-" + flags
  }

  lemma HeaderLayout(version: string, traceId: string, spanId: string, flags: string)
    requires |version| == 2 && |traceId| == 32 && |spanId| == 16 && |flags| == 2
    ensures var s := Header(version, traceId, spanId, flags);
            && |s| == 55 && s[2] == '-' && s[35] == '-' && s[52] == '-'
            && s[..2] == version && s[3..35] == traceId && s[36..52] == spanId && s[53..] == flags
  {
    var s := Header(version, traceId, spanId, flags);
    assert s == version + ("-" + (traceId + ("-" + (spanId + ("-" + flags)))));
  }

  lemma HexIsNormal(c: char)
    requires IsHexDigit(c)
    ensures !('A' <= c <= 'Z') && !IsSpace(c)
  {
  }

  /** A well-formed header is its own normal form. */
  lemma HeaderIsNormal(version: string, traceId: string, spanId: string, flags: string)
    requires IsHex(version, 2) && IsHex(traceId, 32) && IsHex(spanId, 16) && IsHex(flags, 2)
    ensures Normalised(Some(Header(version, traceId, spanId, flags))) == Header(version, traceId, spanId, flags)
  {
    HeaderLayout(version, traceId, spanId, flags);
    var s := Header(version, traceId, spanId, flags);
    forall i | 0 <= i < |s| ensures s[i] == '-' || IsHexDigit(s[i]) {
      if i < 2 {
        assert s[i] == s[..2][i];
      } else if 3 <= i < 35 {
        assert s[i] == s[3..35][i - 3];
      } else if 36 <= i < 52 {
        assert s[i] == s[36..52][i - 36];
      } else if 53 <= i {
        assert s[i] == s[53..][i - 53];
      }
    }
    assert IsHexDigit(s[0]) && IsHexDigit(s[54]) by {
      assert s[0] == version[0] && s[54] == s[53..][1];
    }
    NormalTextStays(s);
  }

  /**
   A well-formed header is read if and only if its version is not `ff` (section 3.2.2.1) and neither id
   is all zeros; every other version is read alike, whatever the other bits of the flags.
   */
  lemma WellFormedIsReadIff(version: string, traceId: string, spanId: string, flags: string)
    requires IsHex(version, 2) && IsHex(traceId, 32) && IsHex(spanId, 16) && IsHex(flags, 2)
    ensures ParseTraceparent(Some(Header(version, traceId, spanId, flags))) ==
            if version == "ff" || IsZero(traceId) || IsZero(spanId) then None
            else Some(TraceContext(traceId, spanId, HexValue(flags[1]) % 2 == 1))
  {
    HeaderIsNormal(version, traceId, spanId, flags);
    HeaderLayout(version, traceId, spanId, flags);
    OddDigits(flags[1]);
  }

  /** And nothing else is: a header that is read is, but for case and surrounding space, well-formed. */
  lemma ReadIsWellFormed(header: Option<string>)
    requires ParseTraceparent(header).Some?
    ensures exists version, traceId, spanId, flags ::
              && IsHex(version, 2) && IsHex(traceId, 32) && IsHex(spanId, 16) && IsHex(flags, 2)
              && Normalised(header) == Header(version, traceId, spanId, flags)
  {
    MatchIsHeader(Normalised(header));
  }

  lemma MatchIsHeader(s: string)
    requires Matches(s)
    ensures s == Header(s[..2], s[3..35], s[36..52], s[53..])
  {
    var t := Header(s[..2], s[3..35], s[36..52], s[53..]);
    HeaderLayout(s[..2], s[3..35], s[36..52], s[53..]);
    forall i | 0 <= i < 55 ensures s[i] == t[i] {
      if i < 2 {
        assert s[i] == s[..2][i] && t[i] == t[..2][i];
      } else if 3 <= i < 35 {
        assert s[i] == s[3..35][i - 3] && t[i] == t[3..35][i - 3];
      } else if 36 <= i < 52 {
        assert s[i] == s[36..52][i - 36] && t[i] == t[36..52][i - 36];
      } else if 53 <= i {
        assert s[i] == s[53..][i - 53] && t[i] == t[53..][i - 53];
      }
    }
  }

  /** Without a readable header a new trace begins, and it is sampled. */
  lemma NewTraceIsSampled(header: Option<string>, traceId: string, spanId: string)
    requires ParseTraceparent(header) == None
    ensures TraceContextFrom(header, traceId, spanId) == TraceContext(traceId, spanId, true)
    ensures ParseTraceparent(None) == None
  {
    assert Normalised(None) == "";
  }
}
