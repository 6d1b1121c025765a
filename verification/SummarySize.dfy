/** The size a summary reports of itself (internal/agent/tool_result.go): it is part of the
    encoding it measures, and three passes, the signature and one more pass settle it. */
module SummarySize {
  import opened Wrappers
  import opened Summary

  /** Decimal digits. */
  function Digits(n: nat): (d: nat)
    ensures d >= 1
  {
    if n < 10 then 1 else 1 + Digits(n / 10)
  }

  /** How JSON spells a summary: its number and, unless it is empty, its signature (64
      hexadecimal digits under a key of 20 characters) add to a length that depends on
      nothing else of either. */
  ghost predicate Spelled(lib: Lib, rest: ToolSummary -> nat) {
    && (forall text :: |lib.sha(text)| == 64)
    && forall s: ToolSummary :: s.summaryBytes >= 0 && lib.marshal(s).Some? ==>
         |lib.marshal(s).value| == Rest(rest, s) + Digits(s.summaryBytes) + if s.sha == "" then 0 else 20 + |s.sha|
  }

  function Rest(rest: ToolSummary -> nat, s: ToolSummary): nat { rest(s.(sha := "", summaryBytes := 0)) }

  lemma {:induction false} DigitsMonotone(m: nat, n: nat)
    requires m <= n
    ensures Digits(m) <= Digits(n)
    decreases n
  {
    if m >= 10 {
      DigitsMonotone(m / 10, n / 10);
    }
  }

  lemma {:induction false} DigitsFew(n: nat)
    ensures n >= 2 ==> Digits(n) < n
  {
    if n >= 10 {
      DigitsFew(n / 10);
    }
  }

  /** Up to its tenfold, a number has at most one digit more. */
  lemma DigitsClose(c: nat, n: nat)
    requires 10 <= c <= n <= 10 * c
    ensures Digits(c) <= Digits(n) <= Digits(c) + 1
  {
    DigitsMonotone(c, n);
    DigitsMonotone(n, 10 * c);
    assert 10 * c / 10 == c;
  }

  /** A size that counts its own digits: whatever up to 20 digits it starts with, three
      rounds reach a number that no further round changes. */
  lemma Settles(c: nat, digits: nat)
    requires c >= 84 && digits <= 20
    ensures var third := c + Digits(c + Digits(c + digits)); c + Digits(third) == third
  {
    var first := c + digits;
    var second := c + Digits(first);
    var third := c + Digits(second);
    DigitsFew(c);
    DigitsClose(c, first);
    DigitsClose(c, second);
    DigitsClose(c, third);
    if third <= second {
      DigitsMonotone(third, second);
    } else {
      DigitsMonotone(second, third);
    }
  }

  lemma {:induction false} DigitsBelow(n: nat, d: nat)
    requires 1 <= d && n < Power(d)
    ensures Digits(n) <= d
    decreases d
  {
    if n >= 10 {
      DigitsBelow(n / 10, d - 1);
    }
  }

  function Power(d: nat): nat { if d == 0 then 1 else 10 * Power(d - 1) }

  /** One pass over an unsigned summary. */
  lemma PassSize(lib: Lib, rest: ToolSummary -> nat, s: ToolSummary)
    requires Spelled(lib, rest) && s.summaryBytes >= 0 && s.sha == "" && lib.marshal(s).Some?
    ensures Sized(lib, s).summaryBytes == Rest(rest, s) + 84 + Digits(s.summaryBytes)
    ensures Rest(rest, Sized(lib, s)) == Rest(rest, s) && Sized(lib, s).sha == ""
  {
  }

  /** Signing a summary whose size is settled, and measuring it again, changes nothing. */
  lemma SignedSize(lib: Lib, rest: ToolSummary -> nat, s: ToolSummary, signed: ToolSummary, final: ToolSummary,
                   h: string)
    requires Spelled(lib, rest) && s.summaryBytes >= 0 && s.summaryBytes == Rest(rest, s) + 84 + Digits(s.summaryBytes)
    requires |h| == 64 && |signed.sha| == 64 && signed == s.(sha := signed.sha) && lib.marshal(signed).Some?
    requires final == signed.(summaryBytes := |lib.marshal(signed).value|, sha := h) && lib.marshal(final).Some?
    ensures final.summaryBytes == |lib.marshal(final).value|
  {
    assert Rest(rest, signed) == Rest(rest, s) && Rest(rest, final) == Rest(rest, s);
  }

  /** The three passes. */
  function Passed(lib: Lib, s: ToolSummary): ToolSummary { Sized(lib, Sized(lib, Sized(lib, s))) }

  lemma PassedSize(lib: Lib, rest: ToolSummary -> nat, s: ToolSummary)
    requires Spelled(lib, rest) && 0 <= s.summaryBytes < Power(20) && s.sha == "" && lib.marshal(s).Some?
    requires lib.marshal(Sized(lib, s)).Some? && lib.marshal(Sized(lib, Sized(lib, s))).Some?
    ensures var t := Passed(lib, s); t.summaryBytes >= 0 && t.summaryBytes == Rest(rest, t) + 84 + Digits(t.summaryBytes)
  {
    DigitsBelow(s.summaryBytes, 20);
    Settles(Rest(rest, s) + 84, Digits(s.summaryBytes));
    PassSize(lib, rest, s);
    PassSize(lib, rest, Sized(lib, s));
    PassSize(lib, rest, Sized(lib, Sized(lib, s)));
  }

  lemma EncodedParts(lib: Lib, s: ToolSummary)
    requires Encode(lib, s).Some?
    ensures var start := Observed(lib, s);
            && lib.marshal(start).Some? && lib.marshal(Sized(lib, start)).Some?
            && lib.marshal(Sized(lib, Sized(lib, start))).Some?
            && start.sha == "" && start.summaryBytes == s.summaryBytes
  {
  }

  lemma SignedParts(lib: Lib, s: ToolSummary)
    requires Encode(lib, s).Some?
    ensures var third, final := Passed(lib, Observed(lib, s)), Signed(lib, s);
            var signed := third.(sha := Sha(lib, third));
            && lib.marshal(signed).Some? && lib.marshal(third.(sha := "")).Some? && lib.marshal(final.(sha := "")).Some?
            && final == signed.(summaryBytes := |lib.marshal(signed).value|, sha := Sha(lib, final))
            && lib.marshal(final).Some? && Encode(lib, s) == lib.marshal(final)
  {
  }

  lemma ShaLength(lib: Lib, rest: ToolSummary -> nat, s: ToolSummary)
    requires Spelled(lib, rest) && lib.marshal(s.(sha := "")).Some?
    ensures |Sha(lib, s)| == 64
  {
  }

  /** The size an encoding reports is its size, whatever number of up to 20 digits, and so any
      64-bit one, stood there before. */
  lemma ReportedSizeExact(lib: Lib, rest: ToolSummary -> nat, s: ToolSummary)
    requires Spelled(lib, rest) && 0 <= s.summaryBytes < Power(20) && Encode(lib, s).Some?
    ensures Signed(lib, s).summaryBytes == |Encode(lib, s).value|
  {
    var third, final := Passed(lib, Observed(lib, s)), Signed(lib, s);
    EncodedParts(lib, s);
    SignedParts(lib, s);
    PassedSize(lib, rest, Observed(lib, s));
    ShaLength(lib, rest, third);
    ShaLength(lib, rest, final);
    SignedSize(lib, rest, third, third.(sha := Sha(lib, third)), final, Sha(lib, final));
  }
}
