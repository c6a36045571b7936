/** Sequence-numbered identifiers: fmt.Sprintf("lease-%08x", n) and "sess-%06d", and the
    fmt.Sscanf readers that recover the number when a daemon restarts.
    Integers are unbounded here; the 64-bit limit of the counter is not reached. */
module Ids {
  import opened Numerals

  /** What "%0<width>d" or "%0<width>x" prints after the prefix. */
  function Format(prefix: string, n: nat, base: nat, width: nat): string
    requires IsBase(base)
  {
    prefix + Pad(Numeral(n, base), width)
  }

  function Scan(prefix: string, id: string, base: nat): int
    requires IsBase(base)
  {
    if prefix <= id then ScanNumber(id[|prefix|..], base) else 0
  }

  /** Reading back a printed identifier gives the number it was printed from. */
  lemma ScanFormat(prefix: string, n: nat, base: nat, width: nat)
    requires IsBase(base)
    ensures Scan(prefix, Format(prefix, n, base, width), base) == n
  {
    var body := Pad(Numeral(n, base), width);
    NumeralValue(n, base);
    PadValue(Numeral(n, base), width, base);
    assert Format(prefix, n, base, width)[|prefix|..] == body;
    assert DigitValue(body[0], base) >= 0;
    assert DigitRun(body, base) == |body|;
    assert body[..|body|] == body;
  }

  /** lease-%08x and its reader. */
  function LeaseId(n: nat): string { Format("lease-", n, 16, 8) }
  function LeaseSeq(id: string): int { Scan("lease-", id, 16) }

  /** sess-%06d and its reader. */
  function SessionId(n: nat): string { Format("sess-", n, 10, 6) }
  function SessionSeq(id: string): int { Scan("sess-", id, 10) }

  lemma LeaseSeqInvertsLeaseId(n: nat)
    ensures LeaseSeq(LeaseId(n)) == n
  {
    ScanFormat("lease-", n, 16, 8);
  }

  lemma SessionSeqInvertsSessionId(n: nat)
    ensures SessionSeq(SessionId(n)) == n
  {
    ScanFormat("sess-", n, 10, 6);
  }

  /** After the prefix come at least so many lower-case digits, and no zero in front of more. */
  predicate Padded(id: string, prefix: string, width: nat) {
    && |id| >= |prefix| + width && id[..|prefix|] == prefix
    && (forall i | |prefix| <= i < |id| :: '0' <= id[i] <= '9' || 'a' <= id[i] <= 'f')
    && (|id| > |prefix| + width > |prefix| ==> id[|prefix|] != '0')
  }

  lemma {:induction false} PadShape(s: string, width: nat)
    requires forall c | c in s :: '0' <= c <= '9' || 'a' <= c <= 'f'
    ensures forall c | c in Pad(s, width) :: '0' <= c <= '9' || 'a' <= c <= 'f'
    ensures |Pad(s, width)| >= width && (|s| >= width ==> Pad(s, width) == s)
    ensures |s| < width ==> |Pad(s, width)| == width
    decreases width - |s|
  {
    if |s| < width { PadShape("0" + s, width); }
  }

  lemma FormatPadded(prefix: string, n: nat, base: nat, width: nat)
    requires IsBase(base) && width > 0
    ensures Padded(Format(prefix, n, base, width), prefix, width)
  {
    var body, id := Pad(Numeral(n, base), width), Format(prefix, n, base, width);
    NumeralShape(n, base);
    PadShape(Numeral(n, base), width);
    forall i | |prefix| <= i < |id| ensures '0' <= id[i] <= '9' || 'a' <= id[i] <= 'f' {
      assert id[i] == body[i - |prefix|] && body[i - |prefix|] in body;
    }
  }

  /** What ids look like; together with reading them back, this determines each of them. */
  lemma IdShapes(n: nat)
    ensures Padded(LeaseId(n), "lease-", 8) && Padded(SessionId(n), "sess-", 6) && Padded(RunId(n), "run-", 6)
  {
    FormatPadded("lease-", n, 16, 8);
    FormatPadded("sess-", n, 10, 6);
    FormatPadded("run-", n, 10, 6);
  }

  // Run ids: run-%06d, read back with a width of six characters

  const RUN_WIDTH := 6

  function RunId(n: nat): string { Format("run-", n, 10, RUN_WIDTH) }

  function RunSeq(id: string): int {
    if "run-" <= id then
      var rest := id[4..];
      ScanNumber(if |rest| > RUN_WIDTH then rest[..RUN_WIDTH] else rest, 10)
    else 0
  }

  lemma {:induction false} PadLength(s: string, width: nat)
    ensures |Pad(s, width)| == if |s| < width then width else |s|
    decreases width - |s|
  {
    if |s| < width { PadLength("0" + s, width); }
  }

  lemma AllDigitsScan(s: string, base: nat)
    requires IsBase(base) && s != [] && AllDigits(s, base)
    ensures ScanNumber(s, base) == Value(s, base)
  {
    assert DigitValue(s[0], base) >= 0;
    assert DigitRun(s, base) == |s|;
    assert s[..|s|] == s;
  }

  /** The number of a run id survives a restart exactly up to six digits. */
  lemma RunSeqInvertsIff(n: nat)
    ensures RunSeq(RunId(n)) == n <==> n < 1_000_000
    ensures RunSeq(RunId(n)) < 1_000_000
  {
    var body := Pad(Numeral(n, 10), RUN_WIDTH);
    NumeralValue(n, 10);
    PadValue(Numeral(n, 10), RUN_WIDTH, 10);
    PadLength(Numeral(n, 10), RUN_WIDTH);
    assert RunId(n)[4..] == body;
    assert Power(10, 6) == 1_000_000;
    if n < 1_000_000 {
      NumeralLength(n, 10, 6);
      AllDigitsScan(body, 10);
    } else {
      var read := if |body| > RUN_WIDTH then body[..RUN_WIDTH] else body;
      AllDigitsScan(read, 10);
      ValueBound(read, 10);
      PowerGrows(10, |read|, 6);
    }
  }

  lemma RunIdsDiffer(n: nat, k: nat)
    requires RunId(n) == RunId(k)
    ensures n == k
  {
    NumeralValue(n, 10);
    NumeralValue(k, 10);
    PadValue(Numeral(n, 10), RUN_WIDTH, 10);
    PadValue(Numeral(k, 10), RUN_WIDTH, 10);
    assert RunId(n)[4..] == Pad(Numeral(n, 10), RUN_WIDTH) && RunId(k)[4..] == Pad(Numeral(k, 10), RUN_WIDTH);
  }
}
