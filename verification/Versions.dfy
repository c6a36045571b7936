/** Version strings: splitting, numeric segments, and the comparison used to pick tools. */
module Versions {
  import opened Options
  import opened Text
  import N = Numerals

  predicate IsSep(c: char) { c == '.' || c == '-' || c == '_' || c == ' ' }

  function SplitVer(v: string): seq<string> { Fields(v, IsSep) }

  lemma SplitSep(v: string, sep: char, w: string)
    requires IsSep(sep) && w != [] && forall i | 0 <= i < |w| :: !IsSep(w[i])
    ensures SplitVer(v + [sep] + w) == SplitVer(v) + [w]
  {
    FieldsSep(v, sep, IsSep);
    FieldsWord(v + [sep], w, IsSep);
  }

  lemma OneSegment(w: string)
    requires w != [] && forall i | 0 <= i < |w| :: !IsSep(w[i])
    ensures SplitVer(w) == [w]
  {
    FieldsWord([], w, IsSep);
    assert [] + w == w;
  }

  // Numbers

  const TWO63 := 0x8000_0000_0000_0000
  const TWO64 := 0x1_0000_0000_0000_0000

  /** A 64-bit int after overflow. */
  function Wrap(n: int): int { (n + TWO63) % TWO64 - TWO63 }

  predicate Numeric(s: string) { N.AllDigits(s, 10) }

  /** The value of a numeric segment as the machine computes it. */
  function Value(s: string): int {
    if s == [] then 0 else Wrap(Value(s[..|s| - 1]) * 10 + N.DigitValue(s[|s| - 1], 10))
  }

  lemma EighteenDigitsFit()
    ensures N.Power(10, 18) < TWO63
  {
    assert N.Power(10, 6) == 1_000_000;
    assert N.Power(10, 12) == 1_000_000_000_000;
  }

  /** Up to 18 digits the machine value is the number denoted; beyond, it may wrap. */
  lemma {:induction false} ValueIsDecimal(s: string)
    requires Numeric(s) && |s| <= 18
    ensures Value(s) == N.Value(s, 10)
  {
    if s != [] {
      ValueIsDecimal(s[..|s| - 1]);
      N.ValueBound(s, 10);
      N.PowerGrows(10, |s|, 18);
      EighteenDigitsFit();
    }
  }

  lemma WrapTurns(n: int) returns (k: int)
    ensures Wrap(n) == n - k * 0x1_0000_0000_0000_0000
    ensures -0x8000_0000_0000_0000 <= Wrap(n) < 0x8000_0000_0000_0000
  {
    k := (n + TWO63) / TWO64;
  }

  /** Whatever its length, the machine value is the number written less a multiple of 2^64, in 64-bit range. */
  lemma {:induction false} ValueModulo(s: string) returns (k: int)
    requires Numeric(s)
    ensures Value(s) == N.Value(s, 10) - k * 0x1_0000_0000_0000_0000
    ensures -0x8000_0000_0000_0000 <= Value(s) < 0x8000_0000_0000_0000
  {
    if s == [] {
      k := 0;
    } else {
      var init, d := s[..|s| - 1], N.DigitValue(s[|s| - 1], 10);
      var j := ValueModulo(init);
      var i := WrapTurns(Value(init) * 10 + d);
      k := 10 * j + i;
    }
  }

  method ParseNum(s: string) returns (n: Option<int>)
    ensures n == if Numeric(s) then Some(Value(s)) else None
  {
    var v := 0;
    for i := 0 to |s|
      invariant Numeric(s[..i]) && v == Value(s[..i])
    {
      if s[i] < '0' || s[i] > '9' {
        return None;
      }
      assert s[..i + 1][..i] == s[..i];
      v := Wrap(v * 10 + (s[i] - '0') as int);
    }
    assert s[..|s|] == s;
    return Some(v);
  }

  // Comparison

  function Sign(n: int): int { if n < 0 then -1 else if n > 0 then 1 else 0 }

  /** Two numeric segments compare by value, anything else as text. */
  function CompareSegment(a: string, b: string): int {
    if Numeric(a) && Numeric(b) then Sign(Value(a) - Value(b))
    else if a == b then 0 else if Less(a, b) then -1 else 1
  }

  function Segment(segs: seq<string>, i: nat): string {
    if i < |segs| then segs[i] else "0"
  }

  function Longer(a: seq<string>, b: seq<string>): nat {
    if |a| > |b| then |a| else |b|
  }

  /** The first segment that differs decides. */
  function CompareFrom(a: seq<string>, b: seq<string>, i: nat): int
    decreases Longer(a, b) - i
  {
    if i >= Longer(a, b) then 0
    else
      var c := CompareSegment(Segment(a, i), Segment(b, i));
      if c != 0 then c else CompareFrom(a, b, i + 1)
  }

  lemma CompareStep(a: seq<string>, b: seq<string>, i: nat)
    ensures CompareFrom(a, b, i) ==
            var c := CompareSegment(Segment(a, i), Segment(b, i)); if c != 0 then c else CompareFrom(a, b, i + 1)
  {
  }

  function Compare(a: string, b: string): int { CompareFrom(SplitVer(a), SplitVer(b), 0) }

  /** Two numbers compare by value, anything else as text. */
  method CompareOne(av: string, bv: string) returns (c: int)
    ensures c == CompareSegment(av, bv)
  {
    var avn := ParseNum(av);
    var bvn := ParseNum(bv);
    if avn.Some? && bvn.Some? {
      if avn.value != bvn.value {
        if avn.value < bvn.value {
          return -1;
        }
        return 1;
      }
      return 0;
    }
    if av != bv {
      if Less(av, bv) {
        return -1;
      }
      return 1;
    }
    return 0;
  }

  method CompareVersions(a: string, b: string) returns (c: int)
    ensures c == Compare(a, b)
  {
    var xs, ys := SplitVer(a), SplitVer(b);
    var n := if |ys| > |xs| then |ys| else |xs|;
    for i := 0 to n
      invariant Compare(a, b) == CompareFrom(xs, ys, i)
    {
      c := CompareOne(if i < |xs| then xs[i] else "0", if i < |ys| then ys[i] else "0");
      CompareStep(xs, ys, i);
      if c != 0 {
        return;
      }
    }
    return 0;
  }

  predicate SameMajor(a: string, b: string) {
    var xs, ys := SplitVer(a), SplitVer(b);
    xs != [] && ys != [] && xs[0] == ys[0]
  }

  // Laws

  lemma SegmentAntisymmetric(a: string, b: string)
    ensures CompareSegment(a, b) == -CompareSegment(b, a)
  {
    LessTotal(a, b);
  }

  lemma {:induction false} FromAntisymmetric(a: seq<string>, b: seq<string>, i: nat)
    ensures CompareFrom(a, b, i) == -CompareFrom(b, a, i)
    decreases Longer(a, b) - i
  {
    if i < Longer(a, b) {
      SegmentAntisymmetric(Segment(a, i), Segment(b, i));
      FromAntisymmetric(a, b, i + 1);
    }
  }

  /** Swapping the versions swaps the verdict, on every two strings. */
  lemma Antisymmetric(a: string, b: string)
    ensures Compare(a, b) == -Compare(b, a) && -1 <= Compare(a, b) <= 1
  {
    FromAntisymmetric(SplitVer(a), SplitVer(b), 0);
    FromRange(SplitVer(a), SplitVer(b), 0);
  }

  lemma {:induction false} FromRange(a: seq<string>, b: seq<string>, i: nat)
    ensures -1 <= CompareFrom(a, b, i) <= 1
    decreases Longer(a, b) - i
  {
    if i < Longer(a, b) { FromRange(a, b, i + 1); }
  }

  predicate Alike(a: string, b: string) {
    a == b || (Numeric(a) && Numeric(b) && Value(a) == Value(b))
  }

  lemma SegmentEqual(a: string, b: string)
    ensures CompareSegment(a, b) == 0 <==> Alike(a, b)
  {
    LessTotal(a, b);
  }

  lemma {:induction false} FromEqual(a: seq<string>, b: seq<string>, i: nat)
    ensures CompareFrom(a, b, i) == 0 <==> forall k | i <= k < Longer(a, b) :: Alike(Segment(a, k), Segment(b, k))
    decreases Longer(a, b) - i
  {
    if i < Longer(a, b) {
      SegmentEqual(Segment(a, i), Segment(b, i));
      FromEqual(a, b, i + 1);
    }
  }

  /** Two versions are equal exactly when their segments agree, missing ones counting as 0. */
  lemma EqualIff(a: string, b: string)
    ensures Compare(a, b) == 0 <==> forall k: nat :: Alike(Segment(SplitVer(a), k), Segment(SplitVer(b), k))
  {
    FromEqual(SplitVer(a), SplitVer(b), 0);
  }

  /** Equality is transitive on all versions. */
  lemma EqualTrans(a: string, b: string, c: string)
    requires Compare(a, b) == 0 && Compare(b, c) == 0
    ensures Compare(a, c) == 0
  {
    EqualIff(a, b);
    EqualIff(b, c);
    EqualIff(a, c);
    forall k: nat ensures Alike(Segment(SplitVer(a), k), Segment(SplitVer(c), k)) {
      assert Alike(Segment(SplitVer(a), k), Segment(SplitVer(b), k));
      assert Alike(Segment(SplitVer(b), k), Segment(SplitVer(c), k));
    }
  }

  // The order in terms of the characters

  /** Dots, dashes, underscores and blanks separate segments, and nothing else does. */
  lemma SplitAtMarks(v: string, mark: char, w: string)
    requires mark in {'.', '-', '_', ' '} && w != [] && forall c | c in w :: c !in {'.', '-', '_', ' '}
    ensures SplitVer(w) == [w] && SplitVer(v + [mark]) == SplitVer(v) && SplitVer(v + [mark] + w) == SplitVer(v) + [w]
  {
    forall i | 0 <= i < |w| ensures !IsSep(w[i]) { assert w[i] in w; }
    OneSegment(w);
    FieldsSep(v, mark, IsSep);
    SplitSep(v, mark, w);
  }

  predicate IsNumber(s: string) { forall i | 0 <= i < |s| :: '0' <= s[i] <= '9' }

  /** Two numbers by value, anything else as text. */
  predicate LowerSegment(x: string, y: string) {
    if IsNumber(x) && IsNumber(y) then Value(x) < Value(y) else Less(x, y)
  }

  predicate SameSegment(x: string, y: string) {
    x == y || (IsNumber(x) && IsNumber(y) && Value(x) == Value(y))
  }

  /** A missing segment counts as 0. */
  function OrZero(segs: seq<string>, i: nat): string { if i < |segs| then segs[i] else "0" }

  /** The versions differ first in segment i, and a has the lower one. */
  predicate LowerAt(a: seq<string>, b: seq<string>, i: nat) {
    LowerSegment(OrZero(a, i), OrZero(b, i)) && forall k | 0 <= k < i :: SameSegment(OrZero(a, k), OrZero(b, k))
  }

  ghost predicate LowerVersion(a: string, b: string) { exists i: nat :: LowerAt(SplitVer(a), SplitVer(b), i) }

  ghost predicate SameVersion(a: string, b: string) {
    forall i: nat :: SameSegment(OrZero(SplitVer(a), i), OrZero(SplitVer(b), i))
  }

  lemma NumericIff(s: string)
    ensures Numeric(s) <==> IsNumber(s)
  {
  }

  lemma SegmentVerdict(x: string, y: string)
    ensures CompareSegment(x, y) == 0 <==> SameSegment(x, y)
    ensures CompareSegment(x, y) < 0 <==> LowerSegment(x, y)
  {
    NumericIff(x);
    NumericIff(y);
    LessTotal(x, y);
  }

  lemma {:induction false} DecidedAt(a: seq<string>, b: seq<string>, j: nat, i: nat)
    requires j <= i && LowerSegment(OrZero(a, i), OrZero(b, i))
    requires forall k | j <= k < i :: SameSegment(OrZero(a, k), OrZero(b, k))
    ensures CompareFrom(a, b, j) < 0
    decreases i - j
  {
    SegmentVerdict(Segment(a, j), Segment(b, j));
    CompareStep(a, b, j);
    if j < i {
      assert SameSegment(OrZero(a, j), OrZero(b, j));
      DecidedAt(a, b, j + 1, i);
    }
  }

  /** A version is lower exactly if it is in the first segment that differs, and equal if none does. */
  lemma OrderIff(a: string, b: string)
    ensures Compare(a, b) < 0 <==> LowerVersion(a, b)
    ensures Compare(a, b) > 0 <==> LowerVersion(b, a)
    ensures Compare(a, b) == 0 <==> SameVersion(a, b)
  {
    LowerIff(a, b);
    LowerIff(b, a);
    Antisymmetric(a, b);
    EqualIff(a, b);
    forall i: nat ensures Alike(Segment(SplitVer(a), i), Segment(SplitVer(b), i))
                          <==> SameSegment(OrZero(SplitVer(a), i), OrZero(SplitVer(b), i)) {
      NumericIff(Segment(SplitVer(a), i));
      NumericIff(Segment(SplitVer(b), i));
    }
  }

  lemma LowerIff(a: string, b: string)
    ensures Compare(a, b) < 0 <==> LowerVersion(a, b)
  {
    var xs, ys := SplitVer(a), SplitVer(b);
    if Compare(a, b) < 0 {
      var k := FirstDifference(xs, ys, 0);
      SegmentVerdict(Segment(xs, k), Segment(ys, k));
      forall j | 0 <= j < k ensures SameSegment(OrZero(xs, j), OrZero(ys, j)) {
        SegmentVerdict(Segment(xs, j), Segment(ys, j));
      }
      assert LowerAt(xs, ys, k);
    }
    if i: nat :| LowerAt(xs, ys, i) { DecidedAt(xs, ys, 0, i); }
  }

  // Versions made of numbers only

  predicate AllNumeric(v: string) { forall s | s in SplitVer(v) :: Numeric(s) }

  /** The values of the segments, without trailing zeros. */
  function Trimmed(segs: seq<string>): seq<int> {
    if segs == [] then []
    else
      var rest := Trimmed(segs[1..]);
      if rest == [] && Value(segs[0]) == 0 then [] else [Value(segs[0])] + rest
  }

  function At(values: seq<int>, i: nat): int { if i < |values| then values[i] else 0 }

  lemma {:induction false} TrimmedAt(segs: seq<string>, i: nat)
    ensures At(Trimmed(segs), i) == Value(Segment(segs, i))
    ensures NoTrailingZero(Trimmed(segs))
  {
    assert Value("0") == 0;
    if segs != [] {
      TrimmedAt(segs[1..], if i > 0 then i - 1 else 0);
    }
  }

  predicate NoTrailingZero(a: seq<int>) { a != [] ==> a[|a| - 1] != 0 }

  lemma NotLonger(a: seq<int>, b: seq<int>)
    requires NoTrailingZero(a) && forall i: nat :: At(a, i) == At(b, i)
    ensures |a| <= |b|
  {
    if a != [] { assert At(b, |a| - 1) == At(a, |a| - 1) != 0; }
  }

  lemma TrimmedUnique(a: seq<int>, b: seq<int>)
    requires NoTrailingZero(a) && NoTrailingZero(b) && forall i: nat :: At(a, i) == At(b, i)
    ensures a == b
  {
    NotLonger(a, b);
    NotLonger(b, a);
    forall i | 0 <= i < |a| ensures a[i] == b[i] {
      assert At(a, i) == At(b, i);
    }
  }

  lemma AlikeIffAt(a: seq<string>, b: seq<string>, i: nat)
    requires Numeric(Segment(a, i)) && Numeric(Segment(b, i))
    ensures Alike(Segment(a, i), Segment(b, i)) <==> At(Trimmed(a), i) == At(Trimmed(b), i)
  {
    TrimmedAt(a, i);
    TrimmedAt(b, i);
  }

  lemma EqualAt(a: string, b: string, i: nat)
    requires Compare(a, b) == 0
    ensures Alike(Segment(SplitVer(a), i), Segment(SplitVer(b), i))
  {
    EqualIff(a, b);
  }

  lemma DifferSomewhere(a: seq<string>, b: seq<string>)
    requires CompareFrom(a, b, 0) != 0
    requires forall i: nat :: Numeric(Segment(a, i)) && Numeric(Segment(b, i))
    ensures Trimmed(a) != Trimmed(b)
  {
    FromEqual(a, b, 0);
    var i :| 0 <= i < Longer(a, b) && !Alike(Segment(a, i), Segment(b, i));
    AlikeIffAt(a, b, i);
  }

  lemma NumericSegments(v: string)
    requires AllNumeric(v)
    ensures forall i: nat :: Numeric(Segment(SplitVer(v), i))
  {
    assert Numeric("0");
  }

  /** Numeric versions are equal exactly when their segment values agree up to trailing zeros. */
  lemma NumericEqualIff(a: string, b: string)
    requires AllNumeric(a) && AllNumeric(b)
    ensures Compare(a, b) == 0 <==> Trimmed(SplitVer(a)) == Trimmed(SplitVer(b))
  {
    var xs, ys := SplitVer(a), SplitVer(b);
    EqualIff(a, b);
    NumericSegments(a);
    NumericSegments(b);
    TrimmedAt(xs, 0);
    TrimmedAt(ys, 0);
    if Compare(a, b) == 0 {
      forall k: nat ensures At(Trimmed(xs), k) == At(Trimmed(ys), k) {
        EqualAt(a, b, k);
        AlikeIffAt(xs, ys, k);
      }
      TrimmedUnique(Trimmed(xs), Trimmed(ys));
    } else {
      DifferSomewhere(xs, ys);
    }
  }

  /** The first segment that differs decides. */
  lemma {:induction false} FirstDifference(a: seq<string>, b: seq<string>, i: nat) returns (k: nat)
    requires CompareFrom(a, b, i) != 0
    ensures i <= k && CompareSegment(Segment(a, k), Segment(b, k)) == CompareFrom(a, b, i)
    ensures forall j | i <= j < k :: CompareSegment(Segment(a, j), Segment(b, j)) == 0
    decreases Longer(a, b) - i
  {
    k := i;
    if CompareSegment(Segment(a, i), Segment(b, i)) == 0 { k := FirstDifference(a, b, i + 1); }
  }

  lemma NumericSegment(x: string, y: string, u: int, v: int)
    requires Numeric(x) && Numeric(y) && u == Value(x) && v == Value(y)
    ensures CompareSegment(x, y) == Sign(u - v)
  {
  }

  lemma SegmentIsValue(a: seq<string>, b: seq<string>, i: nat)
    requires Numeric(Segment(a, i)) && Numeric(Segment(b, i))
    ensures CompareSegment(Segment(a, i), Segment(b, i)) == Sign(At(Trimmed(a), i) - At(Trimmed(b), i))
  {
    TrimmedAt(a, i);
    TrimmedAt(b, i);
    NumericSegment(Segment(a, i), Segment(b, i), At(Trimmed(a), i), At(Trimmed(b), i));
  }

  predicate BelowAt(a: seq<int>, b: seq<int>, k: nat) {
    At(a, k) < At(b, k) && forall i | 0 <= i < k :: At(a, i) == At(b, i)
  }

  /** Lexicographic order: the first value that differs is smaller. */
  ghost predicate Below(a: seq<int>, b: seq<int>) { exists k: nat :: BelowAt(a, b, k) }

  lemma LowerIsBelow(a: string, b: string)
    requires AllNumeric(a) && AllNumeric(b) && Compare(a, b) < 0
    ensures Below(Trimmed(SplitVer(a)), Trimmed(SplitVer(b)))
  {
    var xs, ys := SplitVer(a), SplitVer(b);
    NumericSegments(a);
    NumericSegments(b);
    var k := FirstDifference(xs, ys, 0);
    SegmentIsValue(xs, ys, k);
    forall j | 0 <= j < k ensures At(Trimmed(xs), j) == At(Trimmed(ys), j) {
      SegmentIsValue(xs, ys, j);
    }
    assert BelowAt(Trimmed(xs), Trimmed(ys), k);
  }

  lemma BelowOneWay(a: seq<int>, b: seq<int>)
    requires Below(a, b)
    ensures !Below(b, a) && a != b
  {
    var j: nat :| BelowAt(a, b, j);
    forall k: nat ensures !BelowAt(b, a, k) {}
  }

  /** A numeric version is lower exactly when its values come first in lexicographic order. */
  lemma NumericLessIff(a: string, b: string)
    requires AllNumeric(a) && AllNumeric(b)
    ensures Compare(a, b) < 0 <==> Below(Trimmed(SplitVer(a)), Trimmed(SplitVer(b)))
  {
    var xs, ys := Trimmed(SplitVer(a)), Trimmed(SplitVer(b));
    Antisymmetric(a, b);
    NumericEqualIff(a, b);
    if Compare(a, b) < 0 { LowerIsBelow(a, b); }
    if Compare(a, b) > 0 { LowerIsBelow(b, a); BelowOneWay(ys, xs); }
    if Below(xs, ys) { BelowOneWay(xs, ys); }
  }

  /** At every position the three are all numbers or all text. */
  ghost predicate SameKinds(a: seq<string>, b: seq<string>, c: seq<string>) {
    forall i: nat | i < |a| || i < |b| || i < |c| ::
      Numeric(Segment(a, i)) == Numeric(Segment(b, i)) == Numeric(Segment(c, i))
  }

  lemma SegmentTrans(a: string, b: string, c: string)
    requires Numeric(a) == Numeric(b) == Numeric(c)
    requires CompareSegment(a, b) <= 0 && CompareSegment(b, c) <= 0
    ensures CompareSegment(a, c) <= 0
    ensures CompareSegment(a, c) == 0 ==> CompareSegment(a, b) == 0 && CompareSegment(b, c) == 0
  {
    LessTotal(a, b);
    LessTotal(b, c);
    LessTotal(a, c);
    if Less(a, b) && Less(b, c) { LessTrans(a, b, c); }
  }

  /** Past the end of both, versions compare equal. */
  lemma {:induction false} FromEnd(a: seq<string>, b: seq<string>, i: nat)
    requires i >= Longer(a, b)
    ensures CompareFrom(a, b, i) == 0
  {
  }

  lemma {:induction false} FromTrans(a: seq<string>, b: seq<string>, c: seq<string>, i: nat, n: nat)
    requires SameKinds(a, b, c) && |a| <= n && |b| <= n && |c| <= n
    requires CompareFrom(a, b, i) <= 0 && CompareFrom(b, c, i) <= 0
    ensures CompareFrom(a, c, i) <= 0
    decreases n - i
  {
    if i < n {
      CompareStep(a, b, i);
      CompareStep(b, c, i);
      CompareStep(a, c, i);
      KindsAt(a, b, c, i);
      SegmentTrans(Segment(a, i), Segment(b, i), Segment(c, i));
      if CompareSegment(Segment(a, i), Segment(c, i)) == 0 { FromTrans(a, b, c, i + 1, n); }
    }
  }

  lemma KindsAt(a: seq<string>, b: seq<string>, c: seq<string>, i: nat)
    requires SameKinds(a, b, c)
    ensures Numeric(Segment(a, i)) == Numeric(Segment(b, i)) == Numeric(Segment(c, i))
  {
  }

  /** The order is transitive among versions that have numbers and text in the same places. */
  lemma Transitive(a: string, b: string, c: string)
    requires SameKinds(SplitVer(a), SplitVer(b), SplitVer(c))
    requires Compare(a, b) <= 0 && Compare(b, c) <= 0
    ensures Compare(a, c) <= 0
  {
    var xs, ys, zs := SplitVer(a), SplitVer(b), SplitVer(c);
    FromTrans(xs, ys, zs, 0, |xs| + |ys| + |zs|);
  }

  /** In particular on numeric versions, which are thus totally preordered. */
  lemma NumericTransitive(a: string, b: string, c: string)
    requires AllNumeric(a) && AllNumeric(b) && AllNumeric(c)
    requires Compare(a, b) <= 0 && Compare(b, c) <= 0
    ensures Compare(a, c) <= 0
  {
    NumericSegments(a);
    NumericSegments(b);
    NumericSegments(c);
    Transitive(a, b, c);
  }

  lemma SingleSegments(a: string, b: string)
    requires SplitVer(a) == [a] && SplitVer(b) == [b]
    ensures Compare(a, b) == CompareSegment(a, b)
  {
    FromEnd(SplitVer(a), SplitVer(b), 1);
    CompareStep(SplitVer(a), SplitVer(b), 0);
  }

  lemma {:induction false} PrefixSame(a: seq<string>, b: seq<string>, p: seq<string>, i: nat)
    requires i <= |p| <= |a| && |p| <= |b| && a[..|p|] == p == b[..|p|]
    ensures CompareFrom(a, b, i) == CompareFrom(a, b, |p|)
    decreases |p| - i
  {
    if i < |p| {
      assert a[i] == a[..|p|][i] == b[..|p|][i] == b[i];
      SegmentEqual(a[i], b[i]);
      CompareStep(a, b, i);
      PrefixSame(a, b, p, i + 1);
    }
  }

  /** Two versions that add one segment to the same prefix compare by that segment, and with the prefix
      itself as against 0. */
  lemma ExtendedCompare(p: seq<string>, x: string, y: string)
    ensures CompareFrom(p + [x], p + [y], 0) == CompareSegment(x, y)
    ensures CompareFrom(p + [x], p, 0) == CompareSegment(x, "0")
  {
    PrefixSame(p + [x], p + [y], p, 0);
    CompareStep(p + [x], p + [y], |p|);
    FromEnd(p + [x], p + [y], |p| + 1);
    PrefixSame(p + [x], p, p, 0);
    CompareStep(p + [x], p, |p|);
    FromEnd(p + [x], p, |p| + 1);
  }

  /** A version with one more segment. */
  function Extend(v: string, w: string): string { v + ['.'] + w }

  predicate Word(w: string) { w != [] && forall i | 0 <= i < |w| :: !IsSep(w[i]) }

  /** Versions that extend one version by a word compare by those words, and with the version itself as
      against 0. */
  lemma ExtendedVersions(v: string, x: string, y: string)
    requires Word(x) && Word(y)
    ensures SplitVer(Extend(v, x)) == SplitVer(v) + [x]
    ensures Compare(Extend(v, x), Extend(v, y)) == CompareSegment(x, y)
    ensures Compare(Extend(v, x), v) == CompareSegment(x, "0")
  {
    SplitSep(v, '.', x);
    SplitSep(v, '.', y);
    ExtendedCompare(SplitVer(v), x, y);
  }

  lemma SegmentsOutOfOrder()
    ensures CompareSegment("10", "1a") == -1 && CompareSegment("1a", "9") == -1 && CompareSegment("9", "10") == -1
  {
    assert !Numeric("1a") by { assert "1a"[1] == 'a'; }
    assert Less("10", "1a") by { assert "10"[1..] == "0" && "1a"[1..] == "a"; }
    assert Value("9") == 9;
    assert "10"[..1] == "1" && Value("1") == 1 && Value("10") == 10;
  }

  /** Behind every prefix, numbers and text run in a circle: v.10 < v.1a < v.9 < v.10. */
  lemma Circle(v: string)
    ensures Compare(Extend(v, "10"), Extend(v, "1a")) == -1
    ensures Compare(Extend(v, "1a"), Extend(v, "9")) == -1
    ensures Compare(Extend(v, "9"), Extend(v, "10")) == -1
    ensures SplitVer(Extend(v, "10")) == SplitVer(v) + ["10"]
    ensures SplitVer(Extend(v, "1a")) == SplitVer(v) + ["1a"]
    ensures SplitVer(Extend(v, "9")) == SplitVer(v) + ["9"]
  {
    SegmentsOutOfOrder();
    ExtendedVersions(v, "10", "1a");
    ExtendedVersions(v, "1a", "9");
    ExtendedVersions(v, "9", "10");
  }

  /** The order is not transitive: 10 < 1a < 9 < 10. */
  lemma NotTransitive()
    ensures Compare("10", "1a") == -1 && Compare("1a", "9") == -1 && Compare("9", "10") == -1
  {
    OneSegment("9");
    OneSegment("10");
    OneSegment("1a");
    SegmentsOutOfOrder();
    SingleSegments("10", "1a");
    SingleSegments("1a", "9");
    SingleSegments("9", "10");
  }

  // Exactly where numbers and text may meet

  /** At every position that is not marked, the three are all numbers or all text. */
  ghost predicate SameKindsBut(mixed: nat -> bool, a: seq<string>, b: seq<string>, c: seq<string>) {
    forall i: nat | !mixed(i) :: Numeric(Segment(a, i)) == Numeric(Segment(b, i)) == Numeric(Segment(c, i))
  }

  /** The order is transitive on all versions that may mix numbers and text at the marked positions only. */
  ghost predicate TransitiveBut(mixed: nat -> bool) {
    forall a, b, c | SameKindsBut(mixed, SplitVer(a), SplitVer(b), SplitVer(c))
                     && Compare(a, b) <= 0 && Compare(b, c) <= 0 ::
      Compare(a, c) <= 0
  }

  /** A version of n segments. */
  function Zeros(n: nat): string { if n == 0 then "" else Extend(Zeros(n - 1), "0") }

  lemma {:induction false} ZerosSplit(n: nat)
    ensures |SplitVer(Zeros(n))| == n
  {
    if n > 0 {
      ZerosSplit(n - 1);
      ExtendedVersions(Zeros(n - 1), "0", "0");
    }
  }

  /** Three versions that differ in their last segment agree in kind before it and after it. */
  lemma SameKindsButLast(mixed: nat -> bool, p: seq<string>, x: string, y: string, z: string)
    requires mixed(|p|)
    ensures SameKindsBut(mixed, p + [x], p + [y], p + [z])
  {
    forall i: nat | !mixed(i)
      ensures Numeric(Segment(p + [x], i)) == Numeric(Segment(p + [y], i)) == Numeric(Segment(p + [z], i))
    {
      if i < |p| {
        assert (p + [x])[i] == p[i] && (p + [y])[i] == p[i] && (p + [z])[i] == p[i];
      }
    }
  }

  lemma MixedIsCircular(mixed: nat -> bool, n: nat)
    requires mixed(n)
    ensures !TransitiveBut(mixed)
  {
    var v := Zeros(n);
    var a, b, c := Extend(v, "10"), Extend(v, "1a"), Extend(v, "9");
    ZerosSplit(n);
    Circle(v);
    SameKindsButLast(mixed, SplitVer(v), "10", "1a", "9");
    Antisymmetric(c, a);
    assert SameKindsBut(mixed, SplitVer(a), SplitVer(b), SplitVer(c));
  }

  /** The order is transitive exactly when numbers and text never meet: allowing them to at any one position
      already breaks it, behind every prefix. */
  lemma TransitiveIffUnmixed(mixed: nat -> bool)
    ensures TransitiveBut(mixed) <==> forall i: nat :: !mixed(i)
  {
    if n: nat :| mixed(n) {
      MixedIsCircular(mixed, n);
    } else {
      forall a, b, c | SameKindsBut(mixed, SplitVer(a), SplitVer(b), SplitVer(c))
                       && Compare(a, b) <= 0 && Compare(b, c) <= 0
        ensures Compare(a, c) <= 0
      {
        Transitive(a, b, c);
      }
    }
  }
}
