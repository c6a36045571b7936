/** Strings as Go compares them: byte-wise order (which is code point order) and ASCII case folding. */
module Text {
  predicate Less(a: string, b: string) {
    b != [] && (a == [] || a[0] < b[0] || (a[0] == b[0] && Less(a[1..], b[1..])))
  }

  lemma {:induction false} LessIrreflexive(a: string)
    ensures !Less(a, a)
  {
    if a != [] { LessIrreflexive(a[1..]); }
  }

  /** Exactly one of less, equal, greater. */
  lemma {:induction false} LessTotal(a: string, b: string)
    ensures Less(a, b) || Less(b, a) || a == b
    ensures !(Less(a, b) && Less(b, a))
    ensures a == b ==> !Less(a, b)
  {
    if a != [] && b != [] {
      LessTotal(a[1..], b[1..]);
      if a[0] == b[0] && a[1..] == b[1..] { assert a == [a[0]] + a[1..] == b; }
    }
  }

  lemma {:induction false} LessTrans(a: string, b: string, c: string)
    requires Less(a, b) && Less(b, c)
    ensures Less(a, c)
  {
    if a != [] && b != [] && c != [] && a[0] == b[0] == c[0] { LessTrans(a[1..], b[1..], c[1..]); }
  }

  predicate Sorted(names: seq<string>) {
    forall i, j | 0 <= i < j < |names| :: Less(names[i], names[j])
  }

  lemma SomeElement(a: seq<string>)
    ensures a != [] ==> exists s :: s in a
  {
    if a != [] { assert a[0] in a; }
  }

  /** Strictly sorted sequences with the same elements are the same. */
  lemma {:induction false} SortedUnique(a: seq<string>, b: seq<string>)
    requires Sorted(a) && Sorted(b) && forall s :: s in a <==> s in b
    ensures a == b
  {
    if a == [] {
      SomeElement(b);
    } else {
      assert a[0] in b && b != [] && b[0] in a;
      var i :| 0 <= i < |b| && b[i] == a[0];
      var j :| 0 <= j < |a| && a[j] == b[0];
      if i > 0 && j > 0 { LessTotal(a[0], b[0]); }
      assert a[0] == b[0];
      forall s ensures s in a[1..] <==> s in b[1..] {
        HeadSmallest(a, s);
        HeadSmallest(b, s);
      }
      SortedUnique(a[1..], b[1..]);
      assert a == [a[0]] + a[1..] && b == [b[0]] + b[1..];
    }
  }

  lemma HeadSmallest(a: seq<string>, s: string)
    requires a != [] && Sorted(a)
    ensures s in a[1..] <==> s in a && s != a[0]
  {
    if s in a[1..] {
      var i :| 0 <= i < |a[1..]| && a[1..][i] == s;
      assert a[i + 1] == s;
      LessIrreflexive(s);
    }
    if s in a && s != a[0] {
      var i :| 0 <= i < |a| && a[i] == s;
      assert a[1..][i - 1] == s;
    }
  }

  ghost predicate Least(names: set<string>, x: string) {
    x in names && forall y | y in names :: y == x || Less(x, y)
  }

  /** There is always a smallest element to pick next when sorting. */
  lemma {:induction false} SomeLeast(names: set<string>) returns (x: string)
    requires names != {}
    ensures Least(names, x)
  {
    x :| x in names;
    if names != {x} {
      var z := SomeLeast(names - {x});
      LessTotal(x, z);
      forall y | y in names ensures y == (if Less(x, z) then x else z) || Less(if Less(x, z) then x else z, y) {
        if y != x {
          assert y in names - {x};
          if Less(x, z) && y != z { LessTrans(x, z, y); }
        }
      }
      if !Less(x, z) { x := z; }
    }
  }

  /** sort.Strings on the keys of a map, in whatever order they came. */
  method Sort(names: set<string>) returns (sorted: seq<string>)
    ensures Sorted(sorted) && forall s :: s in sorted <==> s in names
  {
    sorted := [];
    var todo := names;
    while todo != {}
      invariant todo <= names && Sorted(sorted)
      invariant forall s :: s in sorted <==> s in names - todo
      invariant forall s, y | s in sorted && y in todo :: Less(s, y)
    {
      ghost var least := SomeLeast(todo);
      var x :| x in todo && forall y | y in todo :: y == x || Less(x, y);
      sorted := sorted + [x];
      todo := todo - {x};
    }
  }

  function Fold(c: char): char {
    if 'A' <= c <= 'Z' then c - 'A' + 'a' else c
  }

  function Lower(s: string): string { seq(|s|, i requires 0 <= i < |s| => Fold(s[i])) }

  predicate EqualFold(a: string, b: string) { Lower(a) == Lower(b) }

  /** The same letters, in either case; anything but A to Z and a to z must be the same character. */
  predicate SameLetters(a: string, b: string) {
    |a| == |b| && forall i | 0 <= i < |a| ::
      a[i] == b[i] || ('A' <= a[i] <= 'Z' && b[i] as int == a[i] as int + 32)
      || ('A' <= b[i] <= 'Z' && a[i] as int == b[i] as int + 32)
  }

  lemma EqualFoldIff(a: string, b: string)
    ensures EqualFold(a, b) <==> SameLetters(a, b)
  {
    assert |Lower(a)| == |a| && |Lower(b)| == |b|;
    if EqualFold(a, b) {
      forall i | 0 <= i < |a| ensures Fold(a[i]) == Fold(b[i]) {
        assert Lower(a)[i] == Lower(b)[i];
      }
    }
    if SameLetters(a, b) {
      forall i | 0 <= i < |a| ensures Lower(a)[i] == Lower(b)[i] {}
    }
  }

  /** The first characters of the name have these letters. */
  lemma PrefixFoldIff(name: string, prefix: string)
    ensures HasPrefix(Lower(name), Lower(prefix)) <==> |prefix| <= |name| && SameLetters(name[..|prefix|], prefix)
  {
    if |prefix| <= |name| {
      EqualFoldIff(name[..|prefix|], prefix);
      assert Lower(name)[..|prefix|] == Lower(name[..|prefix|]);
    }
  }

  predicate HasPrefix(s: string, prefix: string) { prefix <= s }

  predicate HasSuffix(s: string, suffix: string) { |suffix| <= |s| && s[|s| - |suffix|..] == suffix }

  function TrimSuffix(s: string, suffix: string): string {
    if HasSuffix(s, suffix) then s[..|s| - |suffix|] else s
  }

  // Splitting into fields

  /** The maximal runs of characters that are no separators. */
  function Fields(s: string, sep: char -> bool): (fields: seq<string>)
    ensures s != [] && !sep(s[|s| - 1]) ==> fields != []
  {
    if s == [] then []
    else
      var init, last := s[..|s| - 1], s[|s| - 1];
      var fields := Fields(init, sep);
      if sep(last) then fields
      else if init == [] || sep(init[|init| - 1]) then fields + [[last]]
      else fields[..|fields| - 1] + [fields[|fields| - 1] + [last]]
  }

  lemma FieldsSep(s: string, c: char, sep: char -> bool)
    requires sep(c)
    ensures Fields(s + [c], sep) == Fields(s, sep)
  {
    assert (s + [c])[..|s|] == s;
  }

  /** A word after a separator, or at the start, is a field of its own. */
  lemma {:induction false} FieldsWord(s: string, w: string, sep: char -> bool)
    requires w != [] && (forall i | 0 <= i < |w| :: !sep(w[i])) && (s != [] ==> sep(s[|s| - 1]))
    ensures Fields(s + w, sep) == Fields(s, sep) + [w]
  {
    var init := w[..|w| - 1];
    assert (s + w)[..|s + w| - 1] == s + init;
    assert w == init + [w[|w| - 1]];
    if init == [] {
      assert s + init == s;
    } else {
      FieldsWord(s, init, sep);
    }
  }
}
