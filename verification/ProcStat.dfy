/** The start time of a process, read from its stat line. */
module ProcStat {
  import opened Options
  import opened Text
  import opened Numerals

  predicate IsSpace(c: char) {
    c == ' ' || c == '\t' || c == '\n' || c == '\r' || c == 11 as char || c == 12 as char
  }

  /** The position after the last occurrence of c; 0 if there is none. */
  function AfterLast(s: string, c: char): (i: nat)
    ensures i <= |s| && (i > 0 ==> s[i - 1] == c) && forall j | i <= j < |s| :: s[j] != c
  {
    if s == [] then 0
    else if s[|s| - 1] == c then |s| else AfterLast(s[..|s| - 1], c)
  }

  const TWO64 := 0x1_0000_0000_0000_0000

  /** strconv.ParseUint in base 10 for 64 bits. */
  function ParseUint(s: string): Option<nat> {
    if s != [] && AllDigits(s, 10) && Value(s, 10) < TWO64 then Some(Value(s, 10)) else None
  }

  /** None where the code falls back to other means. */
  function StartTime(stat: string): Option<nat> {
    var i := AfterLast(stat, ')');
    if i == 0 || i + 1 >= |stat| then None
    else
      var fields := Fields(stat[i + 1..], IsSpace);
      if |fields| > 19 then ParseUint(fields[19]) else None
  }

  // The format of the line

  /** A field of the line after the process name: proc(5) prints a number or a single letter. */
  predicate IsField(f: string) {
    f != [] && forall i | 0 <= i < |f| :: !IsSpace(f[i]) && f[i] != ')'
  }

  predicate AreFields(fields: seq<string>) { forall i | 0 <= i < |fields| :: IsField(fields[i]) }

  function Spaced(fields: seq<string>): string {
    if fields == [] then ""
    else if |fields| == 1 then fields[0]
    else Spaced(fields[..|fields| - 1]) + " " + fields[|fields| - 1]
  }

  /** The line of a process: its pid, its name in parentheses, and the fields from the third on. */
  function StatLine(pid: string, comm: string, fields: seq<string>): string {
    pid + " (" + comm + ") " + Spaced(fields) + "\n"
  }

  lemma OneField(f: string)
    requires IsField(f)
    ensures Fields(f, IsSpace) == [f]
  {
    FieldsWord([], f, IsSpace);
    assert [] + f == f;
  }

  lemma OneMoreField(s: string, f: string)
    requires IsField(f)
    ensures Fields(s + " " + f, IsSpace) == Fields(s, IsSpace) + [f]
  {
    FieldsSep(s, ' ', IsSpace);
    FieldsWord(s + " ", f, IsSpace);
  }

  lemma SpacedMore(init: seq<string>, last: string)
    requires init != []
    ensures Spaced(init + [last]) == Spaced(init) + " " + last
  {
  }

  lemma {:induction false} SpacedFields(fields: seq<string>, n: nat)
    requires 0 < n <= |fields| && AreFields(fields)
    ensures Fields(Spaced(fields[..n]), IsSpace) == fields[..n]
  {
    var last := fields[n - 1];
    if n == 1 {
      assert fields[..1] == [last];
      OneField(last);
    } else {
      var init := fields[..n - 1];
      assert fields[..n] == init + [last];
      SpacedMore(init, last);
      SpacedFields(fields, n - 1);
      OneMoreField(Spaced(init), last);
    }
  }

  predicate Without(s: string, c: char) { forall i | 0 <= i < |s| :: s[i] != c }

  lemma {:induction false} SpacedWithoutParen(fields: seq<string>)
    requires AreFields(fields)
    ensures Without(Spaced(fields), ')')
  {
    if fields != [] {
      assert IsField(fields[|fields| - 1]);
      SpacedWithoutParen(fields[..|fields| - 1]);
    }
  }

  lemma AfterLastIs(s: string, c: char, i: nat)
    requires 0 < i <= |s| && s[i - 1] == c && forall j | i <= j < |s| :: s[j] != c
    ensures AfterLast(s, c) == i
  {
  }

  /** Blanks, tabs, line breaks and the other ASCII spaces separate fields, and nothing else does. */
  lemma FieldsAtSpaces(s: string, space: char, f: string)
    requires space in {' ', '\t', '\n', '\r', 11 as char, 12 as char}
    requires f != [] && forall c | c in f :: c !in {' ', '\t', '\n', '\r', 11 as char, 12 as char}
    ensures Fields(f, IsSpace) == [f] && Fields(s + [space], IsSpace) == Fields(s, IsSpace)
    ensures Fields(s + [space] + f, IsSpace) == Fields(s, IsSpace) + [f]
  {
    forall i | 0 <= i < |f| ensures !IsSpace(f[i]) { assert f[i] in f; }
    FieldsWord([], f, IsSpace);
    assert [] + f == f;
    FieldsSep(s, space, IsSpace);
    FieldsWord(s + [space], f, IsSpace);
  }

  /** Field 22 is found behind every process name, with any spaces, parentheses or line breaks in it. */
  lemma StartTimeIsField22(pid: string, comm: string, fields: seq<string>)
    requires |fields| >= 20 && AreFields(fields)
    ensures StartTime(StatLine(pid, comm, fields)) == ParseUint(fields[19])
  {
    var line := StatLine(pid, comm, fields);
    var head := pid + " (" + comm + ")";
    var tail := Spaced(fields) + "\n";
    assert line == head + " " + tail;
    SpacedFields(fields, |fields|);
    assert fields[..|fields|] == fields;
    SpacedWithoutParen(fields);
    assert line[|head| - 1] == ')';
    forall j | |head| <= j < |line| ensures line[j] != ')' {
      assert line[j] == (" " + tail)[j - |head|];
    }
    AfterLastIs(line, ')', |head|);
    assert line[|head| + 1..] == tail;
    FieldsSep(Spaced(fields), '\n', IsSpace);
  }

  /** Any 64-bit start time survives being printed and read back. */
  lemma StartTimeRoundTrip(pid: string, comm: string, fields: seq<string>, start: nat)
    requires |fields| >= 20 && AreFields(fields) && fields[19] == Numeral(start, 10)
    ensures StartTime(StatLine(pid, comm, fields)) == if start < 18_446_744_073_709_551_616 then Some(start) else None
  {
    StartTimeIsField22(pid, comm, fields);
    NumeralValue(start, 10);
  }
}
