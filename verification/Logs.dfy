/** Run logs: splitting into lines, joining again, and the tail of a log. */
module Logs {
  import opened Options
  import opened Finite

  /** Where the line that begins at start ends. */
  function LineEnd(s: string, start: nat): (i: nat)
    requires start <= |s|
    ensures start <= i <= |s| && (i < |s| ==> s[i] == '\n') && forall j | start <= j < i :: s[j] != '\n'
    decreases |s| - start
  {
    if start == |s| || s[start] == '\n' then start else LineEnd(s, start + 1)
  }

  /** The lines from a position on. */
  function LinesFrom(s: string, start: nat): (ls: seq<string>)
    requires start <= |s|
    ensures ls != []
    decreases |s| - start
  {
    var i := LineEnd(s, start);
    if i == |s| then [s[start..]] else [s[start..i]] + LinesFrom(s, i + 1)
  }

  function Lines(s: string): (ls: seq<string>)
    ensures ls != []
  {
    LinesFrom(s, 0)
  }

  function Joined(ls: seq<string>): string {
    if ls == [] then "" else if |ls| == 1 then ls[0] else ls[0] + "\n" + Joined(ls[1..])
  }

  predicate NoBreaks(l: string) { forall i | 0 <= i < |l| :: l[i] != '\n' }

  lemma EndsAt(s: string, start: nat, i: nat)
    requires start <= i <= |s| && (i < |s| ==> s[i] == '\n') && forall j | start <= j < i :: s[j] != '\n'
    ensures LineEnd(s, start) == i
  {
  }

  /** The line from start ends at i, and another one follows. */
  lemma NextLine(s: string, start: nat, i: nat, ls: seq<string>)
    requires start <= i < |s| && s[i] == '\n' && forall j | start <= j < i :: s[j] != '\n'
    ensures ls + LinesFrom(s, start) == (ls + [s[start..i]]) + LinesFrom(s, i + 1)
  {
    EndsAt(s, start, i);
  }

  lemma LastLine(s: string, start: nat)
    requires start <= |s| && forall j | start <= j < |s| :: s[j] != '\n'
    ensures LinesFrom(s, start) == [s[start..]]
  {
    EndsAt(s, start, |s|);
  }

  method SplitLines(s: string) returns (ls: seq<string>)
    ensures ls == Lines(s)
  {
    ls := [];
    var start := 0;
    for i := 0 to |s|
      invariant start <= i && forall j | start <= j < i :: s[j] != '\n'
      invariant ls + LinesFrom(s, start) == Lines(s)
    {
      if s[i] == '\n' {
        NextLine(s, start, i, ls);
        ls := ls + [s[start..i]];
        start := i + 1;
      }
    }
    LastLine(s, start);
    ls := ls + [s[start..]];
  }

  lemma {:induction false} JoinedSnoc(ls: seq<string>, l: string)
    requires ls != []
    ensures Joined(ls + [l]) == Joined(ls) + "\n" + l
  {
    assert (ls + [l])[1..] == ls[1..] + [l];
    if |ls| > 1 { JoinedSnoc(ls[1..], l); }
  }

  method JoinLines(ls: seq<string>) returns (out: string)
    ensures out == Joined(ls)
  {
    out := "";
    for i := 0 to |ls|
      invariant out == Joined(ls[..i])
    {
      assert ls[..i + 1] == ls[..i] + [ls[i]];
      if i > 0 {
        JoinedSnoc(ls[..i], ls[i]);
        out := out + "\n";
      }
      out := out + ls[i];
    }
    assert ls[..|ls|] == ls;
  }

  lemma JoinedCons(l: string, ls: seq<string>)
    requires ls != []
    ensures Joined([l] + ls) == l + "\n" + Joined(ls)
  {
    assert ([l] + ls)[1..] == ls;
  }

  lemma BreakAt(s: string, start: nat, i: nat)
    requires start <= i < |s| && s[i] == '\n'
    ensures s[start..] == s[start..i] + "\n" + s[i + 1..]
  {
    assert s[start..] == s[start..i] + s[i..];
    assert s[i..] == [s[i]] + s[i + 1..];
  }

  lemma {:induction false} JoinedFrom(s: string, start: nat)
    requires start <= |s|
    ensures Joined(LinesFrom(s, start)) == s[start..]
    decreases |s| - start
  {
    var i := LineEnd(s, start);
    if i < |s| {
      JoinedFrom(s, i + 1);
      JoinedCons(s[start..i], LinesFrom(s, i + 1));
      BreakAt(s, start, i);
    }
  }

  /** Joining what was split gives the text back, whatever it is. */
  lemma JoinedLines(s: string)
    ensures Joined(Lines(s)) == s
  {
    JoinedFrom(s, 0);
  }

  lemma {:induction false} EndShift(a: string, b: string, k: nat)
    requires k <= |b|
    ensures LineEnd(a + b, |a| + k) == |a| + LineEnd(b, k)
  {
    var i := LineEnd(b, k);
    EndsAt(a + b, |a| + k, |a| + i);
  }

  /** Splitting the end of a text is splitting from there on. */
  lemma {:induction false} LinesShift(a: string, b: string, k: nat)
    requires k <= |b|
    ensures LinesFrom(a + b, |a| + k) == LinesFrom(b, k)
    decreases |b| - k
  {
    var s, i := a + b, LineEnd(b, k);
    EndShift(a, b, k);
    if i < |b| {
      LinesShift(a, b, i + 1);
      assert s[|a| + k..|a| + i] == b[k..i];
    } else {
      assert s[|a| + k..] == b[k..];
    }
  }

  lemma FirstLine(l: string, rest: string)
    requires NoBreaks(l)
    ensures Lines(l + "\n" + rest) == [l] + Lines(rest)
  {
    var s := l + "\n" + rest;
    EndsAt(s, 0, |l|);
    assert s[0..|l|] == l;
    LinesShift(l + "\n", rest, 0);
  }

  /** Splitting what was joined gives the lines back, if none of them has a break of its own. */
  lemma {:induction false} LinesJoined(ls: seq<string>)
    requires ls != [] && forall l | l in ls :: NoBreaks(l)
    ensures Lines(Joined(ls)) == ls
  {
    assert NoBreaks(ls[0]);
    if |ls| == 1 {
      LastLine(ls[0], 0);
    } else {
      LinesJoined(ls[1..]);
      FirstLine(ls[0], Joined(ls[1..]));
      assert [ls[0]] + ls[1..] == ls;
    }
  }

  lemma {:induction false} LinesHaveNoBreaks(s: string, start: nat)
    requires start <= |s|
    ensures forall l | l in LinesFrom(s, start) :: NoBreaks(l)
    decreases |s| - start
  {
    var i := LineEnd(s, start);
    if i < |s| { LinesHaveNoBreaks(s, i + 1); }
  }

  // The tail

  const DEFAULT_TAIL := 200

  /** r is the end of a log from position at, which is its beginning or follows a line break. */
  predicate TailFrom(log: string, at: nat, r: string) {
    at <= |log| && r == log[at..] && (at == 0 || log[at - 1] == '\n')
  }

  /** The line after the k-th break begins at a position where splitting goes on. */
  lemma {:induction false} DroppingLines(s: string, start: nat, k: nat) returns (at: nat)
    requires start <= |s| && k < |LinesFrom(s, start)|
    ensures start <= at <= |s| && LinesFrom(s, start)[k..] == LinesFrom(s, at)
    ensures at == start || s[at - 1] == '\n'
    decreases k
  {
    if k == 0 {
      at := start;
    } else {
      at := DroppingLines(s, LineEnd(s, start) + 1, k - 1);
    }
  }

  /** Joining the lines after the first k gives an end of the text that splits into just these lines. */
  lemma TailIs(s: string, k: nat)
    requires k < |Lines(s)|
    ensures var kept := Lines(s)[k..]; (exists at :: TailFrom(s, at, Joined(kept))) && Lines(Joined(kept)) == kept
  {
    var kept := Lines(s)[k..];
    var at := DroppingLines(s, 0, k);
    JoinedFrom(s, at);
    assert TailFrom(s, at, Joined(kept));
    LinesHaveNoBreaks(s, 0);
    LinesJoined(kept);
  }

  /** The tail of a log that can be read: a suffix starting where a line starts, with exactly as many lines as asked
      for, 200 if no number is given, or all of them if there are fewer. */
  method ReadLog(file: Option<string>, tail: int) returns (r: Option<string>)
    ensures r.Some? <==> file.Some?
    ensures r.Some? ==>
              && (exists at :: TailFrom(file.value, at, r.value))
              && |Lines(r.value)| == Min(if tail <= 0 then 200 else tail, |Lines(file.value)|)
              && Lines(r.value) == Lines(file.value)[|Lines(file.value)| - |Lines(r.value)|..]
  {
    var n := if tail <= 0 then DEFAULT_TAIL else tail;
    if file.None? {
      return None;
    }
    var all := SplitLines(file.value);
    var lines := all;
    if |lines| > n {
      lines := lines[|lines| - n..];
    }
    assert lines == all[|all| - |lines|..];
    TailIs(file.value, |all| - |lines|);
    var out := JoinLines(lines);
    return Some(out);
  }
}
