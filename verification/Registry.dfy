/** The tool registry: which tool a requirement resolves to. */
module Registry {
  import opened Options
  import opened Text
  import opened Versions

  datatype Tool = Tool(id: string, kind: string, version: string, disabled: bool)

  datatype Requirement = Requirement(kind: string, constraint: string, version: string)

  datatype Resolution = Found(tool: Tool) | NoSuchType | NoMatch

  type Tools = map<string, Tool>

  // What a requirement asks for

  predicate Candidate(t: Tool, req: Requirement) {
    !t.disabled && EqualFold(t.kind, req.kind)
  }

  /** The version satisfies the constraint. */
  predicate Satisfies(version: string, req: Requirement) {
    if req.version == "" then true
    else if version == "" then false
    else
      var c := Compare(version, req.version);
      if req.constraint == "" || req.constraint == "=" then c == 0
      else if req.constraint == ">=" then c >= 0
      else if req.constraint == ">" then c > 0
      else if req.constraint == "<=" then c <= 0
      else if req.constraint == "<" then c < 0
      else if req.constraint == "^" then c >= 0 && SameMajor(version, req.version)
      else false
  }

  /** Above the required version beats equal beats below; nothing else tells matches apart. */
  function Class(version: string, req: Requirement): int {
    if req.version == "" then 0 else Compare(version, req.version) + 1
  }

  method ScoreVersion(version: string, req: Requirement) returns (score: int)
    ensures score == if Satisfies(version, req) then Class(version, req) else -1
    ensures Satisfies(version, req) <==> score >= 0
  {
    if req.version == "" {
      return 0;
    }
    if version == "" {
      return -1;
    }
    var cmp := CompareVersions(version, req.version);
    Antisymmetric(version, req.version);
    var ok := false;
    if req.constraint == "" || req.constraint == "=" {
      ok := cmp == 0;
    } else if req.constraint == ">=" {
      ok := cmp >= 0;
    } else if req.constraint == ">" {
      ok := cmp > 0;
    } else if req.constraint == "<=" {
      ok := cmp <= 0;
    } else if req.constraint == "<" {
      ok := cmp < 0;
    } else if req.constraint == "^" {
      ok := cmp >= 0 && SameMajor(version, req.version);
    }
    if !ok {
      return -1;
    }
    return cmp + 1;
  }

  // The same in terms of segments and letters

  /** The version is the required one, or above or below it in the first segment that differs, as the constraint says;
      with ^, its first segment must be the required one, too. */
  ghost predicate Fits(version: string, req: Requirement) {
    var w := req.version;
    var xs, ys := SplitVer(version), SplitVer(w);
    if w == "" then true
    else if version == "" then false
    else if req.constraint == "" || req.constraint == "=" then SameVersion(version, w)
    else if req.constraint == ">=" then !LowerVersion(version, w)
    else if req.constraint == ">" then LowerVersion(w, version)
    else if req.constraint == "<=" then !LowerVersion(w, version)
    else if req.constraint == "<" then LowerVersion(version, w)
    else if req.constraint == "^" then !LowerVersion(version, w) && xs != [] && ys != [] && xs[0] == ys[0]
    else false
  }

  lemma SatisfiesIff(version: string, req: Requirement)
    ensures Satisfies(version, req) <==> Fits(version, req)
  {
    OrderIff(version, req.version);
  }

  /** The tool is enabled, of the required type in any letter case, and its version fits. */
  ghost predicate Usable(t: Tool, req: Requirement) {
    !t.disabled && SameLetters(t.kind, req.kind) && Fits(t.version, req)
  }

  /** What the code prefers: above the required version to equal to below. */
  ghost predicate Preferred(a: string, b: string, req: Requirement) {
    && req.version != ""
    && ((LowerVersion(req.version, a) && !LowerVersion(req.version, b))
        || (SameVersion(a, req.version) && LowerVersion(b, req.version)))
  }

  lemma PreferredIff(a: string, b: string, req: Requirement)
    ensures Preferred(a, b, req) <==> Class(a, req) > Class(b, req)
  {
    OrderIff(a, req.version);
    OrderIff(b, req.version);
    Antisymmetric(a, req.version);
    Antisymmetric(b, req.version);
  }

  /** What a found tool means: it fits, and every other tool that does is less preferred, or no more preferred and
      later by id. */
  lemma BestMeans(tools: Tools, req: Requirement, id: string)
    requires Best(tools, req, id)
    ensures id in tools && Usable(tools[id], req)
    ensures forall k | k in tools && Usable(tools[k], req) ::
              !Preferred(tools[k].version, tools[id].version, req)
              && (k == id || Less(id, k) || Preferred(tools[id].version, tools[k].version, req))
  {
    MatchesIff(tools, id, req);
    forall k | k in tools && Usable(tools[k], req)
      ensures !Preferred(tools[k].version, tools[id].version, req)
              && (k == id || Less(id, k) || Preferred(tools[id].version, tools[k].version, req))
    {
      MatchesIff(tools, k, req);
      PreferredIff(tools[k].version, tools[id].version, req);
      PreferredIff(tools[id].version, tools[k].version, req);
    }
  }

  /** The answer in terms of segments and letters. */
  ghost predicate Explained(tools: Tools, req: Requirement, r: Resolution) {
    match r
    case Found(t) => t.id in tools && tools[t.id] == t && Usable(t, req)
    case NoMatch => forall id | id in tools :: !Usable(tools[id], req)
    case NoSuchType => forall id | id in tools :: tools[id].disabled || !SameLetters(tools[id].kind, req.kind)
  }

  lemma Explain(tools: Tools, req: Requirement, r: Resolution)
    requires r.Found? ==> r.tool.id in tools && tools[r.tool.id] == r.tool && Best(tools, req, r.tool.id)
    requires r.NoMatch? ==> forall id :: !Matches(tools, id, req)
    requires r.NoSuchType? ==> forall id | id in tools :: !Candidate(tools[id], req)
    ensures Explained(tools, req, r)
  {
    match r
    case Found(t) => MatchesIff(tools, t.id, req);
    case NoMatch =>
      forall id | id in tools ensures !Usable(tools[id], req) { MatchesIff(tools, id, req); }
    case NoSuchType =>
      forall id | id in tools ensures tools[id].disabled || !SameLetters(tools[id].kind, req.kind) {
        EqualFoldIff(tools[id].kind, req.kind);
      }
  }

  lemma MatchesIff(tools: Tools, id: string, req: Requirement)
    ensures Matches(tools, id, req) <==> id in tools && Usable(tools[id], req)
  {
    if id in tools {
      EqualFoldIff(tools[id].kind, req.kind);
      SatisfiesIff(tools[id].version, req);
    }
  }

  /** Each tool sits under its own id. */
  ghost predicate Keyed(tools: Tools) { forall id | id in tools :: tools[id].id == id }

  predicate Matches(tools: Tools, id: string, req: Requirement) {
    id in tools && Candidate(tools[id], req) && Satisfies(tools[id].version, req)
  }

  /** No match is in a better class, and in its class it has the smallest id. */
  ghost predicate Best(tools: Tools, req: Requirement, id: string) {
    && Matches(tools, id, req)
    && forall k | Matches(tools, k, req) ::
         Class(tools[k].version, req) < Class(tools[id].version, req)
         || (Class(tools[k].version, req) == Class(tools[id].version, req) && (k == id || Less(id, k)))
  }

  /** Best among the first n of the listed ids. */
  ghost predicate BestOf(tools: Tools, req: Requirement, ids: seq<string>, id: string) {
    && Matches(tools, id, req) && id in ids
    && forall k | k in ids && Matches(tools, k, req) ::
         Class(tools[k].version, req) < Class(tools[id].version, req)
         || (Class(tools[k].version, req) == Class(tools[id].version, req) && (k == id || Less(id, k)))
  }

  class Registry {
    var tools: Tools

    constructor ()
      ensures tools == map[]
    {
      tools := map[];
    }

    method Register(t: Tool)
      requires Keyed(tools)
      modifies this
      ensures Keyed(tools) && tools == old(tools)[t.id := t]
    {
      tools := tools[t.id := t];
    }

    /** All tools sorted by id. */
    method List() returns (ids: seq<string>)
      ensures Sorted(ids) && forall id :: id in ids <==> id in tools
    {
      ids := Sort(tools.Keys);
    }

    /** The ids of the enabled tools of the required type, in order. */
    method Candidates(req: Requirement) returns (ids: seq<string>)
      ensures Sorted(ids) && forall id :: id in ids <==> id in tools && Candidate(tools[id], req)
    {
      ids := [];
      var all := List();
      for i := 0 to |all|
        invariant Sorted(ids)
        invariant forall id :: id in ids <==> id in all[..i] && Candidate(tools[id], req)
      {
        assert all[..i + 1] == all[..i] + [all[i]];
        if Candidate(tools[all[i]], req) {
          Follows(all, i, ids);
          ids := ids + [all[i]];
        }
      }
      assert all[..|all|] == all;
    }

    /** The first of the listed tools with the highest score. */
    method PickBest(ids: seq<string>, req: Requirement) returns (best: Option<Tool>)
      requires Keyed(tools) && Sorted(ids) && forall id | id in ids :: id in tools && Candidate(tools[id], req)
      ensures best.None? ==> forall k | k in ids :: !Matches(tools, k, req)
      ensures best.Some? ==>
                && best.value.id in tools && tools[best.value.id] == best.value
                && BestOf(tools, req, ids, best.value.id)
    {
      var bestScore := -1;
      best := None;
      for i := 0 to |ids|
        invariant best.None? ==> bestScore == -1 && forall k | k in ids[..i] :: !Matches(tools, k, req)
        invariant best.Some? ==>
                    && best.value.id in tools && tools[best.value.id] == best.value
                    && bestScore == Class(best.value.version, req) && BestOf(tools, req, ids[..i], best.value.id)
      {
        var t := tools[ids[i]];
        assert ids[i] in ids;
        assert ids[..i + 1] == ids[..i] + [ids[i]];
        var score := ScoreVersion(t.version, req);
        assert forall k | k in ids[..i] :: Less(k, ids[i]);
        if score >= 0 && score > bestScore {
          bestScore, best := score, Some(t);
        }
      }
      assert ids[..|ids|] == ids;
    }

    /** A match is found exactly when there is one, and it is the best. */
    method Resolve(req: Requirement) returns (r: Resolution)
      requires Keyed(tools)
      ensures r.Found? ==> r.tool.id in tools && tools[r.tool.id] == r.tool && Best(tools, req, r.tool.id)
      ensures r.NoSuchType? <==> forall id | id in tools :: !Candidate(tools[id], req)
      ensures !r.Found? ==> forall id :: !Matches(tools, id, req)
      ensures Explained(tools, req, r)
    {
      var ids := Candidates(req);
      if |ids| == 0 {
        Explain(tools, req, NoSuchType);
        return NoSuchType;
      }
      assert ids[0] in ids;
      var best := PickBest(ids, req);
      r := if best.None? then NoMatch else Found(best.value);
      Explain(tools, req, r);
    }
  }

  lemma Follows(all: seq<string>, i: nat, ids: seq<string>)
    requires Sorted(all) && i < |all| && Sorted(ids) && forall id | id in ids :: id in all[..i]
    ensures Sorted(ids + [all[i]])
  {
    forall k | 0 <= k < |ids| ensures Less(ids[k], all[i]) {
      assert ids[k] in all[..i];
    }
  }

  /** There is only one best match, so the answer does not depend on the order of the map. */
  lemma BestUnique(tools: Tools, req: Requirement, a: string, b: string)
    requires Best(tools, req, a) && Best(tools, req, b)
    ensures a == b
  {
    LessTotal(a, b);
  }

  // Is the best match the highest version?

  /** No match has a higher version. */
  ghost predicate Highest(tools: Tools, req: Requirement, id: string) {
    Matches(tools, id, req) && forall k | Matches(tools, k, req) :: Compare(tools[k].version, tools[id].version) <= 0
  }

  /** Whatever the registry, the best match is a highest one. */
  ghost predicate AlwaysHighest(req: Requirement) {
    forall tools, id | Keyed(tools) && Best(tools, req, id) :: Highest(tools, req, id)
  }

  /** The requirement pins the version down, or nothing satisfies it. */
  predicate Pinned(req: Requirement) {
    && req.version != ""
    && (req.constraint == "" || req.constraint == "=" || req.constraint !in {">=", ">", "<=", "<", "^"}
        || (req.constraint == "^" && SplitVer(req.version) == []))
  }

  lemma PinnedIsHighest(req: Requirement, tools: Tools, id: string)
    requires Pinned(req) && Best(tools, req, id)
    ensures Highest(tools, req, id)
  {
    forall k | Matches(tools, k, req) ensures Compare(tools[k].version, tools[id].version) <= 0 {
      Antisymmetric(tools[id].version, req.version);
      EqualTrans(tools[k].version, req.version, tools[id].version);
    }
  }

  // Two tools on the same side of the bound: the smaller id wins, whatever its version.

  function Pair(kind: string, low: string, high: string): Tools {
    map["a" := Tool("a", kind, low, false), "b" := Tool("b", kind, high, false)]
  }

  lemma LowerWins(req: Requirement, low: string, high: string)
    requires Satisfies(low, req) && Satisfies(high, req) && Class(low, req) == Class(high, req)
    requires Compare(high, low) > 0
    ensures !AlwaysHighest(req)
  {
    var tools := Pair(req.kind, low, high);
    assert Less("a", "b");
    assert Matches(tools, "a", req) && Matches(tools, "b", req);
    assert Best(tools, req, "a");
    assert !Highest(tools, req, "a");
  }

  lemma SmallNumbers()
    ensures CompareSegment("1", "0") == 1 && CompareSegment("2", "0") == 1 && CompareSegment("2", "1") == 1
  {
    assert Value("1") == 1 && Value("2") == 2 && Value("0") == 0;
  }

  /** v.1 and v.2 are both above v, and in its major line if it has one. */
  lemma AboveBound(v: string)
    ensures Compare(Extend(v, "1"), v) == 1 && Compare(Extend(v, "2"), v) == 1
    ensures Compare(Extend(v, "2"), Extend(v, "1")) == 1
    ensures SplitVer(v) != [] ==> SameMajor(Extend(v, "1"), v) && SameMajor(Extend(v, "2"), v)
  {
    ExtendedVersions(v, "1", "2");
    ExtendedVersions(v, "2", "1");
    SmallNumbers();
  }

  lemma AboveTies(req: Requirement)
    requires req.version != "" && (req.constraint == ">=" || req.constraint == ">" || req.constraint == "^")
    requires req.constraint == "^" ==> SplitVer(req.version) != []
    ensures !AlwaysHighest(req)
  {
    var v := req.version;
    AboveBound(v);
    LowerWins(req, Extend(v, "1"), Extend(v, "2"));
  }

  lemma BelowTies(req: Requirement)
    requires req.version != "" && (req.constraint == "<=" || req.constraint == "<")
    ensures !AlwaysHighest(req)
  {
    var v := req.version;
    ExtendedVersions(v, "!", "#");
    ExtendedVersions(v, "#", "!");
    assert !Numeric("!") by { assert "!"[0] == '!'; }
    assert !Numeric("#") by { assert "#"[0] == '#'; }
    LowerWins(req, Extend(v, "!"), Extend(v, "#"));
  }

  lemma AnyTies(req: Requirement)
    requires req.version == ""
    ensures !AlwaysHighest(req)
  {
    OneSegment("1");
    OneSegment("2");
    SingleSegments("2", "1");
    assert Value("1") == 1 && Value("2") == 2;
    LowerWins(req, "1", "2");
  }

  /** Resolve returns a highest matching version in every registry exactly when the requirement pins the
      version (or matches nothing); with a bound on one side, or no version at all, all matches on that
      side tie and the smallest id wins. */
  lemma HighestIffPinned(req: Requirement)
    ensures AlwaysHighest(req) <==> Pinned(req)
  {
    if Pinned(req) {
      forall tools, id | Keyed(tools) && Best(tools, req, id) ensures Highest(tools, req, id) {
        PinnedIsHighest(req, tools, id);
      }
    } else if req.version == "" {
      AnyTies(req);
    } else if req.constraint == "<=" || req.constraint == "<" {
      BelowTies(req);
    } else {
      AboveTies(req);
    }
  }
}
