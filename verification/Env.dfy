/** The environment of a session's processes: built step by step in a map, specified name by name. */
module Env {
  import opened Options
  import opened Text

  datatype Config = Config(inherit: seq<string>, deny: seq<string>, fixed: map<string, string>,
                           isolateHome: bool, isolateTemp: bool, isolateXdg: bool)

  /** The session's directories; `roaming` and `local` are the home directory joined with the two
      AppData paths. */
  datatype Dirs = Dirs(home: string, roaming: string, local: string, temp: string,
                       config: string, cache: string, state: string)

  // Reading the base environment

  /** The position of the first '=', or the length if there is none. */
  function EqualsAt(kv: string): (i: nat)
    ensures i <= |kv| && (i < |kv| ==> kv[i] == '=') && forall j | 0 <= j < i :: kv[j] != '='
  {
    if kv == [] || kv[0] == '=' then 0 else 1 + EqualsAt(kv[1..])
  }

  /** A usable entry has a name before its first '='. */
  predicate IsBinding(kv: string) { 0 < EqualsAt(kv) < |kv| }

  function NameOf(kv: string): string
    requires IsBinding(kv)
  {
    kv[..EqualsAt(kv)]
  }

  function ValueOf(kv: string): string
    requires IsBinding(kv)
  {
    kv[EqualsAt(kv) + 1..]
  }

  /** An inherit entry as the code reads it. */
  predicate AllowsBy(a: string, name: string) {
    if a == "*" then true
    else if !HasSuffix(a, "*") then EqualFold(a, name)
    else
      var prefix := TrimSuffix(a, "*");
      EqualFold(prefix, TrimSuffix(name, "")) && HasPrefix(Lower(name), Lower(prefix))
  }

  /** A deny entry: an exact name or a prefix followed by a star. */
  predicate DeniesBy(d: string, name: string) {
    EqualFold(d, name) || (HasSuffix(d, "*") && HasPrefix(Lower(name), Lower(TrimSuffix(d, "*"))))
  }

  predicate Allowed(allow: seq<string>, name: string) {
    exists i :: 0 <= i < |allow| && AllowsBy(allow[i], name)
  }

  predicate Denied(deny: seq<string>, name: string) {
    exists i :: 0 <= i < |deny| && DeniesBy(deny[i], name)
  }

  method MatchesAllow(allow: seq<string>, name: string) returns (ok: bool)
    ensures ok == Allowed(allow, name)
  {
    for i := 0 to |allow|
      invariant forall j | 0 <= j < i :: !AllowsBy(allow[j], name)
    {
      if allow[i] == "*" {
        return true;
      }
      if !HasSuffix(allow[i], "*") {
        if EqualFold(allow[i], name) {
          return true;
        }
        continue;
      }
      var prefix := TrimSuffix(allow[i], "*");
      if EqualFold(prefix, TrimSuffix(name, "")) && HasPrefix(Lower(name), Lower(prefix)) {
        return true;
      }
    }
    return false;
  }

  method IsDenied(deny: seq<string>, name: string) returns (ok: bool)
    ensures ok == Denied(deny, name)
  {
    for i := 0 to |deny|
      invariant forall j | 0 <= j < i :: !DeniesBy(deny[j], name)
    {
      if EqualFold(deny[i], name)
         || (HasSuffix(deny[i], "*") && HasPrefix(Lower(name), Lower(TrimSuffix(deny[i], "*")))) {
        return true;
      }
    }
    return false;
  }

  /** The first binding of a name. */
  function FirstBinding(base: seq<string>, name: string): Option<string> {
    if base == [] then None
    else if HasPrefix(base[0], name + "=") then Some(base[0][|name| + 1..])
    else FirstBinding(base[1..], name)
  }

  method Lookup(base: seq<string>, name: string) returns (v: Option<string>)
    ensures v == FirstBinding(base, name)
  {
    for i := 0 to |base|
      invariant FirstBinding(base, name) == FirstBinding(base[i..], name)
    {
      if HasPrefix(base[i], name + "=") {
        return Some(base[i][|name| + 1..]);
      }
    }
    return None;
  }

  // The specification: one name at a time

  predicate Inherits(cfg: Config, kv: string, name: string) {
    IsBinding(kv) && NameOf(kv) == name && !Denied(cfg.deny, name) && Allowed(cfg.inherit, name)
  }

  /** The last binding that may be inherited. */
  function Inherited(cfg: Config, base: seq<string>, name: string): Option<string> {
    if base == [] then None
    else
      var last := base[|base| - 1];
      if Inherits(cfg, last, name) then Some(ValueOf(last)) else Inherited(cfg, base[..|base| - 1], name)
  }

  function Or<T>(a: Option<T>, b: Option<T>): Option<T> { if a.Some? then a else b }

  // The isolated roots, with the daemon's own values kept under *_ORIG

  function HomeDirs(d: Dirs, name: string): Option<string> {
    if name == "HOME" || name == "USERPROFILE" then Some(d.home)
    else if name == "APPDATA" then Some(d.roaming)
    else if name == "LOCALAPPDATA" then Some(d.local)
    else None
  }

  function HomeOrigs(base: seq<string>, unix: bool, name: string): Option<string> {
    if name == "HOME_ORIG" then (if unix then FirstBinding(base, "HOME") else None)
    else if name == "USERPROFILE_ORIG" then FirstBinding(base, "USERPROFILE")
    else if name == "APPDATA_ORIG" then FirstBinding(base, "APPDATA")
    else if name == "LOCALAPPDATA_ORIG" then FirstBinding(base, "LOCALAPPDATA")
    else None
  }

  function HomeRoots(base: seq<string>, d: Dirs, unix: bool, name: string): Option<string> {
    Or(HomeDirs(d, name), HomeOrigs(base, unix, name))
  }

  function TempRoots(base: seq<string>, d: Dirs, name: string): Option<string> {
    if name == "TMP" || name == "TEMP" || name == "TMPDIR" then Some(d.temp)
    else if name == "TMP_ORIG" then FirstBinding(base, "TMP")
    else if name == "TEMP_ORIG" then FirstBinding(base, "TEMP")
    else if name == "TMPDIR_ORIG" then FirstBinding(base, "TMPDIR")
    else None
  }

  function XdgRoots(base: seq<string>, d: Dirs, name: string): Option<string> {
    if name == "XDG_CONFIG_HOME" then Some(d.config)
    else if name == "XDG_CACHE_HOME" then Some(d.cache)
    else if name == "XDG_STATE_HOME" then Some(d.state)
    else if name == "XDG_CONFIG_HOME_ORIG" then FirstBinding(base, "XDG_CONFIG_HOME")
    else None
  }

  function If<T>(on: bool, v: Option<T>): Option<T> { if on then v else None }

  function Isolated(cfg: Config, base: seq<string>, dirs: Option<Dirs>, unix: bool, name: string): Option<string> {
    if dirs.None? then None
    else Or(If(cfg.isolateXdg, XdgRoots(base, dirs.value, name)),
            Or(If(cfg.isolateTemp, TempRoots(base, dirs.value, name)),
               If(cfg.isolateHome, HomeRoots(base, dirs.value, unix, name))))
  }

  function Get(m: map<string, string>, name: string): Option<string> {
    if name in m then Some(m[name]) else None
  }

  /** What a process sees under a name: nothing if it is denied, else the fixed value, else the isolated
      one, else the last binding that may be inherited. */
  function Effective(cfg: Config, base: seq<string>, dirs: Option<Dirs>, unix: bool, name: string): Option<string> {
    if Denied(cfg.deny, name) then None
    else Or(Get(cfg.fixed, name), Or(Isolated(cfg, base, dirs, unix, name), Inherited(cfg, base, name)))
  }

  /** env lists exactly the effective bindings, strictly sorted by name. */
  ghost predicate Lists(env: seq<string>, names: seq<string>, cfg: Config, base: seq<string>, dirs: Option<Dirs>,
                        unix: bool) {
    && Sorted(names)
    && (forall n :: n in names <==> Effective(cfg, base, dirs, unix, n).Some?)
    && |env| == |names|
    && forall i | 0 <= i < |env| ::
         var e := Effective(cfg, base, dirs, unix, names[i]);
         e.Some? && env[i] == names[i] + "=" + e.value
  }

  // Building it

  /** Step 1: what may be inherited; a later binding replaces an earlier one. */
  method Inherit(cfg: Config, base: seq<string>) returns (out: map<string, string>)
    ensures forall n :: Get(out, n) == Inherited(cfg, base, n)
  {
    out := map[];
    for k := 0 to |base|
      invariant forall n :: Get(out, n) == Inherited(cfg, base[..k], n)
    {
      assert base[..k + 1][..k] == base[..k];
      var i := EqualsAt(base[k]);
      if i == 0 || i == |base[k]| {
        continue;
      }
      var name, val := base[k][..i], base[k][i + 1..];
      var denied := IsDenied(cfg.deny, name);
      if denied {
        continue;
      }
      var allowed := MatchesAllow(cfg.inherit, name);
      if allowed {
        out := out[name := val];
      }
    }
    assert base[..|base|] == base;
  }

  method KeepOrig(base: seq<string>, name: string, out: map<string, string>) returns (out': map<string, string>)
    ensures forall n :: Get(out', n) ==
              if n == name + "_ORIG" then Or(FirstBinding(base, name), Get(out, n)) else Get(out, n)
  {
    out' := out;
    var v := Lookup(base, name);
    if v.Some? {
      out' := out'[name + "_ORIG" := v.value];
    }
  }

  method KeepHomeOrigs(base: seq<string>, unix: bool, out: map<string, string>) returns (out': map<string, string>)
    ensures forall n :: Get(out', n) == Or(HomeOrigs(base, unix, n), Get(out, n))
  {
    out' := out;
    if unix {
      out' := KeepOrig(base, "HOME", out');
    }
    out' := KeepOrig(base, "USERPROFILE", out');
    out' := KeepOrig(base, "APPDATA", out');
    out' := KeepOrig(base, "LOCALAPPDATA", out');
  }

  method IsolateHome(base: seq<string>, d: Dirs, unix: bool, out: map<string, string>)
    returns (out': map<string, string>)
    ensures forall n :: Get(out', n) == Or(HomeRoots(base, d, unix, n), Get(out, n))
  {
    out' := KeepHomeOrigs(base, unix, out);
    out' := out'["HOME" := d.home]["USERPROFILE" := d.home]["APPDATA" := d.roaming]["LOCALAPPDATA" := d.local];
  }

  method IsolateTemp(base: seq<string>, d: Dirs, out: map<string, string>) returns (out': map<string, string>)
    ensures forall n :: Get(out', n) == Or(TempRoots(base, d, n), Get(out, n))
  {
    out' := KeepOrig(base, "TMP", out);
    out' := KeepOrig(base, "TEMP", out');
    out' := KeepOrig(base, "TMPDIR", out');
    out' := out'["TMP" := d.temp]["TEMP" := d.temp]["TMPDIR" := d.temp];
  }

  method IsolateXdg(base: seq<string>, d: Dirs, out: map<string, string>) returns (out': map<string, string>)
    ensures forall n :: Get(out', n) == Or(XdgRoots(base, d, n), Get(out, n))
  {
    out' := KeepOrig(base, "XDG_CONFIG_HOME", out);
    out' := out'["XDG_CONFIG_HOME" := d.config]["XDG_CACHE_HOME" := d.cache]["XDG_STATE_HOME" := d.state];
  }

  /** Step 2. */
  method Isolate(cfg: Config, base: seq<string>, dirs: Option<Dirs>, unix: bool, out: map<string, string>)
    returns (out': map<string, string>)
    ensures forall n :: Get(out', n) == Or(Isolated(cfg, base, dirs, unix, n), Get(out, n))
  {
    out' := out;
    if dirs.Some? {
      if cfg.isolateHome {
        out' := IsolateHome(base, dirs.value, unix, out');
      }
      if cfg.isolateTemp {
        out' := IsolateTemp(base, dirs.value, out');
      }
      if cfg.isolateXdg {
        out' := IsolateXdg(base, dirs.value, out');
      }
    }
  }

  /** Step 3: fixed entries, in any order, unless they are denied. */
  method SetFixed(cfg: Config, out: map<string, string>) returns (out': map<string, string>)
    ensures forall n :: Get(out', n) == Or(If(!Denied(cfg.deny, n), Get(cfg.fixed, n)), Get(out, n))
  {
    out' := out;
    var todo := cfg.fixed.Keys;
    while todo != {}
      invariant todo <= cfg.fixed.Keys
      invariant forall n :: Get(out', n) == Or(If(n !in todo && !Denied(cfg.deny, n), Get(cfg.fixed, n)), Get(out, n))
    {
      var k :| k in todo;
      var denied := IsDenied(cfg.deny, k);
      if !denied {
        out' := out'[k := cfg.fixed[k]];
      }
      todo := todo - {k};
    }
  }

  /** Step 4: nothing denied stays, wherever it came from. */
  method DropDenied(cfg: Config, out: map<string, string>) returns (out': map<string, string>)
    ensures forall n :: Get(out', n) == If(!Denied(cfg.deny, n), Get(out, n))
  {
    out' := out;
    var todo := out.Keys;
    while todo != {}
      invariant todo <= out.Keys
      invariant forall n :: Get(out', n) == If(n in todo || !Denied(cfg.deny, n), Get(out, n))
    {
      var k :| k in todo;
      var denied := IsDenied(cfg.deny, k);
      if denied {
        out' := out' - {k};
      }
      todo := todo - {k};
    }
  }

  method Build(cfg: Config, base: seq<string>, dirs: Option<Dirs>, unix: bool)
    returns (env: seq<string>)
    ensures exists names :: Lists(env, names, cfg, base, dirs, unix)
  {
    var out := Inherit(cfg, base);
    out := Isolate(cfg, base, dirs, unix, out);
    out := SetFixed(cfg, out);
    out := DropDenied(cfg, out);
    assert forall n :: Get(out, n) == Effective(cfg, base, dirs, unix, n);
    var sorted := Sort(out.Keys);
    env := [];
    for i := 0 to |sorted|
      invariant |env| == i
      invariant forall j | 0 <= j < i :: sorted[j] in out && env[j] == sorted[j] + "=" + out[sorted[j]]
    {
      assert sorted[i] in sorted;
      env := env + [sorted[i] + "=" + out[sorted[i]]];
    }
    forall n ensures n in sorted <==> Effective(cfg, base, dirs, unix, n).Some? {
      assert Get(out, n) == Effective(cfg, base, dirs, unix, n);
    }
    assert Lists(env, sorted, cfg, base, dirs, unix);
  }

  // The specification in terms of characters

  /** The entry ends in a star. */
  predicate Starred(entry: string) { entry != "" && entry[|entry| - 1] == '*' }

  predicate AllowedBy(a: string, name: string) {
    a == "*" || SameLetters(if Starred(a) then a[..|a| - 1] else a, name)
  }

  predicate DeniedBy(d: string, name: string) {
    SameLetters(d, name)
    || (Starred(d) && |d| - 1 <= |name| && SameLetters(name[..|d| - 1], d[..|d| - 1]))
  }

  /** Letter case never matters. A name is inherited by an entry with its letters, with or without a star behind them,
      and by the star alone; it is denied by an entry with its letters, or with the first of them and then a star. */
  lemma FiltersIff(allow: seq<string>, deny: seq<string>, name: string)
    ensures Allowed(allow, name) <==> exists i :: 0 <= i < |allow| && AllowedBy(allow[i], name)
    ensures Denied(deny, name) <==> exists i :: 0 <= i < |deny| && DeniedBy(deny[i], name)
  {
    forall i | 0 <= i < |allow| ensures AllowsBy(allow[i], name) <==> AllowedBy(allow[i], name) {
      AllowsIff(allow[i], name);
    }
    forall i | 0 <= i < |deny| ensures DeniesBy(deny[i], name) <==> DeniedBy(deny[i], name) {
      DeniesIff(deny[i], name);
    }
  }

  lemma StarredIff(entry: string)
    ensures HasSuffix(entry, "*") <==> Starred(entry)
    ensures Starred(entry) ==> TrimSuffix(entry, "*") == entry[..|entry| - 1]
  {
  }

  lemma AllowsIff(a: string, name: string)
    ensures AllowsBy(a, name) <==> AllowedBy(a, name)
  {
    StarredIff(a);
    EqualFoldIff(a, name);
    if Starred(a) && a != "*" {
      GlobMatchesBarePrefix(a, name);
      EqualFoldIff(a[..|a| - 1], name);
    }
  }

  lemma DeniesIff(d: string, name: string)
    ensures DeniesBy(d, name) <==> DeniedBy(d, name)
  {
    StarredIff(d);
    EqualFoldIff(d, name);
    if Starred(d) { PrefixFoldIff(name, d[..|d| - 1]); }
  }

  /** base[i] binds the name to the value. */
  predicate Binds(base: seq<string>, i: nat, name: string, v: string) {
    i < |base| && base[i] == name + "=" + v
  }

  lemma BindsIff(kv: string, name: string)
    ensures HasPrefix(kv, name + "=") <==> |kv| > |name| && kv == name + "=" + kv[|name| + 1..]
  {
    if HasPrefix(kv, name + "=") { assert kv == kv[..|name| + 1] + kv[|name| + 1..]; }
  }

  /** The daemon's own value of a name is that of its first binding. */
  lemma {:induction false} FirstBindingIs(base: seq<string>, name: string) returns (i: nat)
    ensures FirstBinding(base, name).None? ==> forall j, v :: !Binds(base, j, name, v)
    ensures FirstBinding(base, name).Some? ==> Binds(base, i, name, FirstBinding(base, name).value)
    ensures FirstBinding(base, name).Some? ==> forall j, v | 0 <= j < i :: !Binds(base, j, name, v)
  {
    i := 0;
    if base != [] {
      BindsIff(base[0], name);
      if !HasPrefix(base[0], name + "=") {
        var k := FirstBindingIs(base[1..], name);
        i := k + 1;
        forall j: nat, v ensures Binds(base, j, name, v) <==> j > 0 && Binds(base[1..], j - 1, name, v) {
          assert j == 0 ==> base[0] != name + "=" + v;
        }
      }
    }
  }

  /** A session with its own directories gets them under these names, whatever the daemon has there, and the daemon's
      value beside them; the other names are as if there were no directories. */
  lemma IsolatedIs(cfg: Config, base: seq<string>, d: Dirs, unix: bool, name: string)
    ensures var v := Isolated(cfg, base, Some(d), unix, name);
            && (cfg.isolateHome && name == "HOME" ==> v == Some(d.home))
            && (cfg.isolateHome && name == "USERPROFILE" ==> v == Some(d.home))
            && (cfg.isolateHome && name == "APPDATA" ==> v == Some(d.roaming))
            && (cfg.isolateHome && name == "LOCALAPPDATA" ==> v == Some(d.local))
            && (cfg.isolateTemp && name in {"TMP", "TEMP", "TMPDIR"} ==> v == Some(d.temp))
            && (cfg.isolateXdg && name == "XDG_CONFIG_HOME" ==> v == Some(d.config))
            && (cfg.isolateXdg && name == "XDG_CACHE_HOME" ==> v == Some(d.cache))
            && (cfg.isolateXdg && name == "XDG_STATE_HOME" ==> v == Some(d.state))
  {
  }

  lemma KeptHome(cfg: Config, base: seq<string>, d: Dirs, unix: bool)
    ensures Isolated(cfg, base, Some(d), unix, "HOME_ORIG") ==
            if cfg.isolateHome && unix then FirstBinding(base, "HOME") else None
    ensures Isolated(cfg, base, Some(d), unix, "USERPROFILE_ORIG") ==
            if cfg.isolateHome then FirstBinding(base, "USERPROFILE") else None
  {
  }

  lemma KeptAppData(cfg: Config, base: seq<string>, d: Dirs, unix: bool)
    ensures Isolated(cfg, base, Some(d), unix, "APPDATA_ORIG") ==
            if cfg.isolateHome then FirstBinding(base, "APPDATA") else None
    ensures Isolated(cfg, base, Some(d), unix, "LOCALAPPDATA_ORIG") ==
            if cfg.isolateHome then FirstBinding(base, "LOCALAPPDATA") else None
    ensures Isolated(cfg, base, Some(d), unix, "XDG_CONFIG_HOME_ORIG") ==
            if cfg.isolateXdg then FirstBinding(base, "XDG_CONFIG_HOME") else None
  {
  }

  lemma KeptTemp(cfg: Config, base: seq<string>, d: Dirs, unix: bool)
    ensures Isolated(cfg, base, Some(d), unix, "TMP_ORIG") ==
            if cfg.isolateTemp then FirstBinding(base, "TMP") else None
    ensures Isolated(cfg, base, Some(d), unix, "TEMP_ORIG") ==
            if cfg.isolateTemp then FirstBinding(base, "TEMP") else None
    ensures Isolated(cfg, base, Some(d), unix, "TMPDIR_ORIG") ==
            if cfg.isolateTemp then FirstBinding(base, "TMPDIR") else None
  {
  }

  /** No other name is touched, and none at all without directories. */
  lemma NothingElseIsolated(cfg: Config, base: seq<string>, dirs: Option<Dirs>, unix: bool, name: string)
    ensures dirs.None? ==> Isolated(cfg, base, dirs, unix, name).None?
    ensures Isolated(cfg, base, dirs, unix, name).Some? ==>
              name in {"HOME", "USERPROFILE", "APPDATA", "LOCALAPPDATA", "TMP", "TEMP", "TMPDIR", "XDG_CONFIG_HOME",
                       "XDG_CACHE_HOME", "XDG_STATE_HOME"}
              || name in {"HOME_ORIG", "USERPROFILE_ORIG", "APPDATA_ORIG", "LOCALAPPDATA_ORIG", "TMP_ORIG", "TEMP_ORIG",
                          "TMPDIR_ORIG", "XDG_CONFIG_HOME_ORIG"}
  {
  }

  /** A denied name is not there at all; else a fixed value comes before the session's own directory, and that before
      anything inherited. */
  lemma Precedence(cfg: Config, base: seq<string>, d: Dirs, unix: bool, name: string)
    ensures var e := Effective(cfg, base, Some(d), unix, name);
            && ((exists i :: 0 <= i < |cfg.deny| && DeniedBy(cfg.deny[i], name)) <==> Denied(cfg.deny, name))
            && (Denied(cfg.deny, name) ==> e.None?)
            && (!Denied(cfg.deny, name) && name in cfg.fixed ==> e == Some(cfg.fixed[name]))
            && (!Denied(cfg.deny, name) && name !in cfg.fixed ==>
                  && (cfg.isolateHome && name == "HOME" ==> e == Some(d.home))
                  && (cfg.isolateTemp && name == "TMPDIR" ==> e == Some(d.temp)))
  {
    FiltersIff(cfg.inherit, cfg.deny, name);
    IsolatedIs(cfg, base, d, unix, name);
  }

  /** A usable binding: a name, then the first equals sign. */
  lemma BindingIs(kv: string, name: string, v: string)
    requires kv == name + "=" + v && name != "" && forall i | 0 <= i < |name| :: name[i] != '='
    ensures IsBinding(kv) && NameOf(kv) == name && ValueOf(kv) == v
  {
    assert kv[|name|] == '=';
    forall j | 0 <= j < |name| ensures kv[j] != '=' { assert kv[j] == name[j]; }
    assert EqualsAt(kv) == |name|;
  }

  predicate PlainName(name: string) { name != "" && forall i | 0 <= i < |name| :: name[i] != '=' }

  lemma PlainBinding(kv: string, name: string)
    requires PlainName(name)
    ensures IsBinding(kv) && NameOf(kv) == name <==> HasPrefix(kv, name + "=")
    ensures HasPrefix(kv, name + "=") ==> ValueOf(kv) == kv[|name| + 1..]
  {
    BindsIff(kv, name);
    if HasPrefix(kv, name + "=") { BindingIs(kv, name, kv[|name| + 1..]); }
    if IsBinding(kv) && NameOf(kv) == name { assert kv[..|name| + 1] == name + "="; }
  }

  /** What is inherited under a name is the daemon's last binding, if the name is allowed and not denied. */
  lemma {:induction false} InheritedIs(cfg: Config, base: seq<string>, name: string) returns (i: nat)
    requires PlainName(name)
    ensures Inherited(cfg, base, name).Some? <==>
              !Denied(cfg.deny, name) && Allowed(cfg.inherit, name) && exists j, v :: Binds(base, j, name, v)
    ensures Inherited(cfg, base, name).Some? ==> Binds(base, i, name, Inherited(cfg, base, name).value)
    ensures Inherited(cfg, base, name).Some? ==> forall j, v | j > i :: !Binds(base, j, name, v)
  {
    i := 0;
    if base != [] {
      var n := |base| - 1;
      PlainBinding(base[n], name);
      BindsIff(base[n], name);
      if Inherits(cfg, base[n], name) {
        i := n;
        assert Binds(base, n, name, ValueOf(base[n]));
      } else {
        i := InheritedIs(cfg, base[..n], name);
        forall j: nat, v | j < n ensures Binds(base, j, name, v) <==> Binds(base[..n], j, name, v) {}
        if HasPrefix(base[n], name + "=") {
          assert Binds(base, n, name, base[n][|name| + 1..]);
        } else {
          forall v ensures !Binds(base, n, name, v) {}
        }
      }
    }
  }

  // What the specification promises

  /** The environment is a function of its inputs: no map order shows. */
  lemma BuildIsDeterministic(a: seq<string>, ns: seq<string>, b: seq<string>, ms: seq<string>,
                             cfg: Config, base: seq<string>, dirs: Option<Dirs>, unix: bool)
    requires Lists(a, ns, cfg, base, dirs, unix) && Lists(b, ms, cfg, base, dirs, unix)
    ensures a == b
  {
    SortedUnique(ns, ms);
  }

  /** What the documentation says of an inherit entry: a trailing star matches any continuation. */
  predicate DocumentedAllows(a: string, name: string) {
    if HasSuffix(a, "*") then HasPrefix(Lower(name), Lower(TrimSuffix(a, "*"))) else EqualFold(a, name)
  }

  /** A glob matches its bare prefix and nothing else. */
  lemma GlobMatchesBarePrefix(a: string, name: string)
    requires HasSuffix(a, "*") && a != "*"
    ensures AllowsBy(a, name) <==> EqualFold(TrimSuffix(a, "*"), name)
  {
    assert TrimSuffix(name, "") == name;
  }

  lemma StarAgrees(name: string)
    ensures AllowsBy("*", name) && DocumentedAllows("*", name)
  {
    assert TrimSuffix("*", "*") == "" && Lower("") == "";
  }

  lemma GlobMissesContinuations(a: string)
    requires HasSuffix(a, "*") && a != "*"
    ensures var name := TrimSuffix(a, "*") + "X"; DocumentedAllows(a, name) && !AllowsBy(a, name)
  {
    var prefix := TrimSuffix(a, "*");
    var name := prefix + "X";
    GlobMatchesBarePrefix(a, name);
    assert |Lower(name)| == |Lower(prefix)| + 1;
    assert Lower(name)[..|prefix|] == Lower(prefix);
  }

  ghost predicate AsDocumented(a: string) {
    forall name :: AllowsBy(a, name) <==> DocumentedAllows(a, name)
  }

  /** So an inherit entry means what it is documented to mean exactly when it is no glob, or the star
      alone. */
  lemma InheritAsDocumentedIff(a: string)
    ensures AsDocumented(a) <==> a == "*" || !HasSuffix(a, "*")
  {
    if a == "*" {
      forall name ensures AllowsBy(a, name) <==> DocumentedAllows(a, name) { StarAgrees(name); }
    } else if HasSuffix(a, "*") {
      GlobMissesContinuations(a);
    }
  }
}
