/** The port table: rows of handed-out ports, and the listeners kept open so that nobody else can
    bind them. Which port the OS picks is an input. */
module Ports {
  import opened Options
  import opened Documents
  import Store

  type Table = map<int, Allocation>
  type Listener = nat

  /** One answer of the OS to a bind on port 0. */
  datatype Pick = Bound(port: int) | BindError

  datatype AcquireResult = Allocated(a: Allocation) | BadProtocol | NoBind | Exhausted

  const ATTEMPTS := 64

  /** Which rows a release removes. */
  datatype Rows = OfSession(session: string) | NotIn(live: set<string>)

  predicate Hits(c: Rows, a: Allocation) {
    match c
    case OfSession(session) => a.session == session
    case NotIn(live) => a.session !in live
  }

  function HitPorts(taken: Table, c: Rows): set<int> {
    set p | p in taken && Hits(c, taken[p])
  }

  /** The table and the listeners when the rows of `removed` are gone. */
  function Without<V>(m: map<int, V>, removed: set<int>): map<int, V> {
    map p | p in m && p !in removed :: m[p]
  }

  lemma WithoutNone<V>(m: map<int, V>)
    ensures Without(m, {}) == m
  {
  }

  lemma WithoutOneMore<V>(m: map<int, V>, removed: set<int>, port: int)
    ensures Without(m, removed) - {port} == Without(m, removed + {port})
  {
  }

  function Remaining(taken: Table, c: Rows): Table {
    Without(taken, HitPorts(taken, c))
  }

  /** The first attempt that does not land on a port already in the table. */
  function FirstUsable(picks: seq<Pick>, taken: Table, i: nat): (n: nat)
    requires i <= ATTEMPTS <= |picks|
    ensures i <= n <= ATTEMPTS
    ensures forall k | i <= k < n :: picks[k].Bound? && picks[k].port in taken
    ensures n < ATTEMPTS ==> !(picks[n].Bound? && picks[n].port in taken)
    decreases ATTEMPTS - i
  {
    if i == ATTEMPTS || !(picks[i].Bound? && picks[i].port in taken) then i
    else FirstUsable(picks, taken, i + 1)
  }

  lemma SomePort(ports: set<int>)
    ensures ports == {} || exists p :: p in ports
  {
    if !exists p :: p in ports {
      assert forall p: int :: p !in ports;
      assert ports == {};
    }
  }

  lemma NothingHit(taken: Table, c: Rows)
    ensures HitPorts(taken, c) == {} ==> Remaining(taken, c) == taken
    ensures taken.Keys - Remaining(taken, c).Keys == HitPorts(taken, c)
  {
  }

  /** The outcome of an acquire, given the ports the OS offers. */
  function Answer(session: string, protocol: string, name: string, picks: seq<Pick>, taken: Table): AcquireResult
    requires |picks| >= ATTEMPTS
  {
    var proto := if protocol == "" then "tcp" else protocol;
    var n := FirstUsable(picks, taken, 0);
    if proto != "tcp" && proto != "udp" then BadProtocol
    else if n == ATTEMPTS then Exhausted
    else if picks[n].BindError? then NoBind
    else Allocated(Allocation(picks[n].port, session, proto, name))
  }

  /** The first k attempts all met ports of the table. */
  predicate AllTaken(picks: seq<Pick>, taken: Table, k: nat)
    requires k <= |picks|
  {
    forall i | 0 <= i < k :: picks[i].Bound? && picks[i].port in taken
  }

  /** Only tcp, which is also meant by no protocol, and udp are known. Of 64 attempts the first that does not meet a
      port of the table decides: it gives the port, under the session's name, or it fails to bind. */
  lemma AnswerIff(session: string, protocol: string, name: string, picks: seq<Pick>, taken: Table)
    requires |picks| >= 64
    ensures Answer(session, protocol, name, picks, taken).BadProtocol? <==> protocol !in {"", "tcp", "udp"}
    ensures Answer(session, protocol, name, picks, taken).Exhausted? <==>
              protocol in {"", "tcp", "udp"} && AllTaken(picks, taken, 64)
    ensures Answer(session, protocol, name, picks, taken).NoBind? <==>
              protocol in {"", "tcp", "udp"}
              && exists k | 0 <= k < 64 :: AllTaken(picks, taken, k) && picks[k].BindError?
    ensures forall k | 0 <= k < 64 && AllTaken(picks, taken, k) && picks[k].Bound? && picks[k].port !in taken ::
              protocol in {"", "tcp", "udp"} ==>
                Answer(session, protocol, name, picks, taken)
                == Allocated(Allocation(picks[k].port, session, if protocol == "" then "tcp" else protocol, name))
  {
    var n := FirstUsable(picks, taken, 0);
    assert AllTaken(picks, taken, n);
    if n < 64 { assert !AllTaken(picks, taken, 64) by { assert 0 <= n < 64; } }
    forall k | 0 <= k < 64 && AllTaken(picks, taken, k) && !(picks[k].Bound? && picks[k].port in taken)
      ensures k == n
    {
    }
  }

  /** The open listeners are exactly the held ones, one each. */
  ghost predicate NoLeak(held: map<int, Listener>, open: set<Listener>) {
    && (forall p, q | p in held && q in held && held[p] == held[q] :: p == q)
    && (forall p | p in held :: held[p] in open)
    && (forall h | h in open :: exists p :: p in held && held[p] == h)
  }

  lemma CloseOne(held: map<int, Listener>, open: set<Listener>, port: int)
    requires NoLeak(held, open) && port in held
    ensures NoLeak(held - {port}, open - {held[port]})
  {
    var held' := held - {port};
    forall h | h in open - {held[port]} ensures exists p :: p in held' && held'[p] == h {
      var p :| p in held && held[p] == h;
      assert p in held' && held'[p] == h;
    }
  }

  lemma OpenOne(held: map<int, Listener>, open: set<Listener>, port: int, h: Listener)
    requires NoLeak(held, open) && port !in held && h !in open
    ensures NoLeak(held[port := h], open + {h})
  {
    var held' := held[port := h];
    forall k | k in open + {h} ensures exists p :: p in held' && held'[p] == k {
      if k != h {
        var p :| p in held && held[p] == k;
        assert p in held' && held'[p] == k;
      } else {
        assert port in held' && held'[port] == k;
      }
    }
  }

  class Manager {
    const store: Store.Store<Key, Doc>
    var taken: Table
    var held: map<int, Listener>
    /** The listeners this process has open, and how many it has ever opened. */
    ghost var open: set<Listener>
    var listeners: nat

    constructor (store: Store.Store<Key, Doc>)
      ensures this.store == store && taken == map[] && held == map[] && Valid() && Complete()
    {
      this.store := store;
      taken, held, open, listeners := map[], map[], {}, 0;
    }

    /** A held listener guards a row of the table, no two rows share one, and the open listeners are
        exactly the held ones: none leaks. */
    ghost predicate Valid()
      reads this
    {
      && held.Keys <= taken.Keys
      && (forall p | p in held :: held[p] < listeners)
      && (forall h | h in open :: h < listeners)
      && NoLeak(held, open)
    }

    /** Every row has its listener, as long as nothing was restored. */
    ghost predicate Complete()
      reads this
    {
      held.Keys == taken.Keys
    }

    /** A new listener guards the port; every other one is held and open as before. */
    twostate predicate KeptOpen(port: int)
      reads this
    {
      && port in held && held == old(held)[port := held[port]]
      && held[port] !in old(open) && open == old(open) + {held[port]}
    }

    /** The table as it is now has been saved, or nothing has. */
    twostate predicate Persisted(saved: bool)
      reads this, store
    {
      if saved then store.Saved(PortsKey, PortsDoc(taken)) else store.Same()
    }

    method Persist()
      requires store.Valid()
      modifies store
      ensures Persisted(true)
    {
      store.Save(PortsKey, PortsDoc(taken));
    }

    method Listen() returns (h: Listener)
      modifies this
      ensures h == old(listeners) && listeners == h + 1 && open == old(open) + {h}
      ensures taken == old(taken) && held == old(held)
    {
      h := listeners;
      listeners := listeners + 1;
      open := open + {h};
    }

    method Close(h: Listener)
      modifies this
      ensures open == old(open) - {h}
      ensures taken == old(taken) && held == old(held) && listeners == old(listeners)
    {
      open := open - {h};
    }

    /** One attempt: keep the listener if its port is not in the table yet, else close it again. */
    method TryPort(a: Allocation) returns (ok: bool)
      requires Valid() && store.Valid()
      modifies this, store
      ensures Valid() && ok == (a.port !in old(taken)) && Persisted(ok)
      ensures ok ==> taken == old(taken)[a.port := a] && KeptOpen(a.port)
      ensures !ok ==> taken == old(taken) && held == old(held) && open == old(open)
    {
      ghost var before := open;
      var h := Listen();
      if a.port in taken {
        Close(h);
        assert open == before;
        return false;
      }
      OpenOne(held, before, a.port, h);
      taken := taken[a.port := a];
      held := held[a.port := h];
      Persist();
      return true;
    }

    /** Reserve a port nobody in the table has: the first usable pick wins, and the listeners of the
        unusable ones are closed again. */
    method Acquire(session: string, protocol: string, name: string, picks: seq<Pick>) returns (r: AcquireResult)
      requires Valid() && store.Valid() && |picks| >= ATTEMPTS
      modifies this, store
      ensures Valid() && r == Answer(session, protocol, name, picks, old(taken)) && Persisted(r.Allocated?)
      ensures r.Allocated? ==>
                r.a.port !in old(taken) && taken == old(taken)[r.a.port := r.a] && KeptOpen(r.a.port)
      ensures !r.Allocated? ==> taken == old(taken) && held == old(held) && open == old(open)
      ensures old(Complete()) ==> Complete()
    {
      var proto := if protocol == "" then "tcp" else protocol;
      if proto != "tcp" && proto != "udp" {
        return BadProtocol;
      }
      for attempt := 0 to ATTEMPTS
        invariant Valid() && taken == old(taken) && held == old(held) && open == old(open) && Persisted(false)
        invariant FirstUsable(picks, taken, attempt) == FirstUsable(picks, taken, 0)
      {
        if picks[attempt].BindError? {
          return NoBind;
        }
        var a := Allocation(picks[attempt].port, session, proto, name);
        var ok := TryPort(a);
        if ok {
          return Allocated(a);
        }
      }
      return Exhausted;
    }

    /** Remove one row and close its listener, if it has one. */
    method RemoveRow(port: int)
      requires Valid() && port in taken
      modifies this
      ensures Valid() && taken == old(taken) - {port} && held == old(held) - {port}
    {
      taken := taken - {port};
      if port in held {
        CloseOne(held, open, port);
        Close(held[port]);
        held := held - {port};
      } else {
        assert held - {port} == held;
      }
    }

    /** Remove the rows that match and close their listeners; the rest of the table is untouched. */
    method RemoveRows(c: Rows) returns (removed: set<int>)
      requires Valid()
      modifies this
      ensures Valid()
      ensures taken == Remaining(old(taken), c) && removed == old(taken).Keys - taken.Keys
      ensures held == Without(old(held), removed)
    {
      removed := {};
      var todo := taken.Keys;
      WithoutNone(taken);
      WithoutNone(held);
      while todo != {}
        invariant todo <= old(taken).Keys && Valid()
        invariant removed == HitPorts(old(taken), c) - todo
        invariant taken == Without(old(taken), removed) && held == Without(old(held), removed)
      {
        SomePort(todo);
        var port :| port in todo;
        if Hits(c, taken[port]) {
          WithoutOneMore(old(taken), removed, port);
          WithoutOneMore(old(held), removed, port);
          RemoveRow(port);
          removed := removed + {port};
        }
        todo := todo - {port};
      }
      NothingHit(old(taken), c);
    }

    method ReleaseBySession(session: string) returns (released: set<int>)
      requires Valid() && store.Valid()
      modifies this, store
      ensures Valid() && taken == Remaining(old(taken), OfSession(session))
      ensures released == old(taken).Keys - taken.Keys
      ensures held == Without(old(held), released)
      ensures Persisted(released != {}) && (released == {} ==> taken == old(taken))
      ensures old(Complete()) ==> Complete()
    {
      NothingHit(taken, OfSession(session));
      released := RemoveRows(OfSession(session));
      if released != {} {
        Persist();
      }
    }

    method ReapOrphans(live: set<string>) returns (reaped: set<int>)
      requires Valid() && store.Valid()
      modifies this, store
      ensures Valid() && taken == Remaining(old(taken), NotIn(live))
      ensures reaped == old(taken).Keys - taken.Keys
      ensures held == Without(old(held), reaped)
      ensures Persisted(reaped != {}) && (reaped == {} ==> taken == old(taken))
      ensures old(Complete()) ==> Complete()
    {
      NothingHit(taken, NotIn(live));
      reaped := RemoveRows(NotIn(live));
      if reaped != {} {
        Persist();
      }
    }

    method ReleasePort(port: int) returns (ok: bool)
      requires Valid() && store.Valid()
      modifies this, store
      ensures Valid() && ok == (port in old(taken)) && Persisted(ok)
      ensures taken == old(taken) - {port} && held == old(held) - {port}
      ensures old(Complete()) ==> Complete()
    {
      if port !in taken {
        assert old(taken) - {port} == old(taken) && old(held) - {port} == old(held);
        return false;
      }
      RemoveRow(port);
      Persist();
      return true;
    }

    /** Reload the table. Restored rows have no listener until they are released. Listeners held before are
        forgotten without being closed, so a manager stays sound only if it held none, as at startup. */
    method RestoreFromStore()
      requires Valid() && store.Valid()
      modifies this
      ensures open == old(open) && (old(held) == map[] ==> Valid())
      ensures if PortsKey in store.disk && store.disk[PortsKey].PortsDoc?
              then taken == store.disk[PortsKey].table && held == map[] && (Complete() <==> taken == map[])
              else taken == old(taken) && held == old(held)
    {
      var doc := store.Load(PortsKey);
      if doc.Some? && doc.value.PortsDoc? {
        taken, held := doc.value.table, map[];
      }
    }
  }
}
