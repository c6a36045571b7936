/** Saves that land late. A manager prepares the document before it gets hold of the store's lock, so of the saves
    under way at one moment any may land, in any order, before a crash. */
module LateSaves {
  import opened Documents
  import opened LeaseModel
  import opened LeaseInvariant
  import opened LeaseHandoff
  import opened LeaseSnapshots
  import opened Recovery
  import opened Daemon

  datatype Save = Save(key: Key, doc: Doc)

  /** Some of the saves, each at most once. */
  predicate Landing(saves: seq<Save>, order: seq<nat>) {
    && (forall i | 0 <= i < |order| :: order[i] < |saves|)
    && (forall i, j | 0 <= i < j < |order| :: order[i] != order[j])
  }

  /** The disk once these saves have landed, one after the other. */
  function Landed(d: Disk, saves: seq<Save>, order: seq<nat>): Disk
    requires forall i | 0 <= i < |order| :: order[i] < |saves|
  {
    if order == [] then d
    else
      var s := saves[order[|order| - 1]];
      Landed(d, saves, order[..|order| - 1])[s.key := s.doc]
  }

  /** The document is on disk, or on its way there. */
  predicate Visible(d: Disk, saves: seq<Save>, key: Key, doc: Doc) {
    (key in d && d[key] == doc) || Save(key, doc) in saves
  }

  ghost predicate Ends(d: Disk, saves: seq<Save>, x: string) {
    exists sessions: SessionTable :: Visible(d, saves, SessionsKey, SessionsDoc(sessions)) && Dead(sessions, x)
  }

  predicate Holds(leases: Leases, x: string) {
    exists id :: id in leases && leases[id].state == Active && leases[id].session == x
  }

  predicate Owns(ports: PortTable, x: string) {
    exists p :: p in ports && ports[p].session == x
  }

  /** A lease or port table on disk, or on its way, has something of the session's. */
  ghost predicate Shows(d: Disk, saves: seq<Save>, x: string) {
    || (exists snap: Snapshot :: Visible(d, saves, LeasesKey, LeasesDoc(snap)) && Holds(snap.leases, x))
    || (exists ports: PortTable :: Visible(d, saves, PortsKey, PortsDoc(ports)) && Owns(ports, x))
  }

  ghost predicate NoClash(d: Disk, saves: seq<Save>) {
    forall x :: !(Ends(d, saves, x) && Shows(d, saves, x))
  }

  lemma {:induction false} LandedIsVisible(d: Disk, saves: seq<Save>, order: seq<nat>, key: Key)
    requires Landing(saves, order) && key in Landed(d, saves, order)
    ensures Visible(d, saves, key, Landed(d, saves, order)[key])
  {
    if order != [] {
      var p, s := order[..|order| - 1], saves[order[|order| - 1]];
      if s.key != key { LandedIsVisible(d, saves, p, key); }
    }
  }

  lemma SafeWithoutClash(d: Disk, saves: seq<Save>, order: seq<nat>)
    requires NoClash(d, saves) && Landing(saves, order)
    ensures CrashSafe(Landed(d, saves, order))
  {
    var d' := Landed(d, saves, order);
    forall key | key in d' ensures Visible(d, saves, key, d'[key]) { LandedIsVisible(d, saves, order, key); }
    forall x | Dead(SessionsOn(d'), x) ensures Ends(d, saves, x) {
      assert Visible(d, saves, SessionsKey, SessionsDoc(SessionsOn(d')));
    }
    forall id | id in LeasesOn(d') && LeasesOn(d')[id].state == Active
      ensures Shows(d, saves, LeasesOn(d')[id].session)
    {
      assert Visible(d, saves, LeasesKey, LeasesDoc(d'[LeasesKey].snap));
      assert Holds(d'[LeasesKey].snap.leases, LeasesOn(d')[id].session);
    }
    forall p | p in PortsOn(d') ensures Shows(d, saves, PortsOn(d')[p].session) {
      assert Visible(d, saves, PortsKey, PortsDoc(PortsOn(d')));
      assert Owns(PortsOn(d'), PortsOn(d')[p].session);
    }
  }

  /** Any two visible documents of different files can end up on disk together. */
  lemma BothLand(d: Disk, saves: seq<Save>, a: Save, b: Save) returns (order: seq<nat>)
    requires a.key != b.key && Visible(d, saves, a.key, a.doc) && Visible(d, saves, b.key, b.doc)
    ensures Landing(saves, order)
    ensures var d' := Landed(d, saves, order); a.key in d' && d'[a.key] == a.doc && b.key in d' && d'[b.key] == b.doc
  {
    order := [];
    if !(a.key in d && d[a.key] == a.doc) {
      var i :| 0 <= i < |saves| && saves[i] == a;
      order := [i];
      assert order[..0] == [];
    }
    if !(b.key in d && d[b.key] == b.doc) {
      var j :| 0 <= j < |saves| && saves[j] == b;
      assert (order + [j])[..|order|] == order;
      order := order + [j];
    }
  }

  lemma ClashIsUnsafe(d: Disk, saves: seq<Save>, x: string)
    requires Ends(d, saves, x) && Shows(d, saves, x)
    ensures exists order :: Landing(saves, order) && !CrashSafe(Landed(d, saves, order))
  {
    var sessions: SessionTable :| Visible(d, saves, SessionsKey, SessionsDoc(sessions)) && Dead(sessions, x);
    var s := Save(SessionsKey, SessionsDoc(sessions));
    if snap: Snapshot :| Visible(d, saves, LeasesKey, LeasesDoc(snap)) && Holds(snap.leases, x) {
      var order := BothLand(d, saves, s, Save(LeasesKey, LeasesDoc(snap)));
      var id :| id in snap.leases && snap.leases[id].state == Active && snap.leases[id].session == x;
      assert id in LeasesOn(Landed(d, saves, order));
    } else {
      var ports: PortTable :| Visible(d, saves, PortsKey, PortsDoc(ports)) && Owns(ports, x);
      var order := BothLand(d, saves, s, Save(PortsKey, PortsDoc(ports)));
      var p :| p in ports && ports[p].session == x;
      assert p in PortsOn(Landed(d, saves, order));
    }
  }

  /** Whatever lands of the saves under way, and in whatever order: every disk a crash can leave is safe to crash on,
      exactly if no session is over in one table and has something in another, on disk or on its way there. */
  lemma EveryLandingSafeIff(d: Disk, saves: seq<Save>)
    ensures NoClash(d, saves) <==>
            forall order | Landing(saves, order) :: CrashSafe(Landed(d, saves, order))
  {
    if NoClash(d, saves) {
      forall order | Landing(saves, order) ensures CrashSafe(Landed(d, saves, order)) {
        SafeWithoutClash(d, saves, order);
      }
    } else {
      var x :| Ends(d, saves, x) && Shows(d, saves, x);
      ClashIsUnsafe(d, saves, x);
    }
  }

  /** The last save of a termination: as long as everything under way was safe without it, it is safe exactly if no
      save prepared before the session's leases and ports were released is still to land. */
  lemma LastSaveSafeIff(d: Disk, saves: seq<Save>, sessions: SessionTable, id: string)
    requires NoClash(d, saves) && Dead(sessions, id)
    requires forall x | Dead(sessions, x) && x != id :: Ends(d, saves, x)
    ensures var all := saves + [Save(SessionsKey, SessionsDoc(sessions))];
            !Shows(d, saves, id) <==> forall order | Landing(all, order) :: CrashSafe(Landed(d, all, order))
  {
    var last := Save(SessionsKey, SessionsDoc(sessions));
    var all := saves + [last];
    EveryLandingSafeIff(d, all);
    forall key, doc ensures Visible(d, all, key, doc) <==> Visible(d, saves, key, doc) || Save(key, doc) == last {}
    forall x ensures Shows(d, all, x) <==> Shows(d, saves, x) { ShowsSame(d, saves, all, x); }
    forall x ensures Ends(d, all, x) <==> Ends(d, saves, x) || x == id {
      EndsMore(d, saves, sessions, x);
    }
  }

  lemma ShowsSame(d: Disk, saves: seq<Save>, all: seq<Save>, x: string)
    requires forall snap :: Visible(d, all, LeasesKey, LeasesDoc(snap))
                            <==> Visible(d, saves, LeasesKey, LeasesDoc(snap))
    requires forall ports :: Visible(d, all, PortsKey, PortsDoc(ports))
                             <==> Visible(d, saves, PortsKey, PortsDoc(ports))
    ensures Shows(d, all, x) <==> Shows(d, saves, x)
  {
  }

  lemma EndsMore(d: Disk, saves: seq<Save>, sessions: SessionTable, x: string)
    ensures Ends(d, saves + [Save(SessionsKey, SessionsDoc(sessions))], x) <==> Ends(d, saves, x) || Dead(sessions, x)
  {
    var all := saves + [Save(SessionsKey, SessionsDoc(sessions))];
    forall t ensures Visible(d, all, SessionsKey, SessionsDoc(t))
                     <==> Visible(d, saves, SessionsKey, SessionsDoc(t)) || t == sessions {}
  }

  /** And that can go wrong from every moment at which the session holds a lease: a lease save prepared then, by
      anybody, undoes the release on disk if it lands when the session is over. */
  lemma LateSaveLeaks(w: World, w': World, id: string)
    requires Inv(w.leases) && !HoldsNothing(w.leases, id) && Consistent(w') && Dead(w'.sessions, id)
    ensures !CrashSafe(w'.disk[LeasesKey := LeasesDoc(TakeSnapshot(w.leases))])
  {
    var d := w'.disk[LeasesKey := LeasesDoc(TakeSnapshot(w.leases))];
    LeasesSavedLoads(w'.disk, w.leases);
    var k :| k in w.leases.leases && w.leases.leases[k].state == Active && w.leases.leases[k].session == id;
    assert k in LeasesOn(d);
  }
}
