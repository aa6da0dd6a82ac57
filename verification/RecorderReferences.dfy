/** The recorder's references to sources against the archivers it has registered. */
module RecorderReferences {
  import opened Common
  import opened RecorderModel
  import opened RecorderRotation
  import opened RecorderIndexes
  import opened RecorderRuns

  /** The archivings registered with this address. */
  function RegisteredOn(byId: map<ArchivingId, Archiver>, url: Url): set<ArchivingId> {
    set id | id in byId && byId[id].source.sourceUrl == url
  }

  /** Every address is referenced once for each archiving registered with it. */
  ghost predicate Balanced(r: Registry) {
    forall url :: Ref(r.refs, url) == |RegisteredOn(r.ix.byId, url)|
  }

  // Nothing is connected without an address.

  ghost predicate Addressed(w: World) {
    && (forall id :: id in w.s.rec.ix.byId ==> w.s.rec.ix.byId[id].source.sourceUrl != "")
    && (forall a :: a in w.s.rec.ix.creators ==> a.source.sourceUrl != "")
    && (forall a :: a in w.t.restarts ==> a.source.sourceUrl != "")
    && Ref(w.s.rec.refs, "") == 0
  }

  lemma AddressedRetire(w: World, p: Archiver -> bool)
    requires Addressed(w)
    ensures Addressed(ApplyRetire(w, p))
  {
    SplitMembers(w.s.rec.ix.creators, p);
    DereferencedCounts(w.s.rec.refs, Taken(w.s.rec.ix.creators, p), "");
    NoneOnEmpty(Taken(w.s.rec.ix.creators, p));
  }

  lemma {:induction false} NoneOnEmpty(list: seq<Archiver>)
    ensures CountOn(list, "") == 0
  {
    if list != [] {
      NoneOnEmpty(list[1..]);
    }
  }

  lemma AddressedRelaunch(w: World, o: Outcome)
    requires Addressed(w)
    ensures Addressed(ApplyRelaunch(w, o))
  {
    if w.t.restarts != [] {
      assert w.t.restarts[0] in w.t.restarts;
      assert forall a :: a in w.t.restarts[1..] ==> a in w.t.restarts;
    }
  }

  lemma AddressedStep(c: Config, w: World, e: Event)
    requires Addressed(w) && Legal(w, e)
    ensures Addressed(Apply(c, w, e))
  {
    match e
    case RetireDue(readings) => AddressedRetire(w, DueAt(c, readings));
    case RelaunchNext(o) => AddressedRelaunch(w, o);
    case LoseSource(url) => SplitMembers(w.s.rec.ix.creators, OnSource(url));
    case PruneDied(lost) => SplitMembers(w.s.rec.ix.creators, ConnectionLost(lost));
    case StartRecording(_, _) =>
    case PublishRecord =>
    case FinishStart(_, _) =>
    case CollectResult(_) =>
    case StopRecording(_) =>
  }

  // One step.

  /** No source connects without its archiver starting, no loss takes an archiver, and no stop finds the
      record of a start in place of its archiver. */
  ghost predicate KeepsBalance(w: World, e: Event) {
    match e
    case FinishStart(i, o) => i < |w.s.futures| && w.s.futures[i].source.sourceUrl != "" && o.connected ==> o.launched
    case RelaunchNext(o) => w.t.restarts != [] && o.connected ==> o.launched
    case LoseSource(url) => forall a :: a in w.s.rec.ix.creators ==> a.source.sourceUrl != url
    case StopRecording(id) => id !in w.s.rec.ix.byId && id in w.s.records ==> w.s.records[id].sourceUrl == ""
    case _ => true
  }

  lemma RegisteredWith(byId: map<ArchivingId, Archiver>, a: Archiver, url: Url)
    requires a.id !in byId
    ensures |RegisteredOn(byId[a.id := a], url)| == |RegisteredOn(byId, url)| + if a.source.sourceUrl == url then 1 else 0
  {
    assert RegisteredOn(byId[a.id := a], url) == RegisteredOn(byId, url) + if a.source.sourceUrl == url then {a.id} else {};
  }

  lemma BalancedLaunch(r: Registry, id: ArchivingId, source: Source, o: Outcome)
    requires Balanced(r) && id !in r.ix.byId
    ensures Balanced(r.Launch(id, source, o)) <==> (o.connected ==> o.launched)
  {
    var r', url := r.Launch(id, source, o), source.sourceUrl;
    if o.connected && o.launched {
      forall x ensures Ref(r'.refs, x) == |RegisteredOn(r'.ix.byId, x)| {
        RegisteredWith(r.ix.byId, Archiver(id, source, r.launches), x);
        assert Ref(r.refs, x) == |RegisteredOn(r.ix.byId, x)|;
      }
    } else if o.connected {
      hide RegisteredOn;
      assert r'.ix == r.ix && Ref(r'.refs, url) == Ref(r.refs, url) + 1;
      assert Ref(r.refs, url) == |RegisteredOn(r.ix.byId, url)|;
    }
  }

  lemma RegisteredWithout(byId: map<ArchivingId, Archiver>, id: ArchivingId, url: Url)
    ensures RegisteredOn(byId - {id}, url) == RegisteredOn(byId, url) - {id}
  {
  }

  lemma BalancedStop(s: State, id: ArchivingId)
    requires Balanced(s.rec) && (id in s.rec.ix.byId ==> s.rec.ix.byId[id].source.sourceUrl != "")
    ensures Balanced(s.StopRecording(id).0.rec) <==> (id !in s.rec.ix.byId && id in s.records ==> s.records[id].sourceUrl == "")
  {
    var r, r' := s.rec, s.StopRecording(id).0.rec;
    if id in r.ix.byId {
      forall url ensures Ref(r'.refs, url) == |RegisteredOn(r'.ix.byId, url)| {
        RegisteredWithout(r.ix.byId, id, url);
      }
    } else if id in s.records && s.records[id].sourceUrl != "" {
      var url := s.records[id].sourceUrl;
      assert Ref(r'.refs, url) == Ref(r.refs, url) - 1;
    }
  }

  /** The archivers of the list are in the map under their own ids. */
  ghost predicate Mapped(byId: map<ArchivingId, Archiver>, list: seq<Archiver>) {
    DistinctIds(list) && forall a :: a in list ==> a.id in byId && byId[a.id] == a && a.source.sourceUrl != ""
  }

  lemma MappedRest(byId: map<ArchivingId, Archiver>, list: seq<Archiver>)
    requires Mapped(byId, list) && list != []
    ensures Mapped(byId - {list[0].id}, list[1..]) && list[0].id in byId && byId[list[0].id] == list[0]
    ensures byId - {list[0].id} - Ids(list[1..]) == byId - Ids(list) && list[0].source.sourceUrl != ""
  {
    var a, rest := list[0], list[1..];
    assert a in list && list == [a] + rest;
    forall b | b in rest ensures b in list && b.id != a.id {}
    assert Ids(list) == {a.id} + Ids(rest);
  }

  /** Registered archivers leave the map: so many fewer archivings are registered with the address. */
  lemma {:induction false} RegisteredWithoutAll(byId: map<ArchivingId, Archiver>, list: seq<Archiver>, url: Url)
    requires Mapped(byId, list)
    ensures |RegisteredOn(byId - Ids(list), url)| == |RegisteredOn(byId, url)| - CountOn(list, url)
    decreases |list|
  {
    if list == [] {
      assert byId - Ids(list) == byId;
    } else {
      MappedRest(byId, list);
      RegisteredWithoutAll(byId - {list[0].id}, list[1..], url);
      RegisteredWithout(byId, list[0].id, url);
      hide Ids, Mapped;
    }
  }

  lemma BalancedRetire(r: Registry, pruned: set<ArchivingId>, p: Archiver -> bool)
    requires Balanced(r) && IndexOk(r.ix, pruned) && forall a :: a in r.ix.creators ==> a.source.sourceUrl != ""
    ensures Balanced(r.Retire(p))
  {
    var due := Taken(r.ix.creators, p);
    SplitMembers(r.ix.creators, p);
    SplitDistinct(r.ix.creators, p);
    forall url ensures Ref(r.Retire(p).refs, url) == |RegisteredOn(r.Retire(p).ix.byId, url)| {
      DereferencedCounts(r.refs, due, url);
      assert Mapped(r.ix.byId, due);
      RegisteredWithoutAll(r.ix.byId, due, url);
    }
  }

  lemma BalancedLose(s: State, pruned: set<ArchivingId>, url: Url)
    requires Balanced(s.rec) && IndexOk(s.rec.ix, pruned)
    ensures Balanced(s.Lose(url).rec) <==> forall a :: a in s.rec.ix.creators ==> a.source.sourceUrl != url
  {
    SplitMembers(s.rec.ix.creators, OnSource(url));
    var r, r' := s.rec, s.Lose(url).rec;
    if a :| a in r.ix.creators && a.source.sourceUrl == url {
      assert a in Taken(r.ix.creators, OnSource(url));
      assert a.id in RegisteredOn(r.ix.byId, url) && a.id !in RegisteredOn(r'.ix.byId, url);
      assert RegisteredOn(r'.ix.byId, url) < RegisteredOn(r.ix.byId, url);
      Smaller(RegisteredOn(r'.ix.byId, url), RegisteredOn(r.ix.byId, url));
      assert Ref(r'.refs, url) == Ref(r.refs, url);
    } else {
      NoneTaken(r.ix.creators, OnSource(url));
      assert r'.ix.byId == r.ix.byId;
    }
  }

  lemma Smaller<T>(a: set<T>, b: set<T>)
    requires a < b
    ensures |a| < |b|
  {
    assert b == a + (b - a);
  }

  lemma BalanceStep(c: Config, w: World, e: Event)
    requires Inv(w) && Addressed(w) && Legal(w, e) && Balanced(w.s.rec)
    ensures Balanced(Apply(c, w, e).s.rec) <==> KeepsBalance(w, e)
  {
    match e
    case FinishStart(i, o) =>
      var f := w.s.futures[i];
      assert FutureOk(f, Known(w), w.h.failed);
      BalancedLaunch(w.s.rec, f.id, f.source, f.source.Answer(o));
    case RelaunchNext(o) =>
      var a := w.t.restarts[0];
      assert a in w.t.restarts && a.id in Ids(w.t.restarts);
      BalancedLaunch(w.s.rec, a.id, a.source, a.source.Answer(o));
    case StopRecording(id) => BalancedStop(w.s, id);
    case LoseSource(url) => BalancedLose(w.s, w.h.pruned, url);
    case RetireDue(readings) => BalancedRetire(w.s.rec, w.h.pruned, DueAt(c, readings));
    case StartRecording(_, _) =>
    case PublishRecord =>
    case CollectResult(_) =>
    case PruneDied(_) =>
  }

  // All runs.

  lemma {:induction false} AddressedHolds(c: Config, es: seq<Event>, k: nat)
    requires LegalRun(c, es) && k <= |es|
    ensures Addressed(After(c, es[..k]))
  {
    if k > 0 {
      AddressedHolds(c, es, k - 1);
      AfterStep(c, es, k - 1);
      AddressedStep(c, After(c, es[..k - 1]), es[k - 1]);
    }
  }

  /** Over every run nothing is recorded from an empty address, and none is referenced. */
  lemma {:induction false} NoEmptyAddress(c: Config, es: seq<Event>)
    requires LegalRun(c, es)
    ensures var r := After(c, es).s.rec;
      && Ref(r.refs, "") == 0 && (forall a :: a in r.ix.creators ==> a.source.sourceUrl != "")
      && forall id :: id in r.ix.byId ==> r.ix.byId[id].source.sourceUrl != ""
  {
    assert es[..|es|] == es;
    AddressedHolds(c, es, |es|);
  }

  ghost predicate BalancedAt(c: Config, es: seq<Event>, k: nat) {
    k <= |es| && Balanced(After(c, es[..k]).s.rec)
  }

  ghost predicate KeepsBalanceAt(c: Config, es: seq<Event>, k: nat) {
    k < |es| && KeepsBalance(After(c, es[..k]), es[k])
  }

  /** Throughout a run every address is referenced once for each archiving registered with it, if and only
      if no source connects without its archiver starting, no loss takes an archiver out of the vector, and
      no stop finds a start record with an address in place of an archiver. */
  lemma {:induction false} ReferencesExact(c: Config, es: seq<Event>)
    requires LegalRun(c, es)
    ensures (forall k: nat :: k <= |es| ==> BalancedAt(c, es, k)) <==> (forall k: nat :: k < |es| ==> KeepsBalanceAt(c, es, k))
  {
    var balanced := (k: nat) => BalancedAt(c, es, k);
    var keeps := (k: nat) => KeepsBalanceAt(c, es, k);
    forall k: nat | k < |es| && balanced(k) ensures balanced(k + 1) <==> keeps(k) {
      InvHolds(c, es, k);
      AddressedHolds(c, es, k);
      AfterStep(c, es, k);
      BalanceStep(c, After(c, es[..k]), es[k]);
    }
    assert After(c, es[..0]) == Initial();
    HoldsThroughout(balanced, keeps, |es|);
    assert forall k: nat :: balanced(k) <==> BalancedAt(c, es, k);
    assert forall k: nat :: keeps(k) <==> KeepsBalanceAt(c, es, k);
  }
}
