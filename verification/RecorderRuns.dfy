/** What every legal run of the recorder keeps. */
module RecorderRuns {
  import opened Common
  import opened RecorderModel
  import opened RecorderRotation
  import opened RecorderIndexes

  function PendingIds(c: Command): set<ArchivingId> {
    if c.Publishing? then {c.id} else {}
  }

  /** The ids in the map, and those a rotation is about to put back. */
  function Known(w: World): set<ArchivingId> {
    w.s.rec.ix.byId.Keys + Ids(w.t.restarts)
  }

  /** The published records and the one about to be. */
  function Recorded(w: World): set<ArchivingId> {
    w.s.records.Keys + PendingIds(w.t.command)
  }

  ghost predicate FutureOk(f: Future, known: set<ArchivingId>, failed: set<ArchivingId>) {
    f.id != "" && f.id !in failed && (f.result != Some(true) ==> f.id !in known)
  }

  ghost predicate FuturesOk(fs: seq<Future>, known: set<ArchivingId>, failed: set<ArchivingId>) {
    && (forall i :: 0 <= i < |fs| ==> FutureOk(fs[i], known, failed))
    && (forall i, j :: 0 <= i < j < |fs| ==> fs[i].id != fs[j].id)
  }

  /** A start that is running or has failed has no archiver. */
  ghost predicate StartsOk(w: World) {
    && FuturesOk(w.s.futures, Known(w), w.h.failed) && FutureIds(w.s.futures) <= w.h.accepted
    && Recorded(w) <= w.h.accepted && PendingIds(w.t.command) !! w.s.records.Keys
    && Known(w) <= w.h.accepted && w.h.failed <= w.h.accepted && Known(w) !! w.h.failed && "" !in w.h.accepted
  }

  /** What a rotation has retired is in the map no more. */
  ghost predicate RestartsOk(restarts: seq<Archiver>, keys: set<ArchivingId>) {
    DistinctIds(restarts) && Ids(restarts) !! keys
  }

  ghost predicate Inv(w: World) {
    StartsOk(w) && IndexOk(w.s.rec.ix, w.h.pruned) && RestartsOk(w.t.restarts, w.s.rec.ix.byId.Keys)
  }

  // The futures.

  lemma FutureIdsAppended(fs: seq<Future>, f: Future)
    ensures FutureIds(fs + [f]) == FutureIds(fs) + {f.id}
  {
  }

  lemma FutureIdsUpdated(fs: seq<Future>, i: nat, f: Future)
    requires i < |fs| && fs[i].id == f.id
    ensures FutureIds(fs[i := f]) == FutureIds(fs)
  {
    var fs' := fs[i := f];
    forall id | id in FutureIds(fs) ensures id in FutureIds(fs') {
      var k :| 0 <= k < |fs| && fs[k].id == id;
      assert fs'[k] in fs' && fs'[k].id == id;
    }
    forall id | id in FutureIds(fs') ensures id in FutureIds(fs) {
      var k :| 0 <= k < |fs| && fs'[k].id == id;
      assert fs[k] in fs && fs[k].id == id;
    }
  }

  lemma FutureIdsErased(fs: seq<Future>, i: nat)
    requires i < |fs| && forall j, k :: 0 <= j < k < |fs| ==> fs[j].id != fs[k].id
    ensures FutureIds(Erased(fs, i)) == FutureIds(fs) - {fs[i].id} && fs[i].id in FutureIds(fs)
    ensures forall j, k :: 0 <= j < k < |fs| - 1 ==> Erased(fs, i)[j].id != Erased(fs, i)[k].id
  {
  }

  lemma FutureIn(fs: seq<Future>, i: nat)
    requires i < |fs|
    ensures fs[i].id in FutureIds(fs)
  {
  }

  // One step.

  lemma StartStep(w: World, id: ArchivingId, source: Source)
    requires StartsOk(w) && Legal(w, StartRecording(id, source))
    ensures StartsOk(ApplyStart(w, id, source))
  {
    if !w.s.rec.ix.SensorBusy(source.sensorId) {
      var f := Future(id, source, None);
      var fs := w.s.futures;
      FutureIdsAppended(fs, f);
      var w' := ApplyStart(w, id, source);
      assert Recorded(w') == Recorded(w) + {id} && Known(w') == Known(w);
      forall i | 0 <= i < |fs| ensures fs[i].id != id && FutureOk(fs[i], Known(w), w.h.failed) {
        assert FutureOk(fs[i], Known(w), w.h.failed);
      }
      assert FutureOk(f, Known(w), w.h.failed);
    }
  }

  lemma PublishStep(w: World)
    requires StartsOk(w)
    ensures StartsOk(ApplyPublish(w)) && Recorded(ApplyPublish(w)) == Recorded(w)
  {
    assert Recorded(ApplyPublish(w)) == Recorded(w) && Known(ApplyPublish(w)) == Known(w);
  }

  lemma FinishStep(w: World, i: nat, o: Outcome)
    requires Inv(w) && i < |w.s.futures| && w.s.futures[i].result.None?
    ensures Inv(w.(s := w.s.Finish(i, o)))
  {
    var fs := w.s.futures;
    var f, answer := fs[i], fs[i].source.Answer(o);
    assert FutureOk(f, Known(w), w.h.failed);
    FutureIdsUpdated(fs, i, f.(result := Some(answer.Succeeds())));
    IndexFinish(w.s.rec, w.h.pruned, f.id, f.source, answer);
    FinishStarts(w, i, o);
  }

  lemma FinishStarts(w: World, i: nat, o: Outcome)
    requires StartsOk(w) && i < |w.s.futures| && w.s.futures[i].result.None?
    requires FutureIds(w.s.Finish(i, o).futures) == FutureIds(w.s.futures)
    ensures StartsOk(w.(s := w.s.Finish(i, o)))
  {
    var fs := w.s.futures;
    var w' := w.(s := w.s.Finish(i, o));
    assert FutureOk(fs[i], Known(w), w.h.failed);
    FutureIn(fs, i);
    assert Known(w') == Known(w) + if fs[i].source.Answer(o).Succeeds() then {fs[i].id} else {};
    assert Recorded(w') == Recorded(w);
    var fs' := w'.s.futures;
    forall k | 0 <= k < |fs'| ensures FutureOk(fs'[k], Known(w'), w.h.failed) {
      assert FutureOk(fs[k], Known(w), w.h.failed);
    }
  }

  lemma CollectStep(w: World, i: nat)
    requires StartsOk(w) && Legal(w, CollectResult(i))
    ensures StartsOk(ApplyCollect(w, i))
  {
    CollectedIds(w, i);
    CollectedFutures(w, i);
    hide FutureOk, FuturesOk, FutureIds, ApplyCollect;
  }

  lemma CollectedIds(w: World, i: nat)
    requires StartsOk(w) && Legal(w, CollectResult(i))
    ensures var f, w' := w.s.futures[i], ApplyCollect(w, i);
      && FutureIds(w'.s.futures) == FutureIds(w.s.futures) - {f.id} && f.id in FutureIds(w.s.futures) && f.id !in w.h.failed
      && w'.s.records.Keys == (if f.result.value then w.s.records.Keys - {f.id} else w.s.records.Keys) && Known(w') == Known(w)
      && w'.h == w.h.(failed := if f.result.value then w.h.failed else w.h.failed + {f.id})
      && w'.t == w.t
      && (!f.result.value ==> f.id !in Known(w))
  {
    assert FutureOk(w.s.futures[i], Known(w), w.h.failed);
    FutureIdsErased(w.s.futures, i);
  }

  lemma CollectedFutures(w: World, i: nat)
    requires StartsOk(w) && Legal(w, CollectResult(i))
    ensures var w' := ApplyCollect(w, i); FuturesOk(w'.s.futures, Known(w'), w'.h.failed)
  {
    CollectedIds(w, i);
    FutureIdsErased(w.s.futures, i);
    var w' := ApplyCollect(w, i);
    FuturesErased(w.s.futures, i, Known(w), w.h.failed, w'.h.failed);
  }

  lemma FuturesErased(fs: seq<Future>, i: nat, known: set<ArchivingId>, failed: set<ArchivingId>, failed': set<ArchivingId>)
    requires i < |fs| && FuturesOk(fs, known, failed) && failed' <= failed + {fs[i].id}
    ensures FuturesOk(Erased(fs, i), known, failed')
  {
    var fs' := Erased(fs, i);
    forall k | 0 <= k < |fs'| ensures FutureOk(fs'[k], known, failed') {
      var j := if k < i then k else k + 1;
      assert fs'[k] == fs[j] && FutureOk(fs[j], known, failed);
    }
  }

  /** The remaining steps leave the starts alone and only take ids away. */
  lemma ShrinkStep(w: World, w': World)
    requires StartsOk(w) && Known(w') <= Known(w)
    requires w'.s.futures == w.s.futures && w'.s.records == w.s.records && w'.t.command == w.t.command
    requires w'.h.accepted == w.h.accepted && w'.h.failed == w.h.failed
    ensures StartsOk(w')
  {
    assert Recorded(w') == Recorded(w);
    forall i | 0 <= i < |w.s.futures| ensures FutureOk(w.s.futures[i], Known(w'), w.h.failed) {
      assert FutureOk(w.s.futures[i], Known(w), w.h.failed);
    }
  }

  /** The ids a step takes away for good. */
  function RemovedIds(w: World, e: Event): set<ArchivingId> {
    match e
    case StopRecording(id) => if id in w.s.rec.ix.byId then {id} else {}
    case LoseSource(url) => Ids(Taken(w.s.rec.ix.creators, OnSource(url)))
    case RelaunchNext(o) =>
      if w.t.restarts != [] && !w.t.restarts[0].source.Answer(o).Succeeds() then {w.t.restarts[0].id} else {}
    case _ => {}
  }

  lemma TakenIds(ix: Index, pruned: set<ArchivingId>, p: Archiver -> bool)
    requires IndexOk(ix, pruned)
    ensures Ids(Taken(ix.creators, p)) <= ix.byId.Keys
  {
    SplitMembers(ix.creators, p);
  }

  lemma RestartIds(restarts: seq<Archiver>)
    requires restarts != [] && DistinctIds(restarts)
    ensures Ids(restarts[1..]) == Ids(restarts) - {restarts[0].id} && DistinctIds(restarts[1..])
    ensures restarts[0].id in Ids(restarts)
  {
    var a, rest := restarts[0], restarts[1..];
    assert restarts == [a] + rest && a in restarts;
    forall b | b in rest ensures b.id != a.id && b in restarts {}
  }

  lemma RelaunchStep(w: World, o: Outcome)
    requires Inv(w) && w.t.restarts != []
    ensures var w' := ApplyRelaunch(w, o);
      && IndexOk(w'.s.rec.ix, w.h.pruned) && RestartsOk(w'.t.restarts, w'.s.rec.ix.byId.Keys)
      && Known(w') == Known(w) - RemovedIds(w, RelaunchNext(o))
  {
    var a := w.t.restarts[0];
    RestartIds(w.t.restarts);
    IndexFinish(w.s.rec, w.h.pruned, a.id, a.source, a.source.Answer(o));
  }

  lemma RetireStep(w: World, p: Archiver -> bool)
    requires Inv(w) && w.t.restarts == []
    ensures var w' := ApplyRetire(w, p);
      && IndexOk(w'.s.rec.ix, w.h.pruned) && RestartsOk(w'.t.restarts, w'.s.rec.ix.byId.Keys)
      && Known(w') == Known(w)
  {
    IndexDrop(w.s.rec.ix, w.h.pruned, p);
    SplitDistinct(w.s.rec.ix.creators, p);
    TakenIds(w.s.rec.ix, w.h.pruned, p);
  }

  lemma StopStep(w: World, id: ArchivingId)
    requires Inv(w)
    ensures var s' := w.s.StopRecording(id).0;
      && IndexOk(s'.rec.ix, w.h.pruned - {id}) && RestartsOk(w.t.restarts, s'.rec.ix.byId.Keys)
      && s'.rec.ix.byId.Keys == w.s.rec.ix.byId.Keys - RemovedIds(w, StopRecording(id))
  {
    if id in w.s.rec.ix.byId {
      IndexRemove(w.s.rec.ix, w.h.pruned, id);
    } else {
      assert w.h.pruned - {id} == w.h.pruned;
    }
  }

  lemma StepShape(c: Config, w: World, e: Event)
    requires Inv(w) && Legal(w, e) && !e.FinishStart?
    ensures var w' := Apply(c, w, e);
      && IndexOk(w'.s.rec.ix, w'.h.pruned) && RestartsOk(w'.t.restarts, w'.s.rec.ix.byId.Keys)
      && Known(w') == Known(w) - RemovedIds(w, e)
  {
    match e
    case StopRecording(id) =>
      StopStep(w, id);
      assert RemovedIds(w, e) !! Ids(w.t.restarts);
    case LoseSource(url) =>
      IndexDrop(w.s.rec.ix, w.h.pruned, OnSource(url));
      TakenIds(w.s.rec.ix, w.h.pruned, OnSource(url));
    case PruneDied(lost) => IndexPrune(w.s.rec.ix, w.h.pruned, ConnectionLost(lost));
    case RetireDue(readings) => RetireStep(w, DueAt(c, readings));
    case RelaunchNext(o) => RelaunchStep(w, o);
    case StartRecording(_, _) =>
    case PublishRecord =>
    case CollectResult(_) =>
  }

  lemma InvStep(c: Config, w: World, e: Event)
    requires Inv(w) && Legal(w, e)
    ensures Inv(Apply(c, w, e))
  {
    if e.FinishStart? {
      FinishStep(w, e.i, e.outcome);
    } else {
      StepShape(c, w, e);
      if e.StartRecording? {
        StartStep(w, e.id, e.source);
      } else if e.PublishRecord? {
        PublishStep(w);
      } else if e.CollectResult? {
        CollectStep(w, e.i);
      } else {
        ShrinkStep(w, Apply(c, w, e));
      }
    }
  }

  // The result events.

  function CountResults(sent: seq<StateEvent>, id: ArchivingId): nat {
    if sent == [] then 0
    else CountResults(sent[..|sent| - 1], id) + if Last(sent).archivingId == id && Last(sent).cause.StartResult? then 1 else 0
  }

  function Last(sent: seq<StateEvent>): StateEvent
    requires sent != []
  {
    sent[|sent| - 1]
  }

  lemma CountOther(sent: seq<StateEvent>, e: StateEvent, id: ArchivingId)
    requires e.cause.SourceLost?
    ensures CountResults(sent + [e], id) == CountResults(sent, id)
  {
  }

  lemma Reassociated<T>(a: seq<T>, x: T, b: seq<T>)
    ensures a + ([x] + b) == (a + [x]) + b
  {
  }

  lemma {:induction false} CountWithLost(sent: seq<StateEvent>, list: seq<Archiver>, id: ArchivingId)
    ensures CountResults(sent + LostEvents(list), id) == CountResults(sent, id)
    decreases |list|
  {
    if list == [] {
      assert sent + [] == sent;
    } else {
      var e, rest := StateEvent(list[0].id, list[0].source.sensorId, Crushed, SourceLost), LostEvents(list[1..]);
      CountWithLost(sent + [e], list[1..], id);
      Reassociated(sent, e, rest);
      CountOther(sent, e, id);
    }
  }

  /** Each accepted start has one result event once it is collected, and none before. */
  ghost predicate ReportedOnce(w: World) {
    forall id :: CountResults(w.s.sent, id) == if id in w.h.accepted && id !in FutureIds(w.s.futures) then 1 else 0
  }

  lemma ReportedStep(c: Config, w: World, e: Event)
    requires Inv(w) && ReportedOnce(w) && Legal(w, e)
    ensures ReportedOnce(Apply(c, w, e))
  {
    match e
    case StartRecording(id, source) => FutureIdsAppended(w.s.futures, Future(id, source, None));
    case FinishStart(i, o) => FutureIdsUpdated(w.s.futures, i, w.s.Finish(i, o).futures[i]);
    case CollectResult(i) => ReportedCollect(w, i);
    case LoseSource(url) =>
      forall id ensures CountResults(w.s.Lose(url).sent, id) == CountResults(w.s.sent, id) {
        CountWithLost(w.s.sent, Taken(w.s.rec.ix.creators, OnSource(url)), id);
      }
    case PublishRecord =>
    case StopRecording(_) =>
    case PruneDied(_) =>
    case RetireDue(_) =>
    case RelaunchNext(_) =>
  }

  lemma ReportedCollect(w: World, i: nat)
    requires Inv(w) && ReportedOnce(w) && Legal(w, CollectResult(i))
    ensures ReportedOnce(ApplyCollect(w, i))
  {
    var f := w.s.futures[i];
    FutureIdsErased(w.s.futures, i);
    FutureIn(w.s.futures, i);
    assert f.id in w.h.accepted;
    var e := w.s.ResultEvent(f);
    assert e.archivingId == f.id;
    assert (w.s.sent + [e])[..|w.s.sent|] == w.s.sent;
    forall id ensures CountResults(w.s.sent + [e], id) == CountResults(w.s.sent, id) + if id == f.id then 1 else 0 {}
  }

  // All runs.

  lemma AfterStep(c: Config, es: seq<Event>, k: nat)
    requires k < |es|
    ensures After(c, es[..k + 1]) == Apply(c, After(c, es[..k]), es[k])
  {
    assert es[..k + 1][..k] == es[..k];
  }

  lemma {:induction false} InvHolds(c: Config, es: seq<Event>, k: nat)
    requires LegalRun(c, es) && k <= |es|
    ensures Inv(After(c, es[..k])) && ReportedOnce(After(c, es[..k]))
  {
    if k > 0 {
      InvHolds(c, es, k - 1);
      AfterStep(c, es, k - 1);
      InvStep(c, After(c, es[..k - 1]), es[k - 1]);
      ReportedStep(c, After(c, es[..k - 1]), es[k - 1]);
    }
  }

  // The start records.

  /** The records, with the one about to be published, are the uncollected and the failed starts. */
  ghost predicate ExactRecords(w: World) {
    Recorded(w) == FutureIds(w.s.futures) + w.h.failed
  }

  /** If the step collects a failure, that finds its record. */
  ghost predicate FailureFound(w: World, e: Event) {
    e.CollectResult? && w.s.Ready(e.i) && !w.s.futures[e.i].result.value ==> w.s.CollectDefined(e.i)
  }

  /** No start is collected between its two locks. */
  predicate RecordFirst(w: World, e: Event) {
    e.CollectResult? && w.s.Ready(e.i) && w.t.command.Publishing? ==> w.s.futures[e.i].id != w.t.command.id
  }

  /** What a collection looks up: the archiver of a success, the record of a failure. */
  lemma CollectDefinedIff(w: World, i: nat)
    requires Inv(w) && w.s.Ready(i) && w.t.restarts == []
    ensures var f := w.s.futures[i];
      && (w.s.CollectDefined(i) <==> if f.result.value then f.id in Known(w) else f.id in w.s.records)
      && (ExactRecords(w) ==> (f.id in w.s.records <==> f.id !in PendingIds(w.t.command)))
  {
    assert FutureOk(w.s.futures[i], Known(w), w.h.failed);
    FutureIn(w.s.futures, i);
  }

  lemma RecordsCollect(w: World, i: nat)
    requires Inv(w) && Legal(w, CollectResult(i)) && ExactRecords(w)
    ensures RecordFirst(w, CollectResult(i)) <==> ExactRecords(ApplyCollect(w, i)) && FailureFound(w, CollectResult(i))
  {
    CollectedIds(w, i);
    CollectDefinedIff(w, i);
  }

  lemma RecordsStep(c: Config, w: World, e: Event)
    requires Inv(w) && Legal(w, e) && ExactRecords(w)
    ensures RecordFirst(w, e) <==> ExactRecords(Apply(c, w, e)) && FailureFound(w, e)
  {
    match e
    case StartRecording(id, source) => FutureIdsAppended(w.s.futures, Future(id, source, None));
    case PublishRecord => PublishStep(w);
    case FinishStart(i, o) => FutureIdsUpdated(w.s.futures, i, w.s.Finish(i, o).futures[i]);
    case CollectResult(i) => RecordsCollect(w, i);
    case StopRecording(_) =>
    case LoseSource(_) =>
    case PruneDied(_) =>
    case RetireDue(_) =>
    case RelaunchNext(_) =>
  }

  /** After k steps the records are exact, and the k-th found the record it looked up. */
  ghost predicate RecordsAt(c: Config, es: seq<Event>, k: nat) {
    && k <= |es| && ExactRecords(After(c, es[..k]))
    && (k > 0 ==> FailureFound(After(c, es[..k - 1]), es[k - 1]))
  }

  ghost predicate RecordFirstAt(c: Config, es: seq<Event>, k: nat) {
    k < |es| && RecordFirst(After(c, es[..k]), es[k])
  }

  /** The start records. Throughout a run they are the uncollected and the failed starts, and every
      collected failure finds its own, if and only if no start is collected between its two locks. */
  lemma {:induction false} StartRecords(c: Config, es: seq<Event>)
    requires LegalRun(c, es)
    ensures (forall k: nat :: k <= |es| ==> RecordsAt(c, es, k)) <==> (forall k: nat :: k < |es| ==> RecordFirstAt(c, es, k))
  {
    var exact := (k: nat) => RecordsAt(c, es, k);
    var first := (k: nat) => RecordFirstAt(c, es, k);
    forall k: nat | k < |es| && exact(k) ensures exact(k + 1) <==> first(k) {
      InvHolds(c, es, k);
      AfterStep(c, es, k);
      RecordsStep(c, After(c, es[..k]), es[k]);
    }
    assert After(c, es[..0]) == Initial();
    HoldsThroughout(exact, first, |es|);
    assert forall k: nat :: exact(k) <==> RecordsAt(c, es, k);
    assert forall k: nat :: first(k) <==> RecordFirstAt(c, es, k);
  }

  /** Then every uncollected start has its record or is about to get it. */
  lemma {:induction false} RecordsOfStarts(c: Config, es: seq<Event>)
    requires LegalRun(c, es) && forall k: nat :: k < |es| ==> RecordFirstAt(c, es, k)
    ensures var w := After(c, es);
      && w.s.records.Keys == FutureIds(w.s.futures) + w.h.failed - PendingIds(w.t.command)
      && forall f :: f in w.s.futures ==> f.id in w.s.records || f.id in PendingIds(w.t.command)
  {
    StartRecords(c, es);
    assert es[..|es|] == es && RecordsAt(c, es, |es|);
    InvHolds(c, es, |es|);
    assert forall f :: f in After(c, es).s.futures ==> f.id in FutureIds(After(c, es).s.futures);
  }

  /** A failed start has no archiver, and each accepted start is reported exactly once, when it is collected. */
  lemma {:induction false} StartReports(c: Config, es: seq<Event>)
    requires LegalRun(c, es)
    ensures var w := After(c, es);
      && w.h.failed !! w.s.rec.ix.byId.Keys
      && forall id :: CountResults(w.s.sent, id) == if id in w.h.accepted && id !in FutureIds(w.s.futures) then 1 else 0
  {
    assert es[..|es|] == es;
    InvHolds(c, es, |es|);
  }

  /** At every point of a run, inside a rotation too, the map's keys are the vector's ids and the
      pruned ones not yet stopped; each vector entry is found under its own id. */
  lemma {:induction false} IndexesAgree(c: Config, es: seq<Event>)
    requires LegalRun(c, es)
    ensures var w := After(c, es); var ix := w.s.rec.ix;
      && ix.byId.Keys == Ids(ix.creators) + w.h.pruned && Ids(ix.creators) !! w.h.pruned
      && (forall i, j :: 0 <= i < j < |ix.creators| ==> ix.creators[i].id != ix.creators[j].id)
      && (forall a :: a in ix.creators ==> ix.Find(a.id) == Some(a))
  {
    assert es[..|es|] == es;
    InvHolds(c, es, |es|);
    IndexKeys(After(c, es).s.rec.ix, After(c, es).h.pruned);
  }

  // The lookups of the collector.

  /** Every start that succeeded and is not collected still has its archiver in the map, or a rotation
      is about to put it back. */
  ghost predicate StartedFound(w: World) {
    forall f :: f in w.s.futures && f.result == Some(true) ==> f.id in Known(w)
  }

  /** The step takes no such start's archiver away. */
  ghost predicate KeepsStarted(w: World, e: Event) {
    forall f :: f in w.s.futures && f.result == Some(true) ==> f.id !in RemovedIds(w, e)
  }

  lemma FoundFinish(w: World, i: nat, o: Outcome)
    requires Inv(w) && StartedFound(w) && i < |w.s.futures|
    ensures StartedFound(w.(s := w.s.Finish(i, o)))
  {
    var w' := w.(s := w.s.Finish(i, o));
    assert Known(w) <= Known(w');
    forall f | f in w'.s.futures && f.result == Some(true) ensures f.id in Known(w') {
      assert f == w'.s.futures[i] || f in w.s.futures;
    }
  }

  lemma FoundStep(c: Config, w: World, e: Event)
    requires Inv(w) && Legal(w, e) && StartedFound(w)
    ensures StartedFound(Apply(c, w, e)) <==> KeepsStarted(w, e)
  {
    if e.FinishStart? {
      FoundFinish(w, e.i, e.outcome);
    } else {
      StepShape(c, w, e);
      if e.StartRecording? {
        var f := Future(e.id, e.source, None);
        assert forall g :: g in w.s.futures + [f] <==> g in w.s.futures || g == f;
      } else if e.CollectResult? {
        assert forall f :: f in Erased(w.s.futures, e.i) ==> f in w.s.futures;
      }
    }
  }

  ghost predicate ArchiversFoundAt(c: Config, es: seq<Event>, k: nat) {
    k <= |es| && StartedFound(After(c, es[..k]))
  }

  ghost predicate KeepsArchiversAt(c: Config, es: seq<Event>, k: nat) {
    k < |es| && KeepsStarted(After(c, es[..k]), es[k])
  }

  /** The collector can find the archiver of every successful start throughout a run if and only if
      no stop, source loss or failed relaunch takes an uncollected one away. */
  lemma CollectorFinds(c: Config, es: seq<Event>)
    requires LegalRun(c, es)
    ensures (forall k: nat :: k <= |es| ==> ArchiversFoundAt(c, es, k)) <==>
      (forall k: nat :: k < |es| ==> KeepsArchiversAt(c, es, k))
  {
    var found := (k: nat) => ArchiversFoundAt(c, es, k);
    var keeps := (k: nat) => KeepsArchiversAt(c, es, k);
    forall k: nat | k < |es| && found(k) ensures found(k + 1) <==> keeps(k) {
      InvHolds(c, es, k);
      AfterStep(c, es, k);
      FoundStep(c, After(c, es[..k]), es[k]);
    }
    assert After(c, es[..0]) == Initial();
    HoldsThroughout(found, keeps, |es|);
    assert forall k: nat :: found(k) <==> ArchiversFoundAt(c, es, k);
    assert forall k: nat :: keeps(k) <==> KeepsArchiversAt(c, es, k);
  }

  /** No collection of the pass dereferences anything missing. */
  ghost predicate PassDefined(s: State, i: nat)
    requires i <= |s.futures|
    decreases |s.futures| - i
  {
    i < |s.futures| ==>
      if s.Ready(i) then s.CollectDefined(i) && PassDefined(s.Collect(i), i) else PassDefined(s, i + 1)
  }

  lemma {:induction false} PassDefinedFrom(c: Config, w: World, i: nat)
    requires Inv(w) && StartedFound(w) && ExactRecords(w) && i <= |w.s.futures| && w.t == Threads(Idle, [])
    ensures PassDefined(w.s, i)
    decreases |w.s.futures| - i
  {
    if i < |w.s.futures| {
      if w.s.Ready(i) {
        assert w.s.futures[i] in w.s.futures;
        CollectDefinedIff(w, i);
        RecordsCollect(w, i);
        InvStep(c, w, CollectResult(i));
        FoundStep(c, w, CollectResult(i));
        PassDefinedFrom(c, Apply(c, w, CollectResult(i)), i);
      } else {
        PassDefinedFrom(c, w, i + 1);
      }
    }
  }

  ghost predicate PassDefinedAfter(c: Config, es: seq<Event>) {
    PassDefined(After(c, es).s, 0)
  }

  /** Under both conditions whole collecting passes are defined outside commands and rotations. */
  lemma {:induction false} CollectionsDefined(c: Config, es: seq<Event>)
    requires LegalRun(c, es) && After(c, es).t == Threads(Idle, [])
    requires forall k: nat :: k < |es| ==> KeepsArchiversAt(c, es, k) && RecordFirstAt(c, es, k)
    ensures PassDefinedAfter(c, es)
  {
    assert es[..|es|] == es;
    InvHolds(c, es, |es|);
    CollectorFinds(c, es);
    StartRecords(c, es);
    assert ArchiversFoundAt(c, es, |es|) && RecordsAt(c, es, |es|);
    PassDefinedFrom(c, After(c, es), 0);
  }
}
