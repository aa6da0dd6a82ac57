/** What the recorder's events say, and which archivings a source loss takes. */
module RecorderReports {
  import opened Common
  import opened RecorderModel
  import opened RecorderRotation
  import opened RecorderIndexes
  import opened RecorderRuns

  // The accepted requests.

  /** The source of every accepted start. */
  function Requests(c: Config, es: seq<Event>): map<ArchivingId, Source> {
    if es == [] then map[]
    else
      var n := |es| - 1;
      var before := Requests(c, es[..n]);
      if es[n].StartRecording? && Accepts(After(c, es[..n]), After(c, es), es[n].id) then before[es[n].id := es[n].source] else before
  }

  predicate Accepts(w: World, w': World, id: ArchivingId) {
    id !in w.h.accepted && id in w'.h.accepted
  }

  /** An id of the archiver's own, and the source requested for it. */
  ghost predicate AllRequested(list: seq<Archiver>, requests: map<ArchivingId, Source>) {
    forall a :: a in list ==> a.id in requests && a.source == requests[a.id]
  }

  /** Archivers, records and start threads hold the source that was requested. */
  ghost predicate AsRequested(w: World, requests: map<ArchivingId, Source>) {
    && requests.Keys == w.h.accepted
    && AllRequested(w.s.rec.ix.creators, requests) && AllRequested(w.t.restarts, requests)
    && (forall id :: id in w.s.rec.ix.byId ==> AllRequested([w.s.rec.ix.byId[id]], requests))
    && (forall id :: id in w.s.records ==> id in requests && w.s.records[id] == requests[id])
    && (forall f :: f in w.s.futures ==> f.id in requests && f.source == requests[f.id])
    && (w.t.command.Publishing? ==> w.t.command.id in requests && w.t.command.source == requests[w.t.command.id])
  }

  lemma RequestedStart(w: World, requests: map<ArchivingId, Source>, id: ArchivingId, source: Source)
    requires AsRequested(w, requests) && Legal(w, StartRecording(id, source)) && !w.s.rec.ix.SensorBusy(source.sensorId)
    ensures AsRequested(ApplyStart(w, id, source), requests[id := source])
  {
    var w' := ApplyStart(w, id, source);
    assert forall x :: x in w.h.accepted ==> x != id;
    assert forall f :: f in w'.s.futures <==> f in w.s.futures || f == Future(id, source, None);
    assert forall a :: a in w.s.rec.ix.creators ==> a.id in requests && a.id != id;
    assert forall a :: a in w.t.restarts ==> a.id in requests && a.id != id;
    forall x | x in w.s.rec.ix.byId ensures AllRequested([w.s.rec.ix.byId[x]], requests[id := source]) {
      assert w.s.rec.ix.byId[x] in [w.s.rec.ix.byId[x]];
    }
  }

  lemma RequestedLaunch(r: Registry, requests: map<ArchivingId, Source>, id: ArchivingId, source: Source, o: Outcome)
    requires AllRequested(r.ix.creators, requests) && id in requests && source == requests[id]
    requires forall x :: x in r.ix.byId ==> AllRequested([r.ix.byId[x]], requests)
    ensures var ix' := r.Launch(id, source, o).ix;
      AllRequested(ix'.creators, requests) && forall x :: x in ix'.byId ==> AllRequested([ix'.byId[x]], requests)
  {
  }

  lemma RequestedFinish(w: World, requests: map<ArchivingId, Source>, i: nat, o: Outcome)
    requires AsRequested(w, requests) && i < |w.s.futures|
    ensures AsRequested(w.(s := w.s.Finish(i, o)), requests)
  {
    var f := w.s.futures[i];
    assert f in w.s.futures;
    RequestedLaunch(w.s.rec, requests, f.id, f.source, f.source.Answer(o));
    var fs' := w.s.Finish(i, o).futures;
    forall g | g in fs' ensures g.id in requests && g.source == requests[g.id] {
      assert g == fs'[i] || g in w.s.futures;
    }
  }

  lemma RequestedRelaunch(w: World, requests: map<ArchivingId, Source>, o: Outcome)
    requires AsRequested(w, requests)
    ensures AsRequested(ApplyRelaunch(w, o), requests)
  {
    if w.t.restarts != [] {
      var a := w.t.restarts[0];
      assert a in w.t.restarts;
      RequestedLaunch(w.s.rec, requests, a.id, a.source, a.source.Answer(o));
      assert forall b :: b in w.t.restarts[1..] ==> b in w.t.restarts;
    }
  }

  /** The remaining steps add nothing. */
  lemma RequestedLess(w: World, w': World, requests: map<ArchivingId, Source>)
    requires AsRequested(w, requests) && w'.h.accepted == w.h.accepted && w'.t.command == w.t.command
    requires forall a :: a in w'.s.rec.ix.creators ==> a in w.s.rec.ix.creators
    requires forall a :: a in w'.t.restarts ==> a in w.s.rec.ix.creators || a in w.t.restarts
    requires forall id :: id in w'.s.rec.ix.byId ==> id in w.s.rec.ix.byId && w'.s.rec.ix.byId[id] == w.s.rec.ix.byId[id]
    requires forall id :: id in w'.s.records ==> id in w.s.records && w'.s.records[id] == w.s.records[id]
    requires forall f :: f in w'.s.futures ==> f in w.s.futures
    ensures AsRequested(w', requests)
  {
  }

  lemma RequestedOther(c: Config, w: World, requests: map<ArchivingId, Source>, e: Event)
    requires AsRequested(w, requests) && Legal(w, e)
    requires !e.StartRecording? && !e.FinishStart? && !e.RelaunchNext? && !e.PublishRecord?
    ensures AsRequested(Apply(c, w, e), requests)
  {
    match e
    case CollectResult(i) =>
    case StopRecording(id) =>
    case LoseSource(url) => SplitMembers(w.s.rec.ix.creators, OnSource(url));
    case PruneDied(lost) => SplitMembers(w.s.rec.ix.creators, ConnectionLost(lost));
    case RetireDue(readings) => SplitMembers(w.s.rec.ix.creators, DueAt(c, readings));
    RequestedLess(w, Apply(c, w, e), requests);
  }

  lemma RequestedNext(c: Config, w: World, requests: map<ArchivingId, Source>, e: Event)
    requires AsRequested(w, requests) && Legal(w, e)
    ensures AsRequested(Apply(c, w, e), if e.StartRecording? && !w.s.rec.ix.SensorBusy(e.source.sensorId)
                                        then requests[e.id := e.source] else requests)
  {
    match e
    case StartRecording(id, source) =>
      if !w.s.rec.ix.SensorBusy(source.sensorId) {
        RequestedStart(w, requests, id, source);
      }
    case FinishStart(i, o) => RequestedFinish(w, requests, i, o);
    case RelaunchNext(o) => RequestedRelaunch(w, requests, o);
    case PublishRecord =>
    case _ => RequestedOther(c, w, requests, e);
  }

  lemma LegalPrefix(c: Config, es: seq<Event>, k: nat)
    requires LegalRun(c, es) && k <= |es|
    ensures LegalRun(c, es[..k]) && Inv(After(c, es[..k])) && ReportedOnce(After(c, es[..k]))
  {
    InvHolds(c, es, k);
    forall i | 0 <= i < k ensures Legal(After(c, es[..k][..i]), es[..k][i]) {
      assert es[..k][..i] == es[..i];
    }
  }

  lemma RequestsNext(c: Config, es: seq<Event>)
    requires LegalRun(c, es) && es != []
    ensures var n := |es| - 1; var w := After(c, es[..n]);
      Requests(c, es) ==
        if es[n].StartRecording? && !w.s.rec.ix.SensorBusy(es[n].source.sensorId)
        then Requests(c, es[..n])[es[n].id := es[n].source]
        else Requests(c, es[..n])
  {
    assert Legal(After(c, es[..|es| - 1]), es[|es| - 1]);
  }

  lemma {:induction false} RequestsHold(c: Config, es: seq<Event>)
    requires LegalRun(c, es)
    ensures AsRequested(After(c, es), Requests(c, es))
  {
    if es != [] {
      var n := |es| - 1;
      LegalPrefix(c, es, n);
      RequestsHold(c, es[..n]);
      RequestsNext(c, es);
      assert Legal(After(c, es[..n]), es[n]);
      RequestedNext(c, After(c, es[..n]), Requests(c, es[..n]), es[n]);
    }
  }

  // The events.

  /** Nothing but a source loss or a failed start is reported as crushed, and each event names the sensor
      of its request. */
  ghost predicate EventTrue(e: StateEvent, requests: map<ArchivingId, Source>, failed: set<ArchivingId>) {
    && e.archivingId in requests && e.sensorId == requests[e.archivingId].sensorId
    && (e.state == Crushed <==> e.cause == SourceLost || e.archivingId in failed)
  }

  ghost predicate EventsTrue(sent: seq<StateEvent>, requests: map<ArchivingId, Source>, failed: set<ArchivingId>) {
    forall e :: e in sent ==> EventTrue(e, requests, failed)
  }

  /** A collection that finds what it looks up reports a failure as crushed, a success as the archiver
      that is registered. */
  lemma CollectSends(w: World, requests: map<ArchivingId, Source>, i: nat)
    requires Inv(w) && AsRequested(w, requests) && Legal(w, CollectResult(i)) && w.s.CollectDefined(i)
    ensures var f := w.s.futures[i];
      && f.id in requests && (f.result.value ==> f.id in w.s.rec.ix.byId)
      && ApplyCollect(w, i).s.sent == w.s.sent + [
           StateEvent(f.id, requests[f.id].sensorId,
                      if f.result.value then OfArchiver(w.s.rec.ix.byId[f.id].launch) else Crushed, StartResult)]
  {
    var f := w.s.futures[i];
    assert f in w.s.futures;
    CollectDefinedIff(w, i);
    assert FutureOk(f, Known(w), w.h.failed);
    if f.id in w.s.rec.ix.byId {
      assert w.s.rec.ix.byId[f.id] in [w.s.rec.ix.byId[f.id]];
    }
  }

  lemma {:induction false} CountedIn(sent: seq<StateEvent>, e: StateEvent)
    requires e in sent && e.cause.StartResult?
    ensures CountResults(sent, e.archivingId) > 0
  {
    var n := |sent| - 1;
    if sent[n] != e {
      assert sent == sent[..n] + [sent[n]];
      CountedIn(sent[..n], e);
    }
  }

  lemma EventsAppended(sent: seq<StateEvent>, e: StateEvent, requests: map<ArchivingId, Source>,
                       failed: set<ArchivingId>, failed': set<ArchivingId>)
    requires EventsTrue(sent, requests, failed) && EventTrue(e, requests, failed')
    requires failed <= failed' && forall d :: d in sent && d.cause == StartResult && d.archivingId in failed' ==> d.archivingId in failed
    ensures EventsTrue(sent + [e], requests, failed')
  {
  }

  lemma EventsCollect(w: World, requests: map<ArchivingId, Source>, i: nat)
    requires Inv(w) && ReportedOnce(w) && AsRequested(w, requests) && EventsTrue(w.s.sent, requests, w.h.failed)
    requires Legal(w, CollectResult(i)) && w.s.CollectDefined(i)
    ensures var w' := ApplyCollect(w, i); EventsTrue(w'.s.sent, requests, w'.h.failed)
  {
    CollectSends(w, requests, i);
    var f := w.s.futures[i];
    assert FutureOk(f, Known(w), w.h.failed);
    FutureIn(w.s.futures, i);
    forall e | e in w.s.sent && e.cause == StartResult ensures e.archivingId != f.id {
      CountedIn(w.s.sent, e);
    }
    var w' := ApplyCollect(w, i);
    EventsAppended(w.s.sent, w'.s.sent[|w.s.sent|], requests, w.h.failed, w'.h.failed);
  }

  lemma {:induction false} LostEventsTrue(list: seq<Archiver>, requests: map<ArchivingId, Source>, failed: set<ArchivingId>)
    requires AllRequested(list, requests)
    ensures EventsTrue(LostEvents(list), requests, failed)
  {
    if list != [] {
      assert list[0] in list;
      LostEventsTrue(list[1..], requests, failed);
    }
  }

  lemma SendsNothing(c: Config, w: World, e: Event)
    requires !e.CollectResult? && !e.LoseSource?
    ensures Apply(c, w, e).s.sent == w.s.sent && Apply(c, w, e).h.failed == w.h.failed
  {
  }

  lemma EventsStep(c: Config, w: World, requests: map<ArchivingId, Source>, e: Event)
    requires Inv(w) && ReportedOnce(w) && AsRequested(w, requests) && EventsTrue(w.s.sent, requests, w.h.failed)
    requires Legal(w, e) && (e.CollectResult? ==> w.s.CollectDefined(e.i))
    ensures EventsTrue(Apply(c, w, e).s.sent, requests, Apply(c, w, e).h.failed)
  {
    if e.CollectResult? {
      EventsCollect(w, requests, e.i);
    } else if e.LoseSource? {
      SplitMembers(w.s.rec.ix.creators, OnSource(e.url));
      LostEventsTrue(Taken(w.s.rec.ix.creators, OnSource(e.url)), requests, w.h.failed);
    } else {
      SendsNothing(c, w, e);
    }
  }

  /** A start is accepted under a new id, of which no event speaks. */
  lemma EventsExtended(sent: seq<StateEvent>, requests: map<ArchivingId, Source>, failed: set<ArchivingId>, id: ArchivingId, source: Source)
    requires EventsTrue(sent, requests, failed) && id !in requests
    ensures EventsTrue(sent, requests[id := source], failed)
  {
  }

  /** The collection that step k of the run performs finds what it looks up. */
  ghost predicate DefinedAt(c: Config, es: seq<Event>, k: nat) {
    k < |es| && es[k].CollectResult? ==>
      var s := After(c, es[..k]).s; s.Ready(es[k].i) ==> s.CollectDefined(es[k].i)
  }

  ghost predicate EventsTrueAt(c: Config, es: seq<Event>, k: nat) {
    k <= |es| && EventsTrue(After(c, es[..k]).s.sent, Requests(c, es[..k]), After(c, es[..k]).h.failed)
  }

  lemma EventsNext(c: Config, es: seq<Event>, k: nat)
    requires LegalRun(c, es) && k < |es| && DefinedAt(c, es, k) && EventsTrueAt(c, es, k)
    ensures EventsTrueAt(c, es, k + 1)
  {
    var w, e := After(c, es[..k]), es[k];
    LegalPrefix(c, es, k);
    LegalPrefix(c, es, k + 1);
    RequestsHold(c, es[..k]);
    RequestsNext(c, es[..k + 1]);
    AfterStep(c, es, k);
    assert es[..k + 1][..k] == es[..k];
    EventsStep(c, w, Requests(c, es[..k]), e);
    if e.StartRecording? && !w.s.rec.ix.SensorBusy(e.source.sensorId) {
      EventsExtended(Apply(c, w, e).s.sent, Requests(c, es[..k]), Apply(c, w, e).h.failed, e.id, e.source);
    }
  }

  lemma {:induction false} EventsHold(c: Config, es: seq<Event>, k: nat)
    requires LegalRun(c, es) && k <= |es| && forall i: nat :: i < |es| ==> DefinedAt(c, es, i)
    ensures EventsTrueAt(c, es, k)
  {
    if k > 0 {
      EventsHold(c, es, k - 1);
      EventsNext(c, es, k - 1);
    }
  }

  lemma DefinedThroughout(c: Config, es: seq<Event>, k: nat)
    requires LegalRun(c, es) && forall i: nat :: i < |es| ==> KeepsArchiversAt(c, es, i) && RecordFirstAt(c, es, i)
    ensures DefinedAt(c, es, k)
  {
    CollectorFinds(c, es);
    StartRecords(c, es);
    if k < |es| && es[k].CollectResult? && After(c, es[..k]).s.Ready(es[k].i) {
      InvHolds(c, es, k);
      assert ArchiversFoundAt(c, es, k) && RecordsAt(c, es, k) && RecordFirstAt(c, es, k);
      assert Legal(After(c, es[..k]), es[k]);
      var w := After(c, es[..k]);
      assert w.s.futures[es[k].i] in w.s.futures;
      CollectDefinedIff(w, es[k].i);
    }
  }

  /** If no uncollected archiver is taken away and no start is collected between its two locks, every
      event of a run names the sensor of its request, and reports it as crushed exactly if its source was
      lost or its start failed. With `StartReports`: each collected start has one result event, which says so. */
  lemma {:induction false} ReportsTrue(c: Config, es: seq<Event>)
    requires LegalRun(c, es) && forall k: nat :: k < |es| ==> KeepsArchiversAt(c, es, k) && RecordFirstAt(c, es, k)
    ensures EventsTrue(After(c, es).s.sent, Requests(c, es), After(c, es).h.failed)
  {
    forall k: nat ensures DefinedAt(c, es, k) {
      DefinedThroughout(c, es, k);
    }
    EventsHold(c, es, |es|);
    assert es[..|es|] == es && EventsTrueAt(c, es, |es|);
  }

  // Source loss and lost connections.

  /** The archivers that had this address, in order. */
  function AtAddress(list: seq<Archiver>, url: Url): seq<Archiver> {
    if list == [] then []
    else if list[0].source.sourceUrl == url then [list[0]] + AtAddress(list[1..], url) else AtAddress(list[1..], url)
  }

  lemma {:induction false} TakenAtAddress(list: seq<Archiver>, url: Url)
    ensures Taken(list, OnSource(url)) == AtAddress(list, url)
  {
    if list != [] {
      TakenAtAddress(list[1..], url);
    }
  }

  lemma {:induction false} LostEventsAre(list: seq<Archiver>)
    ensures |LostEvents(list)| == |list|
    ensures forall i :: 0 <= i < |list| ==> LostEvents(list)[i] == StateEvent(list[i].id, list[i].source.sensorId, Crushed, SourceLost)
  {
    if list != [] {
      LostEventsAre(list[1..]);
    }
  }

  /** A loss takes exactly the vector's archivers of this address out of both indexes, keeps their
      settings, and reports each as crushed, in order; references and records stay. */
  lemma LossTakes(s: State, pruned: set<ArchivingId>, url: Url)
    requires IndexOk(s.rec.ix, pruned)
    ensures var s' := s.Lose(url); var gone := AtAddress(s.rec.ix.creators, url);
      && (forall a :: a in s'.rec.ix.creators <==> a in s.rec.ix.creators && a.source.sourceUrl != url)
      && (forall id :: id in s'.rec.ix.byId <==> id in s.rec.ix.byId && forall a :: a in s.rec.ix.creators && a.id == id ==> a.source.sourceUrl != url)
      && s'.lost == s.lost + gone
      && |s'.sent| == |s.sent| + |gone| && s'.sent[..|s.sent|] == s.sent
      && (forall i :: 0 <= i < |gone| ==> s'.sent[|s.sent| + i] == StateEvent(gone[i].id, gone[i].source.sensorId, Crushed, SourceLost))
      && s'.rec.refs == s.rec.refs && s'.records == s.records && s'.futures == s.futures
  {
    SplitMembers(s.rec.ix.creators, OnSource(url));
    TakenAtAddress(s.rec.ix.creators, url);
    LostEventsAre(AtAddress(s.rec.ix.creators, url));
  }

  /** The pruning takes exactly the archivers whose connection is lost out of the vector; the map keeps them. */
  lemma PruneTakes(ix: Index, lost: set<nat>)
    ensures forall a :: a in ix.Prune(ConnectionLost(lost)).creators <==> a in ix.creators && a.launch !in lost
    ensures ix.Prune(ConnectionLost(lost)).byId == ix.byId
  {
    SplitMembers(ix.creators, ConnectionLost(lost));
  }
}
