/** What the events say, and which analyses a source loss takes, from the requests that were accepted. */
module AnalysisReports {
  import opened Common
  import opened AnalysisModel
  import opened AnalysisProtocol
  import opened AnalysisIndexes
  import opened AnalysisRecovery
  import opened AnalysisRuns
  import opened AnalysisCollector

  // The accepted requests.

  /** The request of every accepted start, with the sensor's address at that time. */
  function Requests<A(==)>(sessions: map<SensorId, int>, es: seq<Event<A>>): map<ProcessingId, Settings> {
    if es == [] then map[]
    else
      var n := |es| - 1;
      var before := Requests(sessions, es[..n]);
      if es[n].StartAnalyze? && Accepts(After(sessions, es[..n]), After(sessions, es), es[n].st.processingId)
      then before[es[n].st.processingId := es[n].st.(sourceUrl := es[n].url)]
      else before
  }

  predicate Accepts<A>(w: World<A>, w': World<A>, id: ProcessingId) {
    id !in w.h.accepted && id in w'.h.accepted
  }

  /** The settings are those of the request, up to the session number. */
  ghost predicate Requested(requests: map<ProcessingId, Settings>, id: ProcessingId, st: Settings) {
    id in requests && st.(currentSession := 0) == requests[id].(currentSession := 0)
  }

  /** Analyzers, records and start threads hold what was requested. */
  ghost predicate AsRequested<A>(w: World<A>, requests: map<ProcessingId, Settings>) {
    && requests.Keys == w.h.accepted
    && (forall id :: id in requests ==> requests[id].processingId == id)
    && (forall a :: a in w.s.objects ==> Requested(requests, w.s.objects[a].settings.processingId, w.s.objects[a].settings))
    && (forall id :: id in w.s.records ==> Requested(requests, id, w.s.records[id]))
    && (forall f :: f in w.s.futures && f.origin.Start? ==> Requested(requests, f.id, f.origin.settings))
  }

  lemma RequestedStart<A>(w: World<A>, requests: map<ProcessingId, Settings>, st: Settings, url: Url)
    requires AsRequested(w, requests) && Protocol(w) && Legal(w, StartAnalyze(st, url)) && !w.s.Refuses(st)
    ensures AsRequested(ApplyStart(w, st, url), requests[st.processingId := st.(sourceUrl := url)])
  {
    var w', id, launched := ApplyStart(w, st, url), st.processingId, w.s.Launched(st, url);
    assert w'.s.futures == [Future(id, Start(launched), None)];
    assert id !in w.h.accepted && id !in w.s.records.Keys;
    hide Protocol, Legal;
    var requests' := requests[id := st.(sourceUrl := url)];
    RequestsAdded(w, requests, id, st.(sourceUrl := url));
    assert Requested(requests', id, launched);
    hide Requested;
    assert w'.s.records == w.s.records[id := launched];
  }

  /** A request under a new id changes nothing for the others. */
  lemma RequestsAdded<A>(w: World<A>, requests: map<ProcessingId, Settings>, id: ProcessingId, st: Settings)
    requires AsRequested(w, requests) && id !in w.h.accepted
    ensures forall a :: a in w.s.objects ==> Requested(requests[id := st], w.s.objects[a].settings.processingId, w.s.objects[a].settings)
    ensures forall x :: x in w.s.records ==> Requested(requests[id := st], x, w.s.records[x])
  {
  }

  lemma RequestedRegister<A>(w: World<A>, requests: map<ProcessingId, Settings>, i: nat, a: A)
    requires AsRequested(w, requests) && Protocol(w) && Legal(w, RegisterAnalyzer(i, a))
    ensures AsRequested(ApplyRegister(w, i, a), requests)
  {
    assert w.s.futures[i] in w.s.futures;
    assert FutureOk(w.s.futures[i], Registered(w), w.h.failed);
  }

  lemma RequestedFutures<A>(w: World<A>, w': World<A>, requests: map<ProcessingId, Settings>)
    requires AsRequested(w, requests) && w'.s.objects == w.s.objects && w'.h.accepted == w.h.accepted
    requires forall id :: id in w'.s.records ==> id in w.s.records && w'.s.records[id] == w.s.records[id]
    requires forall f :: f in w'.s.futures && f.origin.Start? ==> exists g :: g in w.s.futures && g.origin == f.origin && g.id == f.id
    ensures AsRequested(w', requests)
  {
  }

  lemma RequestedFinish<A>(w: World<A>, requests: map<ProcessingId, Settings>, i: nat, ok: bool)
    requires AsRequested(w, requests) && i < |w.s.futures|
    ensures AsRequested(w.(s := w.s.Finish(i, ok)), requests)
  {
    var fs' := w.s.Finish(i, ok).futures;
    forall f | f in fs' && f.origin.Start? ensures exists g :: g in w.s.futures && g.origin == f.origin && g.id == f.id {
      var k :| 0 <= k < |fs'| && fs'[k] == f;
      assert w.s.futures[k] in w.s.futures;
    }
    RequestedFutures(w, w.(s := w.s.Finish(i, ok)), requests);
  }

  lemma RequestedResume<A>(w: World<A>, requests: map<ProcessingId, Settings>, id: ProcessingId)
    requires AsRequested(w, requests)
    ensures AsRequested(ApplyResume(w, id), requests)
  {
    forall f | f in w.s.futures + [Future(id, Resume, None)] ensures f in w.s.futures || f.origin.Resume? {}
  }

  lemma RequestedStep<A>(w: World<A>, requests: map<ProcessingId, Settings>, e: Event<A>)
    requires AsRequested(w, requests) && Protocol(w) && Legal(w, e)
    requires e.StartAnalyze? ==> w.s.Refuses(e.st)
    ensures AsRequested(Apply(w, e), requests)
  {
    hide Protocol, Requested;
    match e
    case RegisterAnalyzer(i, a) => RequestedRegister(w, requests, i, a);
    case ResumeAnalyze(id) => RequestedResume(w, requests, id);
    case FinishStart(i, ok) => RequestedFinish(w, requests, i, ok);
    case CollectResult(i) => RequestedFutures(w, Apply(w, e), requests);
    case StopAnalyze(_, _) => RequestedFutures(w, Apply(w, e), requests);
    case StartAnalyze(_, _) =>
    case LoseSource(_) =>
    case OpenOperation =>
    case CloseOperation =>
  }

  lemma RequestsNext<A>(sessions: map<SensorId, int>, es: seq<Event<A>>)
    requires LegalRun(sessions, es) && es != []
    ensures var n := |es| - 1; var w := After(sessions, es[..n]);
      Requests(sessions, es) ==
        if es[n].StartAnalyze? && !w.s.Refuses(es[n].st)
        then Requests(sessions, es[..n])[es[n].st.processingId := es[n].st.(sourceUrl := es[n].url)]
        else Requests(sessions, es[..n])
  {
    assert es[..|es|] == es;
    AfterStep(sessions, es, |es| - 1);
    assert Legal(After(sessions, es[..|es| - 1]), es[|es| - 1]);
  }

  lemma LegalPrefix<A>(sessions: map<SensorId, int>, es: seq<Event<A>>, k: nat)
    requires LegalRun(sessions, es) && k <= |es|
    ensures LegalRun(sessions, es[..k]) && Inv(After(sessions, es[..k]))
  {
    InvHolds(sessions, es, k);
    forall i | 0 <= i < k ensures Legal(After(sessions, es[..k][..i]), es[..k][i]) {
      assert es[..k][..i] == es[..i];
    }
  }

  lemma {:induction false} RequestsHold<A>(sessions: map<SensorId, int>, es: seq<Event<A>>)
    requires LegalRun(sessions, es)
    ensures AsRequested(After(sessions, es), Requests(sessions, es))
  {
    if es != [] {
      var n := |es| - 1;
      LegalPrefix(sessions, es, n);
      RequestsHold(sessions, es[..n]);
      RequestsNext(sessions, es);
      RequestedNext(After(sessions, es[..n]), Requests(sessions, es[..n]), es[n]);
    }
  }

  lemma RequestedNext<A>(w: World<A>, requests: map<ProcessingId, Settings>, e: Event<A>)
    requires AsRequested(w, requests) && Protocol(w) && Legal(w, e)
    ensures AsRequested(Apply(w, e), if e.StartAnalyze? && !w.s.Refuses(e.st)
                                     then requests[e.st.processingId := e.st.(sourceUrl := e.url)] else requests)
  {
    if e.StartAnalyze? && !w.s.Refuses(e.st) {
      RequestedStart(w, requests, e.st, e.url);
    } else {
      RequestedStep(w, requests, e);
    }
  }

  // The events.

  /** Nothing but a source loss or a failed start is reported as crushed, and each event names the sensor
      of its request. */
  ghost predicate EventTrue(e: StateEvent, requests: map<ProcessingId, Settings>, failed: set<ProcessingId>) {
    && e.processingId in requests && e.sensorId == requests[e.processingId].sensorId
    && (e.state == CRUSHED <==> e.cause == SourceLost || (e.cause == StartResult && e.processingId in failed))
    && (e.state == CRUSHED || e.state == ACTIVE)
  }

  ghost predicate EventsTrue(sent: seq<StateEvent>, requests: map<ProcessingId, Settings>, failed: set<ProcessingId>) {
    forall e :: e in sent ==> EventTrue(e, requests, failed)
  }

  ghost predicate AllActive<A>(s: State<A>) {
    forall a :: a in s.objects ==> s.objects[a].state == ACTIVE
  }

  /** What a collection reports: "crushed" for a failed start, the analyzer as active otherwise. */
  function Report(f: Future, requests: map<ProcessingId, Settings>): StateEvent
    requires f.id in requests && f.result.Some?
  {
    StateEvent(f.id, requests[f.id].sensorId, if f.result.value then ACTIVE else CRUSHED,
               if f.origin == Resume then ResumeResult else StartResult)
  }

  /** A collection that finds what it looks up sends exactly that. */
  lemma CollectSends<A>(w: World<A>, requests: map<ProcessingId, Settings>, i: nat)
    requires Inv(w) && AsRequested(w, requests) && AllActive(w.s)
    requires w.s.Ready(i) && w.s.CollectDefined(i)
    ensures var f := w.s.futures[i];
      f.id in requests && ApplyCollect(w, i).s.sent == w.s.sent + [Report(f, requests)]
  {
    var f := w.s.futures[i];
    assert f in w.s.futures && FutureOk(f, Registered(w), w.h.failed);
    if f.origin.Start? {
      StartsIn(w.s.futures, i);
    }
  }

  lemma {:induction false} CountedIn(sent: seq<StateEvent>, e: StateEvent)
    requires e in sent && e.cause.StartResult?
    ensures CountResults(sent, e.processingId) > 0
  {
    var n := |sent| - 1;
    if sent[n] != e {
      assert sent == sent[..n] + [sent[n]];
      CountedIn(sent[..n], e);
    }
  }

  lemma EventsCollect<A>(w: World<A>, requests: map<ProcessingId, Settings>, i: nat)
    requires Inv(w) && AsRequested(w, requests) && AllActive(w.s) && EventsTrue(w.s.sent, requests, w.h.failed)
    requires w.s.Ready(i) && w.s.CollectDefined(i)
    ensures var w' := ApplyCollect(w, i); EventsTrue(w'.s.sent, requests, w'.h.failed)
  {
    CollectSends(w, requests, i);
    var f := w.s.futures[i];
    assert FutureOk(f, Registered(w), w.h.failed);
    if f.origin.Start? {
      StartsIn(w.s.futures, i);
    }
    forall e | e in w.s.sent && e.cause == StartResult && f.origin.Start? ensures e.processingId != f.id {
      CountedIn(w.s.sent, e);
    }
    EventsAppended(w.s.sent, Report(f, requests), requests, w.h.failed, ApplyCollect(w, i).h.failed);
  }

  lemma EventsAppended(sent: seq<StateEvent>, e: StateEvent, requests: map<ProcessingId, Settings>,
                       failed: set<ProcessingId>, failed': set<ProcessingId>)
    requires EventsTrue(sent, requests, failed) && EventTrue(e, requests, failed')
    requires failed <= failed' && forall d :: d in sent && d.cause == StartResult && d.processingId in failed' ==> d.processingId in failed
    ensures EventsTrue(sent + [e], requests, failed')
  {
  }

  lemma {:induction false} LostEventsTrue<A>(s: State<A>, url: Url, refs: seq<A>, requests: map<ProcessingId, Settings>, failed: set<ProcessingId>)
    requires forall a :: a in s.objects ==> Requested(requests, s.objects[a].settings.processingId, s.objects[a].settings)
    ensures EventsTrue(s.LostEvents(url, refs), requests, failed)
  {
    if refs != [] {
      LostEventsTrue(s, url, refs[1..], requests, failed);
    }
  }

  lemma ActiveStep<A>(w: World<A>, e: Event<A>)
    requires AllActive(w.s)
    ensures AllActive(Apply(w, e).s)
  {
  }

  lemma EventsStep<A>(w: World<A>, requests: map<ProcessingId, Settings>, e: Event<A>)
    requires Inv(w) && AsRequested(w, requests) && AllActive(w.s) && EventsTrue(w.s.sent, requests, w.h.failed)
    requires Legal(w, e)
    requires e.CollectResult? ==> w.s.CollectDefined(e.i)
    ensures EventsTrue(Apply(w, e).s.sent, requests, Apply(w, e).h.failed)
  {
    if e.CollectResult? {
      EventsCollect(w, requests, e.i);
    } else if e.LoseSource? {
      LostEventsTrue(w.s, e.url, w.s.analyzers, requests, w.h.failed);
    } else {
      SendsNothing(w, e);
    }
  }

  lemma SendsNothing<A>(w: World<A>, e: Event<A>)
    requires !e.CollectResult? && !e.LoseSource?
    ensures Apply(w, e).s.sent == w.s.sent && Apply(w, e).h.failed == w.h.failed
  {
  }

  /** A start is accepted under a new id, of which no event speaks. */
  lemma EventsExtended(sent: seq<StateEvent>, requests: map<ProcessingId, Settings>, failed: set<ProcessingId>, id: ProcessingId, st: Settings)
    requires EventsTrue(sent, requests, failed) && id !in requests
    ensures EventsTrue(sent, requests[id := st], failed)
  {
  }

  lemma EventsNext<A>(sessions: map<SensorId, int>, es: seq<Event<A>>, k: nat)
    requires LegalRun(sessions, es) && k < |es| && DefinedAt(sessions, es, k)
    requires var w := After(sessions, es[..k]);
      AllActive(w.s) && EventsTrue(w.s.sent, Requests(sessions, es[..k]), w.h.failed)
    ensures var w := After(sessions, es[..k + 1]);
      AllActive(w.s) && EventsTrue(w.s.sent, Requests(sessions, es[..k + 1]), w.h.failed)
  {
    var w, e := After(sessions, es[..k]), es[k];
    LegalPrefix(sessions, es, k);
    LegalPrefix(sessions, es, k + 1);
    RequestsHold(sessions, es[..k]);
    RequestsNext(sessions, es[..k + 1]);
    AfterStep(sessions, es, k);
    assert es[..k + 1][..k] == es[..k];
    ActiveStep(w, e);
    EventsStep(w, Requests(sessions, es[..k]), e);
    if e.StartAnalyze? && !w.s.Refuses(e.st) {
      EventsExtended(Apply(w, e).s.sent, Requests(sessions, es[..k]), Apply(w, e).h.failed, e.st.processingId, e.st.(sourceUrl := e.url));
    }
  }

  lemma {:induction false} EventsHold<A>(sessions: map<SensorId, int>, es: seq<Event<A>>, k: nat)
    requires LegalRun(sessions, es) && k <= |es| && forall i: nat :: i < |es| ==> DefinedAt(sessions, es, i)
    ensures var w := After(sessions, es[..k]);
      AllActive(w.s) && EventsTrue(w.s.sent, Requests(sessions, es[..k]), w.h.failed)
  {
    if k > 0 {
      EventsHold(sessions, es, k - 1);
      EventsNext(sessions, es, k - 1);
    }
  }

  /** If nobody stops an id whose future is uncollected, every event of a run names the sensor of its
      request, and reports it as crushed exactly if its source was lost or its start failed. With
      `StartProtocol`: each collected start has one result event, which says so. */
  lemma {:induction false} ReportsTrue<A>(sessions: map<SensorId, int>, es: seq<Event<A>>)
    requires LegalRun(sessions, es) && forall k: nat :: k < |es| ==> StopsCollectedAt(sessions, es, k)
    ensures var w := After(sessions, es); EventsTrue(w.s.sent, Requests(sessions, es), w.h.failed)
  {
    StartProtocol(sessions, es);
    assert es[..|es|] == es;
    EventsHold(sessions, es, |es|);
  }

  // Source loss.

  /** The reports of the analyzers that had this address, in order. */
  function Crashes<A(==)>(objects: map<A, Analyzer>, refs: seq<A>, url: Url): seq<StateEvent>
    requires forall a :: a in refs ==> a in objects
  {
    if refs == [] then []
    else
      var st := objects[refs[0]].settings;
      var rest := Crashes(objects, refs[1..], url);
      if st.sourceUrl == url then [StateEvent(st.processingId, st.sensorId, CRUSHED, SourceLost)] + rest else rest
  }

  lemma {:induction false} LostEventsAre<A>(s: State<A>, url: Url, refs: seq<A>)
    requires forall a :: a in refs ==> a in s.objects
    ensures s.LostEvents(url, refs) == Crashes(s.objects, refs, url)
  {
    if refs != [] {
      LostEventsAre(s, url, refs[1..]);
    }
  }

  /** A loss takes exactly the vector's analyzers of this address, reports them in order, and leaves the
      map, the analyzers and everything else. */
  lemma LossTakes<A>(s: State<A>, url: Url)
    requires forall a :: a in s.analyzers ==> a in s.objects
    ensures forall a :: a in s.analyzers ==> (a in s.Lose(url).analyzers <==> s.objects[a].settings.sourceUrl != url)
    ensures forall a :: a in s.Lose(url).analyzers ==> a in s.analyzers
    ensures s.Lose(url).sent == s.sent + Crashes(s.objects, s.analyzers, url)
    ensures s.Lose(url) == s.(analyzers := s.Lose(url).analyzers, sent := s.Lose(url).sent)
  {
    OffSourceMembers(s, url, s.analyzers);
    LostEventsAre(s, url, s.analyzers);
  }

  /** Step `k` loses the address with which the id was requested, and finds the id registered. */
  ghost predicate LostAt<A>(sessions: map<SensorId, int>, es: seq<Event<A>>, id: ProcessingId, k: nat) {
    && k < |es| && id in Requests(sessions, es) && es[k] == LoseSource(Requests(sessions, es)[id].sourceUrl)
    && id in After(sessions, es[..k]).s.byId
  }

  ghost predicate WasLost<A>(sessions: map<SensorId, int>, es: seq<Event<A>>, id: ProcessingId) {
    exists k: nat :: LostAt(sessions, es, id, k)
  }

  lemma RegisteredGrows<A>(w: World<A>, e: Event<A>)
    requires Legal(w, e)
    ensures Registered(w) <= Registered(Apply(w, e))
  {
  }

  lemma {:induction false} RegisteredStays<A>(sessions: map<SensorId, int>, es: seq<Event<A>>, k: nat)
    requires LegalRun(sessions, es) && k <= |es|
    ensures After(sessions, es[..k]).s.byId.Keys <= Registered(After(sessions, es))
    decreases |es|
  {
    if k < |es| {
      var n := |es| - 1;
      assert Legal(After(sessions, es[..n]), es[n]);
      hide After, Apply, LegalRun, Legal, Inv;
      LegalPrefix(sessions, es, n);
      RegisteredStays(sessions, es[..n], k);
      assert es[..n][..k] == es[..k] && es[..n + 1] == es;
      AfterStep(sessions, es, n);
      RegisteredGrows(After(sessions, es[..n]), es[n]);
    } else {
      assert es[..k] == es;
    }
  }

  lemma LastLegal<A>(sessions: map<SensorId, int>, es: seq<Event<A>>)
    requires LegalRun(sessions, es) && es != []
    ensures Legal(After(sessions, es[..|es| - 1]), es[|es| - 1])
  {
  }

  /** A request of an id that was registered at any time does not change any more. */
  lemma RequestStays<A>(sessions: map<SensorId, int>, es: seq<Event<A>>, id: ProcessingId, k: nat)
    requires LegalRun(sessions, es) && es != [] && k < |es| && id in After(sessions, es[..k]).s.byId
    ensures var before := Requests(sessions, es[..|es| - 1]);
      id in before && id in Requests(sessions, es) && Requests(sessions, es)[id] == before[id]
  {
    var n := |es| - 1;
    var w := After(sessions, es[..n]);
    LastLegal(sessions, es);
    hide *;
    LegalPrefix(sessions, es, n);
    RequestsHold(sessions, es[..n]);
    RequestsNext(sessions, es);
    RegisteredStays(sessions, es[..n], k);
    assert es[..n][..k] == es[..k];
    RequestKept(w, Requests(sessions, es[..n]), es[n], id);
  }

  lemma RequestKept<A>(w: World<A>, requests: map<ProcessingId, Settings>, e: Event<A>, id: ProcessingId)
    requires Inv(w) && AsRequested(w, requests) && Legal(w, e) && id in Registered(w)
    ensures id in requests && (e.StartAnalyze? ==> e.st.processingId != id)
  {
  }

  lemma LostAtPrefix<A>(sessions: map<SensorId, int>, es: seq<Event<A>>, id: ProcessingId, k: nat)
    requires LegalRun(sessions, es) && es != [] && k < |es| - 1
    ensures LostAt(sessions, es, id, k) <==> LostAt(sessions, es[..|es| - 1], id, k)
  {
    assert es[..|es| - 1][..k] == es[..k];
    if id in After(sessions, es[..k]).s.byId {
      hide After, Requests, LegalRun;
      RequestStays(sessions, es, id, k);
    }
  }

  lemma LostAtLast<A>(sessions: map<SensorId, int>, es: seq<Event<A>>, id: ProcessingId)
    requires LegalRun(sessions, es) && es != []
    ensures var n := |es| - 1; var requests := Requests(sessions, es[..n]);
      LostAt(sessions, es, id, n) <==>
        id in After(sessions, es[..n]).s.byId && id in requests && es[n] == LoseSource(requests[id].sourceUrl)
  {
    if id in After(sessions, es[..|es| - 1]).s.byId {
      hide After, Requests, LegalRun;
      RequestStays(sessions, es, id, |es| - 1);
    }
  }

  /** What the last step adds to the losses. */
  lemma {:induction false} WasLostNext<A>(sessions: map<SensorId, int>, es: seq<Event<A>>, id: ProcessingId)
    requires LegalRun(sessions, es) && es != []
    ensures var n := |es| - 1; var w := After(sessions, es[..n]); var requests := Requests(sessions, es[..n]);
      WasLost(sessions, es, id) <==>
        WasLost(sessions, es[..n], id) || (id in w.s.byId && id in requests && es[n] == LoseSource(requests[id].sourceUrl))
  {
    var n := |es| - 1;
    LostAtLast(sessions, es, id);
    forall k: nat | k < n ensures LostAt(sessions, es, id, k) <==> LostAt(sessions, es[..n], id, k) {
      LostAtPrefix(sessions, es, id, k);
    }
    assert forall k: nat :: LostAt(sessions, es, id, k) ==> k <= n;
    assert forall k: nat :: LostAt(sessions, es[..n], id, k) ==> k < n;
    hide LostAt, After, Requests, LegalRun;
    if WasLost(sessions, es, id) {
      var k: nat :| LostAt(sessions, es, id, k);
      assert k < n ==> LostAt(sessions, es[..n], id, k);
    }
    if WasLost(sessions, es[..n], id) {
      var k: nat :| LostAt(sessions, es[..n], id, k);
      assert LostAt(sessions, es, id, k);
    }
  }

  lemma LostRegistered<A>(sessions: map<SensorId, int>, es: seq<Event<A>>, id: ProcessingId)
    requires LegalRun(sessions, es) && WasLost(sessions, es, id)
    ensures id in Registered(After(sessions, es))
  {
    var k: nat :| LostAt(sessions, es, id, k);
    RegisteredStays(sessions, es, k);
  }

  /** A loss drops exactly the registered analyses of its address. */
  lemma DroppedLoss<A>(w: World<A>, requests: map<ProcessingId, Settings>, url: Url, id: ProcessingId)
    requires Indexes(w) && AsRequested(w, requests)
    ensures id in ApplyLose(w, url).h.dropped <==>
      id in w.h.dropped || (id in w.s.byId && id in requests && requests[id].sourceUrl == url)
  {
    if id in w.s.byId {
      var a := w.s.byId[id];
      assert Requested(requests, id, w.s.objects[a].settings);
    }
    if id in ApplyLose(w, url).h.dropped && id !in w.h.dropped {
      var a :| a in w.s.analyzers && w.s.OnSource(a, url) && w.s.objects[a].settings.processingId == id;
      assert IdOf(w.s.objects, a) == id;
    }
  }

  lemma DroppedStep<A>(w: World<A>, requests: map<ProcessingId, Settings>, e: Event<A>, id: ProcessingId, lost: bool)
    requires Inv(w) && AsRequested(w, requests) && Legal(w, e)
    requires lost ==> id in Registered(w)
    requires id in w.h.dropped <==> id in w.s.byId && lost
    ensures var w' := Apply(w, e);
      id in w'.h.dropped <==>
        id in w'.s.byId && (lost || (id in w.s.byId && id in requests && e == LoseSource(requests[id].sourceUrl)))
  {
    if e.LoseSource? {
      DroppedLoss(w, requests, e.url, id);
    } else {
      KeysStep(w, e);
      hide Apply, Protocol, AsRequested, LogOk, ResultsOk;
    }
  }

  /** The ids a step takes out of the map and those it puts in. */
  lemma KeysStep<A>(w: World<A>, e: Event<A>)
    requires Protocol(w) && Legal(w, e) && !e.LoseSource?
    ensures var w' := Apply(w, e);
      var stopped := if e.StopAnalyze? && w.s.Find(e.id).Some? then {e.id} else {};
      var registered := if e.RegisterAnalyzer? then {w.s.futures[e.i].id} else {};
      && w'.s.byId.Keys == (w.s.byId.Keys - stopped) + registered && w'.h.dropped == w.h.dropped - stopped
      && registered !! Registered(w)
  {
    if e.RegisterAnalyzer? {
      assert FutureOk(w.s.futures[e.i], Registered(w), w.h.failed);
    }
    hide FutureOk, FuturesOk, RecordsOk, FatesOk;
  }

  lemma {:induction false} DroppedByLoss<A>(sessions: map<SensorId, int>, es: seq<Event<A>>, id: ProcessingId)
    requires LegalRun(sessions, es)
    ensures id in After(sessions, es).h.dropped <==> id in After(sessions, es).s.byId && WasLost(sessions, es, id)
  {
    if es != [] {
      var n := |es| - 1;
      var w := After(sessions, es[..n]);
      LegalPrefix(sessions, es, n);
      DroppedByLoss(sessions, es[..n], id);
      RequestsHold(sessions, es[..n]);
      WasLostNext(sessions, es, id);
      if WasLost(sessions, es[..n], id) {
        LostRegistered(sessions, es[..n], id);
      }
      assert Legal(w, es[n]);
      DroppedStep(w, Requests(sessions, es[..n]), es[n], id, WasLost(sessions, es[..n], id));
    }
  }

  /** Over every run a registered analysis is in the vector if and only if the address it was requested
      with has not been lost since it registered. */
  lemma {:induction false} InVectorUnlessLost<A>(sessions: map<SensorId, int>, es: seq<Event<A>>, id: ProcessingId)
    requires LegalRun(sessions, es) && id in After(sessions, es).s.byId
    ensures After(sessions, es).s.byId[id] in After(sessions, es).s.analyzers <==> !WasLost(sessions, es, id)
  {
    DroppedByLoss(sessions, es, id);
    assert es[..|es|] == es;
    InvHolds(sessions, es, |es|);
  }
}
