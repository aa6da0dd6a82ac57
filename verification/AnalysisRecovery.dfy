/** The write-ahead log against the fates of the accepted starts, and the result events. */
module AnalysisRecovery {
  import opened Common
  import opened AnalysisModel
  import opened AnalysisProtocol
  import opened AnalysisIndexes

  /** What a restart should start again: the analyses neither failed nor destroyed. */
  function Interrupted(h: History): set<ProcessingId> {
    h.accepted - h.failed - h.destroyed
  }

  function OpeningIds(c: Command): set<ProcessingId> {
    if c.Opening? then {c.id} else {}
  }

  function ClosingIds(c: Command): set<ProcessingId> {
    if c.Closing? then {c.id} else {}
  }

  /** The log as it should be, given how far the current command has come. */
  function Expected(c: Command, h: History): set<ProcessingId> {
    Interrupted(h) - OpeningIds(c) + ClosingIds(c)
  }

  ghost predicate LogOk(open: set<ProcessingId>, c: Command, h: History) {
    && open == Expected(c, h) + h.stray
    && h.stray <= h.failed + h.destroyed && h.stray !! ClosingIds(c)
    && OpeningIds(c) <= h.accepted - h.destroyed && ClosingIds(c) <= h.destroyed
  }

  ghost predicate LogExact<A>(w: World<A>) {
    w.s.openOperations == Expected(w.command, w.h)
  }

  /** The step leaves an entry behind: a start that failed before its command opened the entry, or a
      stop whose source address is empty. */
  ghost predicate LeavesStray<A>(w: World<A>, e: Event<A>) {
    || (e.OpenOperation? && w.command.Opening? && w.command.id in w.h.failed)
    || (e.StopAnalyze? && w.s.Find(e.id).Some? && e.url == "")
  }

  lemma LogCollect<A>(w: World<A>, i: nat)
    requires LogOk(w.s.openOperations, w.command, w.h) && Protocol(w) && w.s.Ready(i)
    ensures var w' := ApplyCollect(w, i); LogOk(w'.s.openOperations, w'.command, w'.h)
  {
    var f := w.s.futures[i];
    assert FutureOk(f, Registered(w), w.h.failed);
    if !f.result.value {
      StartsIn(w.s.futures, i);
      assert f.id in w.h.accepted && f.id !in w.h.stray;
    }
  }

  lemma LogStop<A>(w: World<A>, id: ProcessingId, url: Url)
    requires LogOk(w.s.openOperations, w.command, w.h) && Protocol(w) && w.command.Idle?
    ensures var w' := ApplyStop(w, id, url); LogOk(w'.s.openOperations, w'.command, w'.h)
  {
    if w.s.Find(id).Some? {
      assert id in w.s.byId.Keys && id in Interrupted(w.h) && id !in w.h.stray;
    }
  }

  lemma LogStep<A>(w: World<A>, e: Event<A>)
    requires LogOk(w.s.openOperations, w.command, w.h) && Protocol(w) && Legal(w, e)
    ensures var w' := Apply(w, e); LogOk(w'.s.openOperations, w'.command, w'.h)
  {
    match e
    case CollectResult(i) => LogCollect(w, i);
    case StopAnalyze(id, url) => LogStop(w, id, url);
    case StartAnalyze(st, url) => assert st.processingId !in w.h.failed + w.h.destroyed;
    case OpenOperation =>
    case CloseOperation =>
    case RegisterAnalyzer(_, _) =>
    case FinishStart(_, _) =>
    case LoseSource(_) =>
    case ResumeAnalyze(_) =>
  }

  lemma LogExactIffNoStray<A>(w: World<A>)
    requires LogOk(w.s.openOperations, w.command, w.h)
    ensures LogExact(w) <==> w.h.stray == {}
  {
  }

  lemma StrayStep<A>(w: World<A>, e: Event<A>)
    requires Legal(w, e) && w.h.stray == {}
    ensures Apply(w, e).h.stray == {} <==> !LeavesStray(w, e)
  {
  }

  // Result events.

  function CountResults(sent: seq<StateEvent>, id: ProcessingId): nat {
    if sent == [] then 0
    else
      var last := sent[|sent| - 1];
      CountResults(sent[..|sent| - 1], id) + if last.processingId == id && last.cause.StartResult? then 1 else 0
  }

  lemma CountAppended(sent: seq<StateEvent>, e: StateEvent, id: ProcessingId)
    ensures CountResults(sent + [e], id) ==
      CountResults(sent, id) + if e.processingId == id && e.cause.StartResult? then 1 else 0
  {
  }

  lemma {:induction false} CountLost<A>(s: State<A>, sent: seq<StateEvent>, url: Url, refs: seq<A>, id: ProcessingId)
    ensures CountResults(sent + s.LostEvents(url, refs), id) == CountResults(sent, id)
    decreases |refs|
  {
    if refs == [] {
      assert sent + [] == sent;
    } else if s.OnSource(refs[0], url) {
      var e := s.LostEvent(refs[0]);
      CountAppended(sent, e, id);
      CountLost(s, sent + [e], url, refs[1..], id);
      assert sent + s.LostEvents(url, refs) == sent + [e] + s.LostEvents(url, refs[1..]);
    } else {
      CountLost(s, sent, url, refs[1..], id);
      assert s.LostEvents(url, refs) == s.LostEvents(url, refs[1..]);
    }
  }

  /** Every accepted and collected start has had one result event; the uncollected have had none. */
  ghost predicate ResultsOk(sent: seq<StateEvent>, starts: set<ProcessingId>, accepted: set<ProcessingId>) {
    forall id :: CountResults(sent, id) == if id in accepted && id !in starts then 1 else 0
  }

  lemma ResultsCollect<A>(w: World<A>, i: nat)
    requires ResultsOk(w.s.sent, StartIds(w.s.futures), w.h.accepted)
    requires Protocol(w) && MapOk(w.s.objects, w.s.byId) && w.s.Ready(i)
    ensures var w' := ApplyCollect(w, i); ResultsOk(w'.s.sent, StartIds(w'.s.futures), w'.h.accepted)
  {
    var f := w.s.futures[i];
    var e := w.s.ResultEvent(f);
    var w' := ApplyCollect(w, i);
    StartIdsErased(w.s.futures, i);
    if f.origin.Start? {
      StartsIn(w.s.futures, i);
    }
    assert e.processingId == f.id;
    forall id ensures CountResults(w'.s.sent, id) == if id in w.h.accepted && id !in StartIds(w'.s.futures) then 1 else 0 {
      CountAppended(w.s.sent, e, id);
    }
  }

  lemma {:induction false} ResultsStep<A>(w: World<A>, e: Event<A>)
    requires ResultsOk(w.s.sent, StartIds(w.s.futures), w.h.accepted)
    requires Protocol(w) && MapOk(w.s.objects, w.s.byId) && Legal(w, e)
    ensures var w' := Apply(w, e); ResultsOk(w'.s.sent, StartIds(w'.s.futures), w'.h.accepted)
  {
    match e
    case CollectResult(i) => ResultsCollect(w, i);
    case StartAnalyze(st, url) => StartIdsAppended(w.s.futures, Future(st.processingId, Start(w.s.Launched(st, url)), None));
    case FinishStart(i, ok) => StartIdsUpdated(w.s.futures, i, w.s.futures[i].(result := Some(ok)));
    case LoseSource(url) =>
      forall id ensures CountResults(w.s.sent + w.s.LostEvents(url, w.s.analyzers), id) == CountResults(w.s.sent, id) {
        CountLost(w.s, w.s.sent, url, w.s.analyzers, id);
      }
    case ResumeAnalyze(id) => StartIdsAppended(w.s.futures, Future(id, Resume, None));
    case StopAnalyze(_, _) =>
    case OpenOperation =>
    case CloseOperation =>
    case RegisterAnalyzer(_, _) =>
  }
}
