/** The start protocol: futures, start records and the fates of the accepted starts. */
module AnalysisProtocol {
  import opened Common
  import opened AnalysisModel

  /** `registered` are the ids whose start has registered, stopped since or not. */
  ghost predicate FutureOk(f: Future, registered: set<ProcessingId>, failed: set<ProcessingId>) {
    && f.id != ""
    && match f.origin
       case Start(st) =>
         && st.processingId == f.id && f.id !in failed
         && (f.result == Some(true) ==> f.id in registered) && (f.result == Some(false) ==> f.id !in registered)
       case Resume => f.id in registered && f.result != Some(false)
  }

  /** At most one start is uncollected, and no future contradicts what has registered. */
  ghost predicate FuturesOk(fs: seq<Future>, registered: set<ProcessingId>, failed: set<ProcessingId>) {
    && (forall i :: 0 <= i < |fs| ==> FutureOk(fs[i], registered, failed))
    && (forall i, j :: 0 <= i < j < |fs| ==> !(fs[i].origin.Start? && fs[j].origin.Start?))
  }

  /** The records are the uncollected and the failed starts, less those that lost their record to a
      stop, and less the uncollected starts that lost it to an early resume; those are registered. */
  ghost predicate RecordsOk(records: set<ProcessingId>, starts: set<ProcessingId>, registered: set<ProcessingId>, h: History) {
    && records == ((starts - h.early) + h.failed) - h.dismissed
    && h.early <= registered && h.dismissed <= h.accepted
  }

  /** Every accepted start is uncollected or registered, or has failed, or was destroyed. */
  ghost predicate FatesOk(starts: set<ProcessingId>, known: set<ProcessingId>, h: History) {
    && h.accepted == starts + known + h.failed + h.destroyed
    && known !! h.failed && known !! h.destroyed && h.failed !! h.destroyed
    && starts !! h.failed && "" !in known
  }

  ghost predicate Protocol<A>(w: World<A>) {
    var starts := StartIds(w.s.futures);
    && FuturesOk(w.s.futures, Registered(w), w.h.failed)
    && RecordsOk(w.s.records.Keys, starts, Registered(w), w.h)
    && FatesOk(starts, w.s.byId.Keys, w.h)
  }

  lemma StartIdsAppended(fs: seq<Future>, f: Future)
    ensures StartIds(fs + [f]) == StartIds(fs) + if f.origin.Start? then {f.id} else {}
  {
  }

  lemma StartIdsUpdated(fs: seq<Future>, i: nat, f: Future)
    requires i < |fs| && f.id == fs[i].id && f.origin == fs[i].origin
    ensures StartIds(fs[i := f]) == StartIds(fs)
  {
    var fs' := fs[i := f];
    forall id | id in StartIds(fs) ensures id in StartIds(fs') {
      var k :| 0 <= k < |fs| && fs[k].origin.Start? && fs[k].id == id;
      assert fs'[k] in fs' && fs'[k].id == id;
    }
    forall id | id in StartIds(fs') ensures id in StartIds(fs) {
      var k :| 0 <= k < |fs| && fs'[k].origin.Start? && fs'[k].id == id;
      assert fs[k] in fs && fs[k].id == id;
    }
  }

  lemma StartIdsErased(fs: seq<Future>, i: nat)
    requires i < |fs|
    requires forall j, k :: 0 <= j < k < |fs| ==> !(fs[j].origin.Start? && fs[k].origin.Start?)
    ensures StartIds(Erased(fs, i)) == if fs[i].origin.Start? then {} else StartIds(fs)
    ensures fs[i].origin.Start? ==> StartIds(fs) == {fs[i].id}
  {
  }

  lemma StartsIn(fs: seq<Future>, i: nat)
    requires i < |fs| && fs[i].origin.Start?
    ensures fs[i].id in StartIds(fs)
  {
  }

  lemma FuturesErased(fs: seq<Future>, i: nat, registered: set<ProcessingId>, failed: set<ProcessingId>, failed': set<ProcessingId>)
    requires i < |fs| && FuturesOk(fs, registered, failed)
    requires forall k :: 0 <= k < |fs| && k != i && fs[k].origin.Start? ==> fs[k].id !in failed'
    ensures FuturesOk(Erased(fs, i), registered, failed')
  {
  }

  /** No future minds a registration of a start that is still running. */
  lemma FuturesRegistered(fs: seq<Future>, i: nat, registered: set<ProcessingId>, failed: set<ProcessingId>)
    requires i < |fs| && fs[i].origin.Start? && fs[i].result.None? && FuturesOk(fs, registered, failed)
    ensures FuturesOk(fs, registered + {fs[i].id}, failed)
  {
    forall k | 0 <= k < |fs| ensures FutureOk(fs[k], registered + {fs[i].id}, failed) {
      assert FutureOk(fs[k], registered, failed);
    }
  }

  lemma ProtocolStart<A>(w: World<A>, st: Settings, url: Url)
    requires Protocol(w) && Legal(w, StartAnalyze(st, url)) && !w.s.Refuses(st)
    ensures Protocol(ApplyStart(w, st, url))
  {
    var f := Future(st.processingId, Start(w.s.Launched(st, url)), None);
    StartIdsAppended(w.s.futures, f);
    assert w.s.futures == [] && StartIds([]) == {};
    var w' := ApplyStart(w, st, url);
    assert w'.s.futures == [f];
    assert w'.s.records.Keys == w.s.records.Keys + {st.processingId};
    assert FutureOk(f, Registered(w), w.h.failed);
  }

  lemma ProtocolRegister<A>(w: World<A>, i: nat, a: A)
    requires Protocol(w) && Legal(w, RegisterAnalyzer(i, a))
    ensures w.s.futures[i].origin.settings.processingId == w.s.futures[i].id
    ensures Protocol(ApplyRegister(w, i, a))
  {
    var f := w.s.futures[i];
    assert FutureOk(f, Registered(w), w.h.failed);
    StartsIn(w.s.futures, i);
    var w' := ApplyRegister(w, i, a);
    assert w'.s.byId.Keys == w.s.byId.Keys + {f.id};
    assert Registered(w') == Registered(w) + {f.id};
    FuturesRegistered(w.s.futures, i, Registered(w), w.h.failed);
  }

  lemma ProtocolFinish<A>(w: World<A>, i: nat, ok: bool)
    requires Protocol(w) && Legal(w, FinishStart(i, ok))
    ensures Protocol(w.(s := w.s.Finish(i, ok)))
  {
    var fs := w.s.futures;
    StartIdsUpdated(fs, i, fs[i].(result := Some(ok)));
    assert FutureOk(fs[i], Registered(w), w.h.failed);
  }

  lemma CollectFutures<A>(w: World<A>, i: nat)
    requires Protocol(w) && w.s.Ready(i)
    ensures var w' := ApplyCollect(w, i); FuturesOk(w'.s.futures, Registered(w'), w'.h.failed)
  {
    hide RecordsOk, FatesOk;
    var fs := w.s.futures;
    var w' := ApplyCollect(w, i);
    assert FutureOk(fs[i], Registered(w), w.h.failed);
    forall k | 0 <= k < |fs| && k != i && fs[k].origin.Start? ensures fs[k].id !in w'.h.failed {
      assert FutureOk(fs[k], Registered(w), w.h.failed);
    }
    FuturesErased(fs, i, Registered(w), w.h.failed, w'.h.failed);
  }

  lemma {:induction false} ProtocolCollect<A>(w: World<A>, i: nat)
    requires Protocol(w) && w.s.Ready(i)
    ensures Protocol(ApplyCollect(w, i))
  {
    CollectFutures(w, i);
    var fs := w.s.futures;
    var f := fs[i];
    assert FutureOk(f, Registered(w), w.h.failed);
    StartIdsErased(fs, i);
    if f.origin.Start? {
      StartsIn(fs, i);
    }
    hide FuturesOk;
    var w' := ApplyCollect(w, i);
    assert w'.s.records.Keys == if f.result.value then w.s.records.Keys - {f.id} else w.s.records.Keys;
  }

  lemma StopRegistered<A>(w: World<A>, id: ProcessingId, url: Url)
    ensures var w' := ApplyStop(w, id, url);
      && Registered(w') == Registered(w) && w'.s.futures == w.s.futures && w'.h.failed == w.h.failed
      && w'.s.byId.Keys == (if w.s.Find(id).Some? then w.s.byId.Keys - {id} else w.s.byId.Keys)
      && w'.s.records.Keys == (if w.s.Find(id).Some? then w.s.records.Keys else w.s.records.Keys - {id})
  {
  }

  lemma ProtocolStop<A>(w: World<A>, id: ProcessingId, url: Url)
    requires Protocol(w)
    ensures Protocol(ApplyStop(w, id, url))
  {
    StopRegistered(w, id, url);
    hide FuturesOk;
  }

  lemma ProtocolResume<A>(w: World<A>, id: ProcessingId)
    requires Protocol(w)
    ensures Protocol(ApplyResume(w, id))
  {
    var f := Future(id, Resume, None);
    StartIdsAppended(w.s.futures, f);
    if w.s.Find(id).Some? {
      assert FutureOk(f, Registered(w), w.h.failed);
    }
  }

  lemma {:induction false} ProtocolStep<A>(w: World<A>, e: Event<A>)
    requires Protocol(w) && Legal(w, e)
    ensures Protocol(Apply(w, e))
  {
    match e
    case StartAnalyze(st, url) => if !w.s.Refuses(st) { ProtocolStart(w, st, url); }
    case RegisterAnalyzer(i, a) => ProtocolRegister(w, i, a);
    case FinishStart(i, ok) => ProtocolFinish(w, i, ok);
    case CollectResult(i) => ProtocolCollect(w, i);
    case StopAnalyze(id, url) => ProtocolStop(w, id, url);
    case ResumeAnalyze(id) => ProtocolResume(w, id);
    case OpenOperation =>
    case CloseOperation =>
    case LoseSource(_) =>
  }
}
