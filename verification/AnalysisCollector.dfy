/** The collector: when its lookups succeed, and what a whole pass does. */
module AnalysisCollector {
  import opened Common
  import opened AnalysisModel
  import opened AnalysisProtocol
  import opened AnalysisIndexes
  import opened AnalysisRecovery
  import opened AnalysisRuns

  // Lookups.

  /** The future can be collected whatever its thread returns: a success finds its analyzer, a failure
      its start record. A start that has not registered needs the record, one that has is found. */
  ghost predicate Collectable<A>(w: World<A>, f: Future) {
    match f.result
    case Some(true) => w.s.Find(f.id).Some?
    case Some(false) => w.s.Find(f.id).Some? || f.id in w.s.records
    case None => w.s.Find(f.id).Some? || (f.origin.Start? && f.id in w.s.records && f.id !in w.h.destroyed)
  }

  ghost predicate AllCollectable<A>(w: World<A>) {
    forall f :: f in w.s.futures ==> Collectable(w, f)
  }

  /** For a future whose thread has returned that is what its collection needs. */
  lemma CollectDefinedIff<A>(w: World<A>, i: nat)
    requires MapOk(w.s.objects, w.s.byId) && w.s.Ready(i)
    ensures w.s.CollectDefined(i) <==> Collectable(w, w.s.futures[i])
  {
  }

  /** Nobody stops an id whose future is uncollected. */
  ghost predicate StopsCollected<A>(w: World<A>, e: Event<A>) {
    e.StopAnalyze? ==> forall f :: f in w.s.futures ==> f.id != e.id
  }

  /** A stop of an id with an uncollected future leaves that future nothing to find. */
  lemma StopUncollected<A>(w: World<A>, id: ProcessingId, url: Url, f: Future)
    requires Inv(w) && f in w.s.futures && f.id == id
    ensures !Collectable(ApplyStop(w, id, url), f)
  {
    var i :| 0 <= i < |w.s.futures| && w.s.futures[i] == f;
    assert FutureOk(f, Registered(w), w.h.failed);
    StopRegistered(w, id, url);
    hide RecordsOk, FatesOk;
  }

  lemma CollectableStart<A>(w: World<A>, st: Settings, url: Url)
    requires Inv(w) && Legal(w, StartAnalyze(st, url)) && !w.s.Refuses(st)
    ensures AllCollectable(ApplyStart(w, st, url))
  {
    var w' := ApplyStart(w, st, url);
    assert w'.s.futures == [Future(st.processingId, Start(w.s.Launched(st, url)), None)];
    assert st.processingId in w'.s.records && st.processingId !in w'.h.destroyed;
  }

  lemma CollectableFinish<A>(w: World<A>, i: nat, ok: bool)
    requires Inv(w) && AllCollectable(w) && Legal(w, FinishStart(i, ok))
    ensures AllCollectable(w.(s := w.s.Finish(i, ok)))
  {
    var fs := w.s.futures;
    assert FutureOk(fs[i], Registered(w), w.h.failed);
    assert fs[i] in fs && Collectable(w, fs[i]);
    var w', done := w.(s := w.s.Finish(i, ok)), fs[i].(result := Some(ok));
    assert Collectable(w', done);
    forall f | f in w'.s.futures ensures Collectable(w', f) {
      if f != done {
        assert f in fs && Collectable(w, f);
      }
    }
  }

  /** A collected success leaves its analyzer, so the record it takes is not missed. */
  lemma CollectableCollect<A>(w: World<A>, i: nat)
    requires Inv(w) && AllCollectable(w) && w.s.Ready(i)
    ensures AllCollectable(ApplyCollect(w, i))
  {
    var fs := w.s.futures;
    assert fs[i] in fs && Collectable(w, fs[i]);
    forall f | f in Erased(fs, i) ensures Collectable(ApplyCollect(w, i), f) {
      assert f in fs && Collectable(w, f);
    }
  }

  lemma CollectableStop<A>(w: World<A>, id: ProcessingId, url: Url)
    requires Inv(w) && AllCollectable(w)
    ensures AllCollectable(ApplyStop(w, id, url)) <==> StopsCollected(w, StopAnalyze(id, url))
  {
    var w' := ApplyStop(w, id, url);
    StopRegistered(w, id, url);
    if f :| f in w.s.futures && f.id == id {
      StopUncollected(w, id, url, f);
    } else {
      forall f | f in w.s.futures ensures Collectable(w', f) {
        assert Collectable(w, f) && f.id != id;
      }
    }
  }

  lemma CollectableResume<A>(w: World<A>, id: ProcessingId)
    requires Inv(w) && AllCollectable(w)
    ensures AllCollectable(ApplyResume(w, id))
  {
    forall f | f in w.s.futures + [Future(id, Resume, None)] ensures f in w.s.futures || f == Future(id, Resume, None) {}
  }

  lemma CollectableStep<A>(w: World<A>, e: Event<A>)
    requires Inv(w) && Legal(w, e) && AllCollectable(w)
    ensures AllCollectable(Apply(w, e)) <==> StopsCollected(w, e)
  {
    match e
    case StartAnalyze(st, url) => if !w.s.Refuses(st) { CollectableStart(w, st, url); }
    case FinishStart(i, ok) => CollectableFinish(w, i, ok);
    case CollectResult(i) => CollectableCollect(w, i);
    case StopAnalyze(id, url) => CollectableStop(w, id, url);
    case ResumeAnalyze(id) => CollectableResume(w, id);
    case RegisterAnalyzer(i, a) =>
      forall f | f in w.s.futures ensures Collectable(ApplyRegister(w, i, a), f) {
        assert Collectable(w, f);
      }
    case OpenOperation =>
    case CloseOperation =>
    case LoseSource(_) =>
  }

  ghost predicate CollectableAt<A>(sessions: map<SensorId, int>, es: seq<Event<A>>, k: nat) {
    k <= |es| && AllCollectable(After(sessions, es[..k]))
  }

  ghost predicate StopsCollectedAt<A>(sessions: map<SensorId, int>, es: seq<Event<A>>, k: nat) {
    k < |es| && StopsCollected(After(sessions, es[..k]), es[k])
  }

  lemma {:induction false} CollectableNext<A>(sessions: map<SensorId, int>, es: seq<Event<A>>, k: nat)
    requires LegalRun(sessions, es) && k < |es| && CollectableAt(sessions, es, k)
    ensures CollectableAt(sessions, es, k + 1) <==> StopsCollectedAt(sessions, es, k)
  {
    InvHolds(sessions, es, k);
    AfterStep(sessions, es, k);
    CollectableStep(After(sessions, es[..k]), es[k]);
  }

  /** Every future stays collectable throughout a run if and only if nobody stops an id whose future is
      uncollected. */
  lemma {:induction false} CollectorFinds<A>(sessions: map<SensorId, int>, es: seq<Event<A>>)
    requires LegalRun(sessions, es)
    ensures (forall k: nat :: k <= |es| ==> CollectableAt(sessions, es, k)) <==>
      (forall k: nat :: k < |es| ==> StopsCollectedAt(sessions, es, k))
  {
    var found := (k: nat) => CollectableAt(sessions, es, k);
    var stops := (k: nat) => StopsCollectedAt(sessions, es, k);
    forall k: nat | k < |es| && found(k) ensures found(k + 1) <==> stops(k) {
      CollectableNext(sessions, es, k);
    }
    assert After(sessions, es[..0]) == Initial(sessions);
    HoldsThroughout(found, stops, |es|);
    assert forall k: nat :: found(k) <==> CollectableAt(sessions, es, k);
    assert forall k: nat :: stops(k) <==> StopsCollectedAt(sessions, es, k);
  }

  /** The collection that step k of the run performs finds what it looks up. */
  ghost predicate DefinedAt<A>(sessions: map<SensorId, int>, es: seq<Event<A>>, k: nat) {
    k < |es| && es[k].CollectResult? ==>
      var s := After(sessions, es[..k]).s; s.Ready(es[k].i) ==> s.CollectDefined(es[k].i)
  }

  /** The start protocol. At most one start is uncollected; a failed start is in no index; the records
      are the uncollected and the failed starts, less those that lost their record to a stop or an early
      resume; each accepted start is reported exactly once, when it is collected; and if nobody stops an
      id whose future is uncollected, every collection finds what it dereferences. */
  lemma {:induction false} StartProtocol<A>(sessions: map<SensorId, int>, es: seq<Event<A>>)
    requires LegalRun(sessions, es)
    ensures var w := After(sessions, es);
      && (forall i, j :: 0 <= i < j < |w.s.futures| ==> !(w.s.futures[i].origin.Start? && w.s.futures[j].origin.Start?))
      && w.s.records.Keys == ((StartIds(w.s.futures) - w.h.early) + w.h.failed) - w.h.dismissed
      && w.h.failed !! w.s.byId.Keys && w.h.early <= w.s.byId.Keys + w.h.destroyed
      && (forall i :: 0 <= i < |w.s.futures| && w.s.futures[i].result == Some(false) ==> w.s.futures[i].id !in w.s.byId)
      && (forall id :: CountResults(w.s.sent, id) == if id in w.h.accepted && id !in StartIds(w.s.futures) then 1 else 0)
    ensures (forall k: nat :: k < |es| ==> StopsCollectedAt(sessions, es, k)) ==> forall k: nat :: DefinedAt(sessions, es, k)
  {
    assert es[..|es|] == es;
    InvHolds(sessions, es, |es|);
    var w := After(sessions, es);
    forall i | 0 <= i < |w.s.futures| && w.s.futures[i].result == Some(false) ensures w.s.futures[i].id !in w.s.byId {
      assert FutureOk(w.s.futures[i], Registered(w), w.h.failed);
    }
    if forall k: nat :: k < |es| ==> StopsCollectedAt(sessions, es, k) {
      CollectorFinds(sessions, es);
      forall k: nat ensures DefinedAt(sessions, es, k) {
        if k < |es| && es[k].CollectResult? && After(sessions, es[..k]).s.Ready(es[k].i) {
          InvHolds(sessions, es, k);
          assert CollectableAt(sessions, es, k);
          ReadyDefined(After(sessions, es[..k]), es[k].i);
        }
      }
    }
  }

  lemma ReadyDefined<A>(w: World<A>, i: nat)
    requires Inv(w) && AllCollectable(w) && w.s.Ready(i)
    ensures w.s.CollectDefined(i)
  {
    assert w.s.futures[i] in w.s.futures;
    CollectDefinedIff(w, i);
  }

  /** No collection of the pass dereferences anything missing. */
  ghost predicate PassDefined<A>(s: State<A>, i: nat)
    requires i <= |s.futures|
    decreases |s.futures| - i
  {
    i < |s.futures| ==>
      if s.Ready(i) then s.CollectDefined(i) && PassDefined(s.Collect(i), i) else PassDefined(s, i + 1)
  }

  lemma {:induction false} PassDefinedFrom<A>(w: World<A>, i: nat)
    requires Inv(w) && AllCollectable(w) && i <= |w.s.futures|
    ensures PassDefined(w.s, i)
    decreases |w.s.futures| - i
  {
    if i < |w.s.futures| {
      if w.s.Ready(i) {
        ReadyDefined(w, i);
        InvStep(w, CollectResult(i));
        CollectableCollect(w, i);
        PassDefinedFrom(ApplyCollect(w, i), i);
      } else {
        PassDefinedFrom(w, i + 1);
      }
    }
  }

  /** Nor does a whole collecting pass miss anything, then. */
  lemma {:induction false} CollectionsDefined<A>(sessions: map<SensorId, int>, es: seq<Event<A>>)
    requires LegalRun(sessions, es) && forall k: nat :: k < |es| ==> StopsCollectedAt(sessions, es, k)
    ensures PassDefined(After(sessions, es).s, 0)
  {
    CollectorFinds(sessions, es);
    assert es[..|es|] == es && CollectableAt(sessions, es, |es|);
    InvHolds(sessions, es, |es|);
    PassDefinedFrom(After(sessions, es), 0);
  }

  // Runs from a given world on.

  function ApplyAll<A>(w: World<A>, es: seq<Event<A>>): World<A>
    decreases |es|
  {
    if es == [] then w else ApplyAll(Apply(w, es[0]), es[1..])
  }

  ghost predicate LegalFrom<A>(w: World<A>, es: seq<Event<A>>)
    decreases |es|
  {
    es != [] ==> Legal(w, es[0]) && LegalFrom(Apply(w, es[0]), es[1..])
  }

  lemma FirstEvent<A>(w: World<A>, e: Event<A>, rest: seq<Event<A>>)
    ensures ApplyAll(w, [e] + rest) == ApplyAll(Apply(w, e), rest)
    ensures LegalFrom(w, [e] + rest) <==> Legal(w, e) && LegalFrom(Apply(w, e), rest)
  {
    assert ([e] + rest)[1..] == rest;
  }

  lemma {:induction false} Extended<A>(sessions: map<SensorId, int>, es: seq<Event<A>>, e: Event<A>)
    requires LegalRun(sessions, es) && Legal(After(sessions, es), e)
    ensures LegalRun(sessions, es + [e]) && After(sessions, es + [e]) == Apply(After(sessions, es), e)
  {
    hide Apply, Legal;
    var es' := es + [e];
    assert es'[..|es|] == es;
    forall k | 0 <= k < |es| ensures es'[..k] == es[..k] {}
  }

  /** They continue a run that leads to that world. */
  lemma {:induction false} Continued<A>(sessions: map<SensorId, int>, es: seq<Event<A>>, w: World<A>, more: seq<Event<A>>)
    requires LegalRun(sessions, es) && After(sessions, es) == w && LegalFrom(w, more)
    ensures LegalRun(sessions, es + more) && After(sessions, es + more) == ApplyAll(w, more)
    decreases |more|
  {
    hide Apply, Legal, LegalRun;
    if more == [] {
      assert es + more == es;
    } else {
      Extended(sessions, es, more[0]);
      Continued(sessions, es + [more[0]], Apply(w, more[0]), more[1..]);
      assert es + more == es + [more[0]] + more[1..];
    }
  }

  // The collecting pass.

  /** The futures whose threads have not returned, in order. */
  function Unready(fs: seq<Future>): seq<Future> {
    if fs == [] then [] else (if fs[0].result.Some? then [] else [fs[0]]) + Unready(fs[1..])
  }

  function ReadyIds(fs: seq<Future>): seq<ProcessingId> {
    if fs == [] then [] else (if fs[0].result.Some? then [fs[0].id] else []) + ReadyIds(fs[1..])
  }

  function EventIds(sent: seq<StateEvent>): seq<ProcessingId> {
    seq(|sent|, i requires 0 <= i < |sent| => sent[i].processingId)
  }

  /** After a pass exactly the unfinished futures are left, in order. */
  lemma {:induction false} PassCollectsReady<A>(s: State<A>, i: nat)
    requires i <= |s.futures|
    ensures s.CollectFrom(i).futures == s.futures[..i] + Unready(s.futures[i..])
    decreases |s.futures| - i
  {
    var fs := s.futures;
    if i < |fs| {
      assert fs[i..][1..] == fs[i + 1..];
      if s.Ready(i) {
        PassCollectsReady(s.Collect(i), i);
        assert Erased(fs, i)[..i] == fs[..i] && Erased(fs, i)[i..] == fs[i + 1..];
      } else {
        PassCollectsReady(s, i + 1);
        assert fs[..i + 1] == fs[..i] + [fs[i]];
        Regrouped(fs[..i], fs[i], Unready(fs[i + 1..]));
      }
    } else {
      assert fs[..i] + [] == fs;
    }
  }

  lemma CollectReports<A>(s: State<A>, i: nat)
    requires s.Ready(i) && MapOk(s.objects, s.byId)
    ensures EventIds(s.Collect(i).sent) == EventIds(s.sent) + [s.futures[i].id]
    ensures s.Collect(i).futures[i..] == s.futures[i + 1..]
  {
    assert Erased(s.futures, i)[i..] == s.futures[i + 1..];
  }

  lemma Regrouped<T>(a: seq<T>, x: T, b: seq<T>)
    ensures (a + [x]) + b == a + ([x] + b)
  {
  }

  /** The pass sends one event for each finished future, in order. */
  lemma {:induction false} PassReports<A>(s: State<A>, i: nat)
    requires i <= |s.futures| && MapOk(s.objects, s.byId)
    ensures EventIds(s.CollectFrom(i).sent) == EventIds(s.sent) + ReadyIds(s.futures[i..])
    decreases |s.futures| - i
  {
    var fs := s.futures;
    if i < |fs| {
      assert fs[i..][1..] == fs[i + 1..];
      if s.Ready(i) {
        CollectReports(s, i);
        PassReports(s.Collect(i), i);
        Regrouped(EventIds(s.sent), fs[i].id, ReadyIds(fs[i + 1..]));
      } else {
        PassReports(s, i + 1);
        assert [] + ReadyIds(fs[i + 1..]) == ReadyIds(fs[i + 1..]);
      }
    } else {
      assert EventIds(s.sent) + [] == EventIds(s.sent);
    }
  }

  lemma {:induction false} PassFrom<A>(w: World<A>, i: nat) returns (more: seq<Event<A>>)
    requires i <= |w.s.futures|
    ensures LegalFrom(w, more) && forall e :: e in more ==> e.CollectResult?
    ensures ApplyAll(w, more).s == w.s.CollectFrom(i)
    decreases |w.s.futures| - i
  {
    if i == |w.s.futures| {
      more := [];
    } else if w.s.Ready(i) {
      var rest := PassFrom(ApplyCollect(w, i), i);
      FirstEvent(w, CollectResult(i), rest);
      more := [CollectResult(i)] + rest;
    } else {
      more := PassFrom(w, i + 1);
    }
  }

  /** The erase-while-iterating pass is a legal run of single collections. */
  lemma {:induction false} PassIsRun<A>(sessions: map<SensorId, int>, es: seq<Event<A>>) returns (more: seq<Event<A>>)
    requires LegalRun(sessions, es)
    ensures LegalRun(sessions, es + more) && forall e :: e in more ==> e.CollectResult?
    ensures After(sessions, es + more).s == After(sessions, es).s.CollectFrom(0)
  {
    hide Apply, Legal, LegalRun;
    var w := After(sessions, es);
    more := PassFrom(w, 0);
    Continued(sessions, es, w, more);
  }
}
