/** What every legal run of the analysis lifecycle keeps. */
module AnalysisRuns {
  import opened Common
  import opened AnalysisModel
  import opened AnalysisProtocol
  import opened AnalysisIndexes
  import opened AnalysisRecovery
  import opened AnalysisSessions

  ghost predicate Inv<A>(w: World<A>) {
    && Protocol(w) && Indexes(w)
    && LogOk(w.s.openOperations, w.command, w.h)
    && ResultsOk(w.s.sent, StartIds(w.s.futures), w.h.accepted)
  }

  lemma InvStep<A>(w: World<A>, e: Event<A>)
    requires Inv(w) && Legal(w, e)
    ensures Inv(Apply(w, e))
  {
    ProtocolStep(w, e);
    IndexesStep(w, e);
    LogStep(w, e);
    ResultsStep(w, e);
  }

  lemma AfterStep<A>(sessions: map<SensorId, int>, es: seq<Event<A>>, k: nat)
    requires k < |es|
    ensures After(sessions, es[..k + 1]) == Apply(After(sessions, es[..k]), es[k])
  {
    assert es[..k + 1][..k] == es[..k];
  }

  lemma {:induction false} InvHolds<A>(sessions: map<SensorId, int>, es: seq<Event<A>>, k: nat)
    requires LegalRun(sessions, es) && k <= |es|
    ensures Inv(After(sessions, es[..k]))
    ensures StoredOk(sessions, After(sessions, es[..k]))
  {
    if k > 0 {
      InvHolds(sessions, es, k - 1);
      AfterStep(sessions, es, k - 1);
      InvStep(After(sessions, es[..k - 1]), es[k - 1]);
      StoredStep(sessions, After(sessions, es[..k - 1]), es[k - 1]);
    }
  }

  // The start records.

  ghost predicate ExactRecords<A>(w: World<A>) {
    w.s.records.Keys == StartIds(w.s.futures) + (w.h.failed - w.h.dismissed)
  }

  /** No successful resume is collected while its start is uncollected, and no stop meets a start that
      is uncollected and not registered. */
  ghost predicate RecordsKept<A>(w: World<A>, e: Event<A>) {
    match e
    case CollectResult(i) =>
      w.s.Ready(i) && w.s.futures[i].origin.Resume? && w.s.futures[i].result.value ==>
        w.s.futures[i].id !in StartIds(w.s.futures)
    case StopAnalyze(id, _) => w.s.Find(id).None? ==> id !in StartIds(w.s.futures)
    case _ => true
  }

  /** Exact records are those of which no uncollected start has lost its own. */
  lemma ExactMeans<A>(w: World<A>)
    requires Protocol(w)
    ensures ExactRecords(w) <==> StartIds(w.s.futures) !! w.h.early + w.h.dismissed
  {
  }

  lemma KeptCollect<A>(w: World<A>, i: nat)
    requires Protocol(w) && w.s.Ready(i) && ExactRecords(w)
    ensures ExactRecords(ApplyCollect(w, i)) <==> RecordsKept(w, CollectResult(i))
  {
    ProtocolCollect(w, i);
    ExactMeans(w);
    ExactMeans(ApplyCollect(w, i));
    StartIdsErased(w.s.futures, i);
    if w.s.futures[i].origin.Start? {
      StartsIn(w.s.futures, i);
    }
  }

  lemma KeptStop<A>(w: World<A>, id: ProcessingId, url: Url)
    requires Protocol(w) && ExactRecords(w)
    ensures ExactRecords(ApplyStop(w, id, url)) <==> RecordsKept(w, StopAnalyze(id, url))
  {
    StopRegistered(w, id, url);
    hide FuturesOk, FatesOk;
  }

  lemma KeptStep<A>(w: World<A>, e: Event<A>)
    requires Protocol(w) && Legal(w, e) && ExactRecords(w)
    ensures ExactRecords(Apply(w, e)) <==> RecordsKept(w, e)
  {
    match e
    case StartAnalyze(st, url) =>
      StartIdsAppended(w.s.futures, Future(st.processingId, Start(w.s.Launched(st, url)), None));
      if !w.s.Refuses(st) {
        assert st.processingId !in w.h.failed + w.h.dismissed;
        assert Apply(w, e).s.records.Keys == w.s.records.Keys + {st.processingId};
      }
    case ResumeAnalyze(id) => StartIdsAppended(w.s.futures, Future(id, Resume, None));
    case FinishStart(i, ok) => StartIdsUpdated(w.s.futures, i, w.s.futures[i].(result := Some(ok)));
    case CollectResult(i) => KeptCollect(w, i);
    case StopAnalyze(id, url) => KeptStop(w, id, url);
    case OpenOperation =>
    case CloseOperation =>
    case RegisterAnalyzer(_, _) =>
    case LoseSource(_) =>
  }

  ghost predicate ExactRecordsAt<A>(sessions: map<SensorId, int>, es: seq<Event<A>>, k: nat) {
    k <= |es| && ExactRecords(After(sessions, es[..k]))
  }

  ghost predicate RecordsKeptAt<A>(sessions: map<SensorId, int>, es: seq<Event<A>>, k: nat) {
    k < |es| && RecordsKept(After(sessions, es[..k]), es[k])
  }

  lemma {:induction false} ExactRecordsNext<A>(sessions: map<SensorId, int>, es: seq<Event<A>>, k: nat)
    requires LegalRun(sessions, es) && k < |es| && ExactRecordsAt(sessions, es, k)
    ensures ExactRecordsAt(sessions, es, k + 1) <==> RecordsKeptAt(sessions, es, k)
  {
    InvHolds(sessions, es, k);
    AfterStep(sessions, es, k);
    KeptStep(After(sessions, es[..k]), es[k]);
  }

  /** The records are exactly the uncollected starts and the failed starts not yet stopped, throughout a
      run, if and only if no successful resume is collected before its start and no stop meets a start
      that is uncollected and not registered. */
  lemma {:induction false} RecordsExact<A>(sessions: map<SensorId, int>, es: seq<Event<A>>)
    requires LegalRun(sessions, es)
    ensures (forall k: nat :: k <= |es| ==> ExactRecordsAt(sessions, es, k)) <==>
      (forall k: nat :: k < |es| ==> RecordsKeptAt(sessions, es, k))
  {
    var exact := (k: nat) => ExactRecordsAt(sessions, es, k);
    var kept := (k: nat) => RecordsKeptAt(sessions, es, k);
    forall k: nat | k < |es| && exact(k) ensures exact(k + 1) <==> kept(k) {
      ExactRecordsNext(sessions, es, k);
    }
    assert After(sessions, es[..0]) == Initial(sessions);
    HoldsThroughout(exact, kept, |es|);
    assert forall k: nat :: exact(k) <==> ExactRecordsAt(sessions, es, k);
    assert forall k: nat :: kept(k) <==> RecordsKeptAt(sessions, es, k);
  }

  /** The command thread can avoid it: it resumes no analyzer whose start is uncollected, and stops no
      start that is uncollected and not registered. */
  ghost predicate Waits<A>(w: World<A>, e: Event<A>) {
    match e
    case ResumeAnalyze(id) => id !in StartIds(w.s.futures)
    case StopAnalyze(id, _) => w.s.Find(id).None? ==> id !in StartIds(w.s.futures)
    case _ => true
  }

  /** No resume is uncollected whose start is uncollected, too. */
  ghost predicate Apart(fs: seq<Future>) {
    forall f :: f in fs && f.origin.Resume? ==> f.id !in StartIds(fs)
  }

  lemma ApartCollect(fs: seq<Future>, i: nat)
    requires Apart(fs) && i < |fs|
    requires forall j, k :: 0 <= j < k < |fs| ==> !(fs[j].origin.Start? && fs[k].origin.Start?)
    ensures Apart(Erased(fs, i))
  {
    StartIdsErased(fs, i);
    assert forall f :: f in Erased(fs, i) ==> f in fs;
  }

  lemma ApartFinish(fs: seq<Future>, i: nat, ok: bool)
    requires Apart(fs) && i < |fs|
    ensures Apart(fs[i := fs[i].(result := Some(ok))])
  {
    StartIdsUpdated(fs, i, fs[i].(result := Some(ok)));
  }

  lemma ApartStep<A>(w: World<A>, e: Event<A>)
    requires Protocol(w) && Apart(w.s.futures) && Legal(w, e) && Waits(w, e)
    ensures Apart(Apply(w, e).s.futures) && RecordsKept(w, e)
  {
    var fs := w.s.futures;
    match e
    case StartAnalyze(st, url) => StartIdsAppended(fs, Future(st.processingId, Start(w.s.Launched(st, url)), None));
    case ResumeAnalyze(id) => StartIdsAppended(fs, Future(id, Resume, None));
    case FinishStart(i, ok) => ApartFinish(fs, i, ok);
    case CollectResult(i) => ApartCollect(fs, i);
    case OpenOperation =>
    case CloseOperation =>
    case RegisterAnalyzer(_, _) =>
    case LoseSource(_) =>
    case StopAnalyze(_, _) =>
  }

  lemma {:induction false} ApartHolds<A>(sessions: map<SensorId, int>, es: seq<Event<A>>, n: nat)
    requires LegalRun(sessions, es) && n <= |es|
    requires forall k :: 0 <= k < |es| ==> Waits(After(sessions, es[..k]), es[k])
    ensures Apart(After(sessions, es[..n]).s.futures)
    ensures forall k: nat :: k < n ==> RecordsKeptAt(sessions, es, k)
  {
    hide Waits, RecordsKept, Legal, Apply, Inv, LegalRun, Protocol, StartIds;
    if n > 0 {
      ApartHolds(sessions, es, n - 1);
      StepApart(sessions, es, n - 1);
    }
  }

  lemma StepApart<A>(sessions: map<SensorId, int>, es: seq<Event<A>>, k: nat)
    requires LegalRun(sessions, es) && k < |es| && Waits(After(sessions, es[..k]), es[k])
    requires Apart(After(sessions, es[..k]).s.futures)
    ensures Apart(After(sessions, es[..k + 1]).s.futures) && RecordsKeptAt(sessions, es, k)
  {
    InvHolds(sessions, es, k);
    AfterStep(sessions, es, k);
    ApartStep(After(sessions, es[..k]), es[k]);
  }

  /** If it does, the records are exact. */
  lemma {:induction false} LateResumesExact<A>(sessions: map<SensorId, int>, es: seq<Event<A>>)
    requires LegalRun(sessions, es)
    requires forall k :: 0 <= k < |es| ==> Waits(After(sessions, es[..k]), es[k])
    ensures ExactRecords(After(sessions, es))
  {
    ApartHolds(sessions, es, |es|);
    RecordsExact(sessions, es);
    assert es[..|es|] == es && ExactRecordsAt(sessions, es, |es|);
  }

  /** The vector and the map of analyzers agree, up to the analyzers dropped by source loss. */
  lemma {:induction false} IndexesAgree<A>(sessions: map<SensorId, int>, es: seq<Event<A>>)
    requires LegalRun(sessions, es)
    ensures var w := After(sessions, es);
      && (forall i, j :: 0 <= i < j < |w.s.analyzers| ==> IdOf(w.s.objects, w.s.analyzers[i]) != IdOf(w.s.objects, w.s.analyzers[j]))
      && (forall a :: a in w.s.analyzers ==>
            var id := IdOf(w.s.objects, a); id in w.s.byId && w.s.byId[id] == a && id !in w.h.dropped)
      && w.h.dropped <= w.s.byId.Keys
      && (forall id :: id in w.s.byId && id !in w.h.dropped ==> w.s.byId[id] in w.s.analyzers)
  {
    assert es[..|es|] == es;
    InvHolds(sessions, es, |es|);
    var w := After(sessions, es);
    forall i, j | 0 <= i < j < |w.s.analyzers|
      ensures IdOf(w.s.objects, w.s.analyzers[i]) != IdOf(w.s.objects, w.s.analyzers[j])
    {
      assert w.s.analyzers[i] in w.s.analyzers && w.s.analyzers[j] in w.s.analyzers;
    }
  }

  ghost predicate LogExactAt<A>(sessions: map<SensorId, int>, es: seq<Event<A>>, k: nat) {
    k <= |es| && LogExact(After(sessions, es[..k]))
  }

  ghost predicate LeavesNoStrayAt<A>(sessions: map<SensorId, int>, es: seq<Event<A>>, k: nat) {
    k < |es| && !LeavesStray(After(sessions, es[..k]), es[k])
  }

  lemma {:induction false} LogExactNext<A>(sessions: map<SensorId, int>, es: seq<Event<A>>, k: nat)
    requires LegalRun(sessions, es) && k < |es| && LogExactAt(sessions, es, k)
    ensures LogExactAt(sessions, es, k + 1) <==> LeavesNoStrayAt(sessions, es, k)
  {
    InvHolds(sessions, es, k);
    InvHolds(sessions, es, k + 1);
    AfterStep(sessions, es, k);
    LogExactIffNoStray(After(sessions, es[..k]));
    LogExactIffNoStray(After(sessions, es[..k + 1]));
    StrayStep(After(sessions, es[..k]), es[k]);
  }

  /** The log is right after every step, up to the command in progress, if and only if no step left
      an entry behind. */
  lemma {:induction false} LogExactThroughout<A>(sessions: map<SensorId, int>, es: seq<Event<A>>)
    requires LegalRun(sessions, es)
    ensures (forall k: nat :: k <= |es| ==> LogExactAt(sessions, es, k)) <==>
      (forall k: nat :: k < |es| ==> LeavesNoStrayAt(sessions, es, k))
  {
    var exact := (k: nat) => LogExactAt(sessions, es, k);
    var clean := (k: nat) => LeavesNoStrayAt(sessions, es, k);
    forall k: nat | k < |es| && exact(k) ensures exact(k + 1) <==> clean(k) {
      LogExactNext(sessions, es, k);
    }
    assert After(sessions, es[..0]) == Initial(sessions);
    HoldsThroughout(exact, clean, |es|);
    assert forall k: nat :: exact(k) <==> LogExactAt(sessions, es, k);
    assert forall k: nat :: clean(k) <==> LeavesNoStrayAt(sessions, es, k);
  }

  /** Each command is one step: a start opens its log entry before anything else happens, and source
      addresses are not empty. */
  ghost predicate WholeCommands<A>(es: seq<Event<A>>) {
    && (forall k :: 0 <= k < |es| && es[k].OpenOperation? ==> k > 0 && es[k - 1].StartAnalyze?)
    && (forall k :: 0 <= k < |es| && es[k].StopAnalyze? ==> es[k].url != "")
  }

  lemma {:induction false} StartNotFailed<A>(w: World<A>, st: Settings, url: Url)
    requires Inv(w) && Legal(w, StartAnalyze(st, url))
    ensures !LeavesStray(ApplyStart(w, st, url), OpenOperation)
  {
  }

  lemma OpenAfterStart<A>(sessions: map<SensorId, int>, es: seq<Event<A>>, k: nat)
    requires LegalRun(sessions, es) && 0 < k < |es| && es[k - 1].StartAnalyze? && es[k].OpenOperation?
    ensures LeavesNoStrayAt(sessions, es, k)
  {
    InvHolds(sessions, es, k - 1);
    AfterStep(sessions, es, k - 1);
    var w := After(sessions, es[..k - 1]);
    assert Legal(w, es[k - 1]);
    hide LegalRun, After, Inv, Legal, LeavesStray, ApplyStart, StoredOk;
    StartNotFailed(w, es[k - 1].st, es[k - 1].url);
  }

  lemma {:induction false} WholeCommandsLeaveNoStray<A>(sessions: map<SensorId, int>, es: seq<Event<A>>, k: nat)
    requires LegalRun(sessions, es) && WholeCommands(es) && k < |es|
    ensures LeavesNoStrayAt(sessions, es, k)
  {
    hide LegalRun, After;
    if es[k].OpenOperation? {
      OpenAfterStart(sessions, es, k);
    }
  }

  /** The step does not stop an analysis that has registered and whose start is uncollected. */
  ghost predicate StopsNoStart<A>(w: World<A>, e: Event<A>) {
    e.StopAnalyze? && w.s.Find(e.id).Some? ==> e.id !in StartIds(w.s.futures)
  }

  /** Only an accepted start adds to the uncollected ones. */
  lemma StartIdsStep<A>(w: World<A>, e: Event<A>)
    requires FuturesOk(w.s.futures, Registered(w), w.h.failed) && Legal(w, e)
    ensures StartIds(Apply(w, e).s.futures) <= StartIds(w.s.futures) + if e.StartAnalyze? then {e.st.processingId} else {}
  {
    hide FutureOk;
    match e
    case StartAnalyze(st, url) =>
      StartIdsAppended(w.s.futures, Future(st.processingId, Start(w.s.Launched(st, url)), None));
    case ResumeAnalyze(id) => StartIdsAppended(w.s.futures, Future(id, Resume, None));
    case FinishStart(i, ok) => StartIdsUpdated(w.s.futures, i, w.s.futures[i].(result := Some(ok)));
    case CollectResult(i) => StartIdsErased(w.s.futures, i);
    case OpenOperation =>
    case CloseOperation =>
    case RegisterAnalyzer(_, _) =>
    case LoseSource(_) =>
    case StopAnalyze(_, _) =>
  }

  lemma DestroyedStep<A>(w: World<A>, e: Event<A>)
    requires Protocol(w) && Legal(w, e) && StopsNoStart(w, e) && StartIds(w.s.futures) !! w.h.destroyed
    ensures StartIds(Apply(w, e).s.futures) !! Apply(w, e).h.destroyed
  {
    StartIdsStep(w, e);
    assert Apply(w, e).h.destroyed <= w.h.destroyed + if e.StopAnalyze? && w.s.Find(e.id).Some? then {e.id} else {};
    hide Apply, FuturesOk, RecordsOk, StartIds;
  }

  lemma {:induction false} StartsNotDestroyed<A>(sessions: map<SensorId, int>, es: seq<Event<A>>, k: nat)
    requires LegalRun(sessions, es) && k <= |es|
    requires forall i :: 0 <= i < |es| ==> StopsNoStart(After(sessions, es[..i]), es[i])
    ensures var w := After(sessions, es[..k]); StartIds(w.s.futures) !! w.h.destroyed
  {
    if k > 0 {
      StartsNotDestroyed(sessions, es, k - 1);
      InvHolds(sessions, es, k - 1);
      AfterStep(sessions, es, k - 1);
      DestroyedStep(After(sessions, es[..k - 1]), es[k - 1]);
    }
  }

  /** Crash recovery: between commands, the open log entries are exactly the accepted starts neither
      failed nor destroyed, which are the registered analyses and the uncollected starts not destroyed;
      and those are all uncollected starts if none was stopped after it registered. */
  lemma {:induction false} CrashRecovery<A>(sessions: map<SensorId, int>, es: seq<Event<A>>)
    requires LegalRun(sessions, es) && WholeCommands(es)
    requires After(sessions, es).command.Idle?
    ensures var w := After(sessions, es);
      && w.s.openOperations == w.h.accepted - w.h.failed - w.h.destroyed
      && w.s.openOperations == (StartIds(w.s.futures) - w.h.destroyed) + w.s.byId.Keys
      && ((forall k :: 0 <= k < |es| ==> StopsNoStart(After(sessions, es[..k]), es[k])) ==>
            w.s.openOperations == StartIds(w.s.futures) + w.s.byId.Keys)
  {
    forall k: nat | k < |es| ensures LeavesNoStrayAt(sessions, es, k) {
      WholeCommandsLeaveNoStray(sessions, es, k);
    }
    LogExactThroughout(sessions, es);
    assert es[..|es|] == es;
    assert LogExactAt(sessions, es, |es|);
    InvHolds(sessions, es, |es|);
    if forall k :: 0 <= k < |es| ==> StopsNoStart(After(sessions, es[..k]), es[k]) {
      StartsNotDestroyed(sessions, es, |es|);
    }
  }

  /** Why whole commands matter: a start that fails and is collected before its command opens the
      entry leaves an entry that no one closes, and a restart would start it again. */
  lemma FailureBeforeEntry<A>(w: World<A>, st: Settings, url: Url)
    requires Inv(w) && LogExact(w) && Legal(w, StartAnalyze(st, url)) && !w.s.Refuses(st)
    ensures var w1 := Apply(w, StartAnalyze(st, url));
      var w2 := Apply(Apply(w1, FinishStart(0, false)), CollectResult(0));
      && Legal(w1, FinishStart(0, false)) && Legal(Apply(w1, FinishStart(0, false)), CollectResult(0))
      && Legal(w2, OpenOperation) && LeavesStray(w2, OpenOperation)
  {
    assert w.s.futures == [];
    var f := Future(st.processingId, Start(w.s.Launched(st, url)), None);
    assert Apply(w, StartAnalyze(st, url)).s.futures == [f];
    assert [f][0 := f.(result := Some(false))] == [f.(result := Some(false))];
    assert st.processingId !in w.s.byId.Keys;
  }

  ghost predicate ConsecutiveAt<A>(sessions: map<SensorId, int>, es: seq<Event<A>>, k: nat) {
    k <= |es| && Consecutive(sessions, After(sessions, es[..k]))
  }

  ghost predicate ResumesLatestAt<A>(sessions: map<SensorId, int>, es: seq<Event<A>>, k: nat) {
    k < |es| && ResumesLatest(After(sessions, es[..k]), es[k])
  }

  lemma {:induction false} ConsecutiveNext<A>(sessions: map<SensorId, int>, es: seq<Event<A>>, k: nat)
    requires LegalRun(sessions, es) && k < |es| && ConsecutiveAt(sessions, es, k)
    ensures ConsecutiveAt(sessions, es, k + 1) <==> ResumesLatestAt(sessions, es, k)
  {
    InvHolds(sessions, es, k);
    AfterStep(sessions, es, k);
    ConsecutiveStep(sessions, After(sessions, es[..k]), es[k]);
  }

  /** The numbers issued for each sensor stay consecutive if and only if every resumed analyzer held
      its sensor's latest number. */
  lemma {:induction false} SessionsConsecutive<A>(sessions: map<SensorId, int>, es: seq<Event<A>>)
    requires LegalRun(sessions, es)
    ensures (forall k: nat :: k <= |es| ==> ConsecutiveAt(sessions, es, k)) <==>
      (forall k: nat :: k < |es| ==> ResumesLatestAt(sessions, es, k))
  {
    var consecutive := (k: nat) => ConsecutiveAt(sessions, es, k);
    var latest := (k: nat) => ResumesLatestAt(sessions, es, k);
    forall k: nat | k < |es| && consecutive(k) ensures consecutive(k + 1) <==> latest(k) {
      ConsecutiveNext(sessions, es, k);
    }
    assert After(sessions, es[..0]) == Initial(sessions);
    HoldsThroughout(consecutive, latest, |es|);
    assert forall k: nat :: consecutive(k) <==> ConsecutiveAt(sessions, es, k);
    assert forall k: nat :: latest(k) <==> ResumesLatestAt(sessions, es, k);
  }

  ghost predicate OnePerSensorAt<A>(sessions: map<SensorId, int>, es: seq<Event<A>>, k: nat) {
    k <= |es| && OnePerSensor(After(sessions, es[..k]))
  }

  lemma HoldsNext<A>(sessions: map<SensorId, int>, es: seq<Event<A>>, k: nat)
    requires LegalRun(sessions, es) && k < |es| && OnePerSensorAt(sessions, es, k) && OnePerSensorAt(sessions, es, k + 1)
    requires HoldsLatest(After(sessions, es[..k]))
    ensures HoldsLatest(After(sessions, es[..k + 1])) && ResumesLatestAt(sessions, es, k)
  {
    InvHolds(sessions, es, k);
    AfterStep(sessions, es, k);
    HoldsLatestStep(After(sessions, es[..k]), es[k]);
  }

  lemma {:induction false} HoldsLatestAfter<A>(sessions: map<SensorId, int>, es: seq<Event<A>>, n: nat)
    requires LegalRun(sessions, es) && n <= |es| && forall k: nat :: k <= |es| ==> OnePerSensorAt(sessions, es, k)
    ensures HoldsLatest(After(sessions, es[..n]))
    ensures forall k: nat :: k < n ==> ResumesLatestAt(sessions, es, k)
  {
    hide LegalRun, OnePerSensorAt, ResumesLatestAt;
    if n > 0 {
      HoldsLatestAfter(sessions, es, n - 1);
      assert OnePerSensorAt(sessions, es, n - 1) && OnePerSensorAt(sessions, es, n);
      HoldsNext(sessions, es, n - 1);
    }
  }

  /** With one registered or starting analysis per sensor no number repeats: they count up by one,
      and the database holds the latest. */
  lemma {:induction false} SessionNumbers<A>(sessions: map<SensorId, int>, es: seq<Event<A>>)
    requires LegalRun(sessions, es)
    requires forall k: nat :: k <= |es| ==> OnePerSensorAt(sessions, es, k)
    ensures Consecutive(sessions, After(sessions, es))
    ensures var w := After(sessions, es);
      forall sensor :: Issued(w.h, sensor) != [] ==>
        sensor in w.s.sessions && w.s.sessions[sensor] == Issued(w.h, sensor)[|Issued(w.h, sensor)| - 1]
  {
    hide OnePerSensorAt, ResumesLatestAt;
    HoldsLatestAfter(sessions, es, |es|);
    SessionsConsecutive(sessions, es);
    assert es[..|es|] == es && ConsecutiveAt(sessions, es, |es|);
    InvHolds(sessions, es, |es|);
  }
}
