/** Session numbers: what the database stores, what was issued, and when they stay consecutive. */
module AnalysisSessions {
  import opened Common
  import opened AnalysisModel
  import opened AnalysisProtocol
  import opened AnalysisIndexes

  function First(sessions0: map<SensorId, int>, sensor: SensorId): int {
    if sensor in sessions0 then sessions0[sensor] + 1 else 0
  }

  /** The database holds the latest number issued for a sensor, or what it held before the run. */
  ghost predicate StoredOk<A>(sessions0: map<SensorId, int>, w: World<A>) {
    forall sensor :: var issued := Issued(w.h, sensor);
      && (issued != [] ==> sensor in w.s.sessions)
      && w.s.NextSession(sensor) == if issued == [] then First(sessions0, sensor) else issued[|issued| - 1] + 1
  }

  /** The numbers of every sensor count up by one from the first. */
  ghost predicate Consecutive<A>(sessions0: map<SensorId, int>, w: World<A>) {
    forall sensor, i :: 0 <= i < |Issued(w.h, sensor)| ==> Issued(w.h, sensor)[i] == First(sessions0, sensor) + i
  }

  /** A resumed analyzer holds the number its sensor was given last. */
  ghost predicate ResumesLatest<A>(w: World<A>, e: Event<A>) {
    e.ResumeAnalyze? && w.s.Find(e.id).Some? && w.s.Find(e.id).value in w.s.objects ==>
      var st := w.s.objects[w.s.Find(e.id).value].settings;
      st.currentSession + 1 == w.s.NextSession(st.sensorId)
  }

  /** The one place where a number is issued. */
  ghost predicate IssuesAt<A>(w: World<A>, w': World<A>, sensor: SensorId, session: int) {
    w'.s.sessions == w.s.sessions[sensor := session] && w'.h.issued == Issue(w.h, sensor, session).issued
  }

  ghost predicate IssuesNothing<A>(w: World<A>, w': World<A>) {
    w'.s.sessions == w.s.sessions && w'.h.issued == w.h.issued
  }

  lemma IssueStep<A>(sessions0: map<SensorId, int>, w: World<A>, w': World<A>, sensor: SensorId, session: int)
    requires StoredOk(sessions0, w) && Consecutive(sessions0, w) && IssuesAt(w, w', sensor, session)
    ensures Consecutive(sessions0, w') <==> session == w.s.NextSession(sensor)
  {
    var before := Issued(w.h, sensor);
    assert Issued(w'.h, sensor) == before + [session];
    assert forall other :: other != sensor ==> Issued(w'.h, other) == Issued(w.h, other);
    assert before != [] ==> before[|before| - 1] == First(sessions0, sensor) + |before| - 1;
    assert w.s.NextSession(sensor) == First(sessions0, sensor) + |before|;
    if Consecutive(sessions0, w') {
      assert Issued(w'.h, sensor)[|before|] == session;
    }
  }

  lemma StoredStep<A>(sessions0: map<SensorId, int>, w: World<A>, e: Event<A>)
    requires StoredOk(sessions0, w)
    ensures StoredOk(sessions0, Apply(w, e))
  {
    var w' := Apply(w, e);
    match Issuing(w, e)
    case None =>
      IssuingMeans(w, e);
    case Some((sensor, session)) =>
      IssuingMeans(w, e);
      assert Issued(w'.h, sensor) == Issued(w.h, sensor) + [session];
      assert forall other :: other != sensor ==>
        Issued(w'.h, other) == Issued(w.h, other) && w'.s.NextSession(other) == w.s.NextSession(other);
  }

  /** The sensor and the number the step issues, if it issues one. */
  function Issuing<A>(w: World<A>, e: Event<A>): Option<(SensorId, int)> {
    match e
    case StartAnalyze(st, _) =>
      if w.s.Refuses(st) then None else Some((st.sensorId, w.s.NextSession(st.sensorId)))
    case ResumeAnalyze(id) =>
      if w.s.Find(id).Some? && w.s.Find(id).value in w.s.objects then
        var st := w.s.objects[w.s.Find(id).value].settings;
        Some((st.sensorId, st.currentSession + 1))
      else None
    case _ => None
  }

  lemma IssuingMeans<A>(w: World<A>, e: Event<A>)
    ensures match Issuing(w, e)
      case None => IssuesNothing(w, Apply(w, e))
      case Some((sensor, session)) => IssuesAt(w, Apply(w, e), sensor, session)
    ensures match Issuing(w, e)
      case None => ResumesLatest(w, e)
      case Some((sensor, session)) => ResumesLatest(w, e) <==> session == w.s.NextSession(sensor)
  {
  }

  lemma ConsecutiveStep<A>(sessions0: map<SensorId, int>, w: World<A>, e: Event<A>)
    requires StoredOk(sessions0, w) && Consecutive(sessions0, w)
    ensures Consecutive(sessions0, Apply(w, e)) <==> ResumesLatest(w, e)
  {
    IssuingMeans(w, e);
    match Issuing(w, e)
    case None => assert forall sensor :: Issued(Apply(w, e).h, sensor) == Issued(w.h, sensor);
    case Some((sensor, session)) => IssueStep(sessions0, w, Apply(w, e), sensor, session);
  }

  // One analysis per sensor.

  /** A registered analysis has these settings, or a start that has not registered will. */
  ghost predicate Holds<A>(w: World<A>, st: Settings) {
    || (st.processingId in w.s.byId && w.s.byId[st.processingId] in w.s.objects
        && w.s.objects[w.s.byId[st.processingId]].settings == st)
    || (st.processingId !in Registered(w) && WillHold(w.s.futures, st))
  }

  ghost predicate WillHold(fs: seq<Future>, st: Settings) {
    exists i :: 0 <= i < |fs| && fs[i].origin == Start(st)
  }

  ghost predicate OnePerSensor<A>(w: World<A>) {
    forall x, y :: Holds(w, x) && Holds(w, y) && x.processingId != y.processingId ==> x.sensorId != y.sensorId
  }

  /** Every registered or starting analysis holds the latest number of its sensor. */
  ghost predicate HoldsLatest<A>(w: World<A>) {
    forall st :: Holds(w, st) ==> w.s.NextSession(st.sensorId) == st.currentSession + 1
  }

  lemma HoldsLatestStart<A>(w: World<A>, st: Settings, url: Url)
    requires HoldsLatest(w) && Protocol(w) && Legal(w, StartAnalyze(st, url)) && !w.s.Refuses(st)
    requires OnePerSensor(ApplyStart(w, st, url))
    ensures HoldsLatest(ApplyStart(w, st, url))
  {
    var w' := ApplyStart(w, st, url);
    var launched := w.s.Launched(st, url);
    assert w'.s.futures == [Future(st.processingId, Start(launched), None)];
    assert Holds(w', launched) by {
      assert w'.s.futures[0].origin == Start(launched);
    }
    forall x | Holds(w', x) ensures w'.s.NextSession(x.sensorId) == x.currentSession + 1 {
      if x != launched {
        assert Holds(w, x) && x.processingId != st.processingId;
      }
    }
  }

  lemma HoldsLatestResume<A>(w: World<A>, id: ProcessingId)
    requires HoldsLatest(w) && MapOk(w.s.objects, w.s.byId) && OnePerSensor(w)
    ensures HoldsLatest(ApplyResume(w, id)) && ResumesLatest(w, ResumeAnalyze(id))
  {
    var w' := ApplyResume(w, id);
    if w.s.Find(id).Some? {
      var a := w.s.byId[id];
      var st := w.s.objects[a].settings;
      assert Holds(w, st);
      forall x | Holds(w', x) ensures w'.s.NextSession(x.sensorId) == x.currentSession + 1 {
        if x.processingId != id {
          ResumedOther(w, id, x);
        }
      }
    }
  }

  lemma ResumedOther<A>(w: World<A>, id: ProcessingId, x: Settings)
    requires MapOk(w.s.objects, w.s.byId) && Holds(ApplyResume(w, id), x) && x.processingId != id
    ensures Holds(w, x)
  {
    var w' := ApplyResume(w, id);
    if x.processingId !in w.s.byId {
      assert forall i :: 0 <= i < |w'.s.futures| && w'.s.futures[i].origin == Start(x) ==> i < |w.s.futures|;
    }
  }

  /** A step that issues no number and lets no analysis hold new settings. */
  lemma NoNewHolder<A>(w: World<A>, w': World<A>)
    requires HoldsLatest(w) && w'.s.sessions == w.s.sessions
    requires forall st :: Holds(w', st) ==> Holds(w, st)
    ensures HoldsLatest(w')
  {
  }

  lemma HoldsRegister<A>(w: World<A>, i: nat, a: A, st: Settings)
    requires Protocol(w) && MapOk(w.s.objects, w.s.byId) && Legal(w, RegisterAnalyzer(i, a))
    requires Holds(ApplyRegister(w, i, a), st)
    ensures Holds(w, st)
  {
    hide RecordsOk, FatesOk;
    var f := w.s.futures[i];
    assert FutureOk(f, Registered(w), w.h.failed);
    assert f.origin == Start(f.origin.settings);
  }

  lemma HoldsCollect<A>(w: World<A>, i: nat, st: Settings)
    requires w.s.Ready(i) && Holds(ApplyCollect(w, i), st)
    ensures Holds(w, st)
  {
    var fs' := Erased(w.s.futures, i);
    if st.processingId !in w.s.byId {
      var k :| 0 <= k < |fs'| && fs'[k].origin == Start(st);
      assert w.s.futures[if k < i then k else k + 1].origin == Start(st);
    }
  }

  lemma HoldsFinish<A>(w: World<A>, i: nat, ok: bool, st: Settings)
    requires i < |w.s.futures| && Holds(w.(s := w.s.Finish(i, ok)), st)
    ensures Holds(w, st)
  {
    if st.processingId !in w.s.byId {
      var fs' := w.s.Finish(i, ok).futures;
      var k :| 0 <= k < |fs'| && fs'[k].origin == Start(st);
      assert w.s.futures[k].origin == Start(st);
    }
  }

  lemma HoldsStop<A>(w: World<A>, id: ProcessingId, url: Url, st: Settings)
    requires Holds(ApplyStop(w, id, url), st)
    ensures Holds(w, st)
  {
    StopRegistered(w, id, url);
  }

  lemma HoldsLatestStep<A>(w: World<A>, e: Event<A>)
    requires HoldsLatest(w) && Protocol(w) && MapOk(w.s.objects, w.s.byId) && Legal(w, e)
    requires OnePerSensor(w) && OnePerSensor(Apply(w, e))
    ensures HoldsLatest(Apply(w, e)) && ResumesLatest(w, e)
  {
    if e.StartAnalyze? && !w.s.Refuses(e.st) {
      HoldsLatestStart(w, e.st, e.url);
    } else if e.ResumeAnalyze? {
      HoldsLatestResume(w, e.id);
    } else {
      forall st | Holds(Apply(w, e), st) ensures Holds(w, st) {
        HoldsBefore(w, e, st);
      }
      NoNewHolder(w, Apply(w, e));
    }
  }

  lemma HoldsBefore<A>(w: World<A>, e: Event<A>, st: Settings)
    requires Protocol(w) && MapOk(w.s.objects, w.s.byId) && Legal(w, e)
    requires !e.ResumeAnalyze? && (e.StartAnalyze? ==> w.s.Refuses(e.st)) && Holds(Apply(w, e), st)
    ensures Holds(w, st)
  {
    match e
    case RegisterAnalyzer(i, a) => HoldsRegister(w, i, a, st);
    case CollectResult(i) => HoldsCollect(w, i, st);
    case StopAnalyze(id, url) => HoldsStop(w, id, url, st);
    case FinishStart(i, ok) => HoldsFinish(w, i, ok, st);
    case StartAnalyze(_, _) =>
    case LoseSource(_) =>
    case OpenOperation =>
    case CloseOperation =>
  }
}
