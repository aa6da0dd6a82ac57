/** Runs that show the exceptions of the analysis lifecycle can be reached. */
module AnalysisCounterexamples {
  import opened Common
  import opened AnalysisModel
  import opened AnalysisRuns
  import opened AnalysisSessions
  import opened AnalysisRecovery
  import opened AnalysisCollector

  /** One analyzer `a` with the settings `st`, its sensor's session numbers `issued` so far. */
  function OneAnalyzer<A>(a: A, st: Settings, futures: seq<Future>, records: map<ProcessingId, Settings>,
                          sent: seq<StateEvent>, issued: seq<int>): World<A>
  {
    var id := st.processingId;
    World(State(map[a := Analyzer(st, ACTIVE)], [a], map[id := a], futures, records, map[st.sensorId := st.currentSession], {id}, sent),
          Idle, History({id}, {}, {}, {}, {}, {}, {}, map[st.sensorId := issued]))
  }

  function Opening<A>(st: Settings, url: Url, a: A): seq<Event<A>> {
    [StartAnalyze(st, url)] + ([OpenOperation] + [RegisterAnalyzer(0, a)])
  }

  /** The settings a first start gives its analyzer. */
  function FirstSettings(st: Settings, url: Url): Settings {
    st.(sourceUrl := url, currentSession := 0)
  }

  lemma Last<A>(w: World<A>, e: Event<A>)
    ensures ApplyAll(w, [e]) == Apply(w, e)
    ensures LegalFrom(w, [e]) <==> Legal(w, e)
  {
    FirstEvent(w, e, []);
    assert [e] + [] == [e];
  }

  lemma OpenedWorld<A>(st: Settings, url: Url)
    requires st.processingId != ""
    ensures var id := st.processingId; var r := FirstSettings(st, url);
      var w := ApplyOpen(ApplyStart(Initial<A>(map[]), st, url));
      w == World(State(map[], [], map[], [Future(id, Start(r), None)], map[id := r], map[st.sensorId := 0], {id}, []),
                 Idle, History({id}, {}, {}, {}, {}, {}, {}, map[st.sensorId := [0]]))
  {
    assert [] + [Future(st.processingId, Start(FirstSettings(st, url)), None)] == [Future(st.processingId, Start(FirstSettings(st, url)), None)];
    assert [] + [0] == [0];
    assert ApplyStart(Initial<A>(map[]), st, url).command == Command.Opening(st.processingId);
  }

  lemma EmptyRun<A>(sessions: map<SensorId, int>)
    ensures LegalRun<A>(sessions, []) && After<A>(sessions, []) == Initial(sessions)
  {
  }

  lemma RegisteredWorld<A>(st: Settings, url: Url, a: A)
    requires st.processingId != ""
    ensures var id := st.processingId; var r := FirstSettings(st, url);
      var w := ApplyOpen(ApplyStart(Initial<A>(map[]), st, url));
      && Legal(w, RegisterAnalyzer(0, a))
      && ApplyRegister(w, 0, a) == OneAnalyzer(a, r, [Future(id, Start(r), None)], map[id := r], [], [0])
  {
    OpenedWorld<A>(st, url);
    assert [] + [a] == [a];
  }

  lemma OpeningTail<A>(st: Settings, url: Url, a: A)
    requires st.processingId != ""
    ensures var id := st.processingId; var r := FirstSettings(st, url); var w0 := Initial<A>(map[]);
      && LegalFrom(w0, Opening(st, url, a))
      && ApplyAll(w0, Opening(st, url, a)) == OneAnalyzer(a, r, [Future(id, Start(r), None)], map[id := r], [], [0])
  {
    var w0 := Initial<A>(map[]);
    var w1 := ApplyStart(w0, st, url);
    OpenedWorld<A>(st, url);
    RegisteredWorld(st, url, a);
    Last(ApplyOpen(w1), RegisterAnalyzer(0, a));
    FirstEvent(w1, OpenOperation, [RegisterAnalyzer(0, a)]);
    FirstEvent(w0, StartAnalyze(st, url), [OpenOperation] + [RegisterAnalyzer(0, a)]);
  }

  /** An analysis that has registered and not yet reported. */
  lemma RegisteredRun<A>(st: Settings, url: Url, a: A)
    requires st.processingId != ""
    ensures var id := st.processingId; var r := FirstSettings(st, url);
      && LegalRun(map[], Opening(st, url, a))
      && After(map[], Opening(st, url, a)) == OneAnalyzer(a, r, [Future(id, Start(r), None)], map[id := r], [], [0])
  {
    hide *;
    OpeningTail(st, url, a);
    EmptyRun<A>(map[]);
    Continued(map[], [], Initial(map[]), Opening(st, url, a));
    assert [] + Opening(st, url, a) == Opening(st, url, a);
  }

  // A resume collected before its start.

  lemma EarlyTail<A>(a: A, st: Settings)
    requires st.processingId != ""
    ensures var id := st.processingId;
      var w := OneAnalyzer(a, st, [Future(id, Start(st), None)], map[id := st], [], [0]);
      var tail := [ResumeAnalyze(id)] + ([FinishStart(1, true)] + [CollectResult(1)]);
      && LegalFrom(w, tail)
      && ApplyAll(w, tail).s.records == map[] && ApplyAll(w, tail).s.futures == [Future(id, Start(st), None)]
  {
    var id := st.processingId;
    var w := OneAnalyzer(a, st, [Future(id, Start(st), None)], map[id := st], [], [0]);
    var w1 := ApplyResume(w, id);
    assert w1.s.futures == [Future(id, Start(st), None), Future(id, Resume, None)];
    CollectSecond(w1, id, st);
    FirstEvent(w, ResumeAnalyze(id), [FinishStart(1, true)] + [CollectResult(1)]);
  }

  lemma CollectSecond<A>(w: World<A>, id: ProcessingId, st: Settings)
    requires w.s.futures == [Future(id, Start(st), None), Future(id, Resume, None)] && w.s.records == map[id := st]
    ensures var tail := [FinishStart(1, true)] + [CollectResult(1)];
      && LegalFrom(w, tail)
      && ApplyAll(w, tail).s.records == map[] && ApplyAll(w, tail).s.futures == [Future(id, Start(st), None)]
  {
    var w2 := Apply(w, FinishStart(1, true));
    assert w2.s.futures == [Future(id, Start(st), None), Future(id, Resume, Some(true))];
    var w3 := ApplyCollect(w2, 1);
    assert w3.s.futures == [Future(id, Start(st), None)] && w3.s.records == map[];
    Last(w2, CollectResult(1));
    FirstEvent(w, FinishStart(1, true), [CollectResult(1)]);
  }

  /** A resume takes the record of a start that is not collected yet: a legal run after which the
      records are not exact. */
  lemma ResumeTakesRecord<A>(st: Settings, url: Url, a: A) returns (es: seq<Event<A>>)
    requires st.processingId != ""
    ensures LegalRun(map[], es) && !ExactRecords(After(map[], es))
  {
    var id, r := st.processingId, FirstSettings(st, url);
    var w := OneAnalyzer(a, r, [Future(id, Start(r), None)], map[id := r], [], [0]);
    RegisteredRun(st, url, a);
    EarlyTail(a, r);
    var tail := [ResumeAnalyze(id)] + ([FinishStart(1, true)] + [CollectResult(1)]);
    Continued(map[], Opening(st, url, a), w, tail);
    es := Opening(st, url, a) + tail;
    assert Future(id, Start(r), None) in After(map[], es).s.futures;
    assert id in StartIds(After(map[], es).s.futures);
  }

  // A running analysis.

  function Reporting<A>(): seq<Event<A>> {
    [FinishStart(0, true)] + [CollectResult(0)]
  }

  lemma ReportingTail<A>(a: A, st: Settings) returns (sent: seq<StateEvent>)
    requires st.processingId != ""
    ensures var id := st.processingId;
      var w := OneAnalyzer(a, st, [Future(id, Start(st), None)], map[id := st], [], [0]);
      && LegalFrom(w, Reporting())
      && ApplyAll(w, Reporting()) == OneAnalyzer(a, st, [], map[], sent, [0])
  {
    var id := st.processingId;
    var w := OneAnalyzer(a, st, [Future(id, Start(st), None)], map[id := st], [], [0]);
    var w1 := Apply(w, FinishStart(0, true));
    assert w1 == OneAnalyzer(a, st, [Future(id, Start(st), Some(true))], map[id := st], [], [0]);
    var w2 := ApplyCollect(w1, 0);
    sent := w2.s.sent;
    assert w2.s.futures == [] && w2.s.records == map[];
    assert w2 == OneAnalyzer(a, st, [], map[], sent, [0]);
    Last(w1, CollectResult(0));
    FirstEvent(w, FinishStart(0, true), [CollectResult(0)]);
  }

  lemma RunningRun<A>(st: Settings, url: Url, a: A) returns (sent: seq<StateEvent>)
    requires st.processingId != ""
    ensures var es := Opening(st, url, a) + Reporting();
      && LegalRun(map[], es)
      && After(map[], es) == OneAnalyzer(a, FirstSettings(st, url), [], map[], sent, [0])
  {
    var id, r := st.processingId, FirstSettings(st, url);
    var w := OneAnalyzer(a, r, [Future(id, Start(r), None)], map[id := r], [], [0]);
    RegisteredRun(st, url, a);
    sent := ReportingTail(a, r);
    Continued(map[], Opening(st, url, a), w, Reporting());
  }

  // A stop of a resumed analysis.

  lemma StopTail<A>(a: A, st: Settings, sent: seq<StateEvent>, url: Url)
    requires st.processingId != ""
    ensures var id := st.processingId;
      var w := OneAnalyzer(a, st, [], map[], sent, [0]);
      var tail := [ResumeAnalyze(id)] + ([FinishStart(0, true)] + [StopAnalyze(id, url)]);
      && LegalFrom(w, tail)
      && ApplyAll(w, tail).s.futures == [Future(id, Resume, Some(true))] && id !in ApplyAll(w, tail).s.byId
  {
    var id := st.processingId;
    var w := OneAnalyzer(a, st, [], map[], sent, [0]);
    var w1 := ApplyResume(w, id);
    assert w1.s.futures == [Future(id, Resume, None)];
    StopResumed(w1, id, url);
    FirstEvent(w, ResumeAnalyze(id), [FinishStart(0, true)] + [StopAnalyze(id, url)]);
  }

  lemma StopResumed<A>(w: World<A>, id: ProcessingId, url: Url)
    requires w.s.futures == [Future(id, Resume, None)] && w.command.Idle? && id != "" && id in w.s.byId
    ensures var tail := [FinishStart(0, true)] + [StopAnalyze(id, url)];
      && LegalFrom(w, tail)
      && ApplyAll(w, tail).s.futures == [Future(id, Resume, Some(true))] && id !in ApplyAll(w, tail).s.byId
  {
    var w2 := Apply(w, FinishStart(0, true));
    assert w2.s.futures == [Future(id, Resume, Some(true))];
    Last(w2, StopAnalyze(id, url));
    FirstEvent(w, FinishStart(0, true), [StopAnalyze(id, url)]);
  }

  /** An analysis resumed and stopped before the resume is collected: the collector, which may act at
      once, dereferences an analyzer that is not there. */
  lemma StopAfterResume<A>(st: Settings, url: Url, a: A) returns (es: seq<Event<A>>)
    requires st.processingId != ""
    ensures LegalRun(map[], es)
    ensures After(map[], es).s.Ready(0) && !After(map[], es).s.CollectDefined(0)
  {
    var id := st.processingId;
    var sent := RunningRun(st, url, a);
    StopTail(a, FirstSettings(st, url), sent, url);
    var tail := [ResumeAnalyze(id)] + ([FinishStart(0, true)] + [StopAnalyze(id, url)]);
    Continued(map[], Opening(st, url, a) + Reporting(), OneAnalyzer(a, FirstSettings(st, url), [], map[], sent, [0]), tail);
    es := Opening(st, url, a) + Reporting() + tail;
  }

  // A stop whose source address is empty.

  /** A stop that finds the source address empty removes the analysis and leaves its log entry. */
  lemma EmptyAddressLeavesEntry<A>(st: Settings, url: Url, a: A) returns (es: seq<Event<A>>)
    requires st.processingId != ""
    ensures LegalRun(map[], es) && After(map[], es).command.Idle? && !LogExact(After(map[], es))
    ensures st.processingId in After(map[], es).s.openOperations && st.processingId in After(map[], es).h.destroyed
  {
    var id, r := st.processingId, FirstSettings(st, url);
    var sent := RunningRun(st, url, a);
    var w := OneAnalyzer(a, r, [], map[], sent, [0]);
    Last(w, StopAnalyze(id, ""));
    es := Opening(st, url, a) + Reporting() + [StopAnalyze(id, "")];
    Continued(map[], Opening(st, url, a) + Reporting(), w, [StopAnalyze(id, "")]);
    assert After(map[], es) == ApplyStop(w, id, "");
  }

  // A stop of a start that has not registered.

  lemma PendingTail<A>(st: Settings, url: Url, a: A)
    requires st.processingId != ""
    ensures var id := st.processingId; var w := ApplyOpen(ApplyStart(Initial<A>(map[]), st, url));
      var tail := [StopAnalyze(id, url)] + [RegisterAnalyzer(0, a)];
      && LegalFrom(w, tail) && !ExactRecords(ApplyAll(w, tail)) && id in ApplyAll(w, tail).s.byId
  {
    var id, r := st.processingId, FirstSettings(st, url);
    OpenedWorld<A>(st, url);
    var w := ApplyOpen(ApplyStart(Initial<A>(map[]), st, url));
    var w1 := ApplyStop(w, id, url);
    var w2 := ApplyRegister(w1, 0, a);
    assert w2.s.futures[0] == Future(id, Start(r), None) && w2.s.futures[0] in w2.s.futures;
    assert id in StartIds(w2.s.futures) && id !in w2.s.records;
    Last(w1, RegisterAnalyzer(0, a));
    FirstEvent(w, StopAnalyze(id, url), [RegisterAnalyzer(0, a)]);
  }

  /** A stop of a start that has not registered takes its record only: the analyzer registers all the same. */
  lemma StopTakesRecord<A>(st: Settings, url: Url, a: A) returns (es: seq<Event<A>>)
    requires st.processingId != ""
    ensures LegalRun(map[], es) && |es| == 4 && es[2] == StopAnalyze(st.processingId, url)
    ensures !ExactRecords(After(map[], es)) && st.processingId in After(map[], es).s.byId
  {
    var w0 := Initial<A>(map[]);
    var w1 := ApplyStart(w0, st, url);
    var tail := [StopAnalyze(st.processingId, url)] + [RegisterAnalyzer(0, a)];
    OpenedWorld<A>(st, url);
    PendingTail(st, url, a);
    FirstEvent(w1, OpenOperation, tail);
    FirstEvent(w0, StartAnalyze(st, url), [OpenOperation] + tail);
    es := [StartAnalyze(st, url)] + ([OpenOperation] + tail);
    EmptyRun<A>(map[]);
    Continued(map[], [], w0, es);
    assert [] + es == es;
  }

  // A session number issued twice.

  lemma SecondStart<A>(a: A, st: Settings, sent: seq<StateEvent>, other: Settings, url: Url)
    requires st.currentSession == 0 && other.processingId != "" && other.processingId != st.processingId && st.processingId != ""
    requires other.sensorId == st.sensorId
    ensures var w := OneAnalyzer(a, st, [], map[], sent, [0]);
      var w2 := ApplyOpen(ApplyStart(w, other, url));
      && Legal(w, StartAnalyze(other, url)) && ApplyStart(w, other, url).command.Opening?
      && w2.command.Idle? && w2.s.objects == w.s.objects && w2.s.byId == w.s.byId
      && Issued(w2.h, st.sensorId) == [0, 1]
  {
    var w := OneAnalyzer(a, st, [], map[], sent, [0]);
    assert w.s.objects[a].settings != other;
    assert [0] + [1] == [0, 1];
  }

  lemma RepeatTail<A>(a: A, st: Settings, sent: seq<StateEvent>, other: Settings, url: Url)
    requires st.currentSession == 0 && other.processingId != "" && other.processingId != st.processingId && st.processingId != ""
    requires other.sensorId == st.sensorId
    ensures var w := OneAnalyzer(a, st, [], map[], sent, [0]);
      var tail := [StartAnalyze(other, url)] + ([OpenOperation] + [ResumeAnalyze(st.processingId)]);
      LegalFrom(w, tail) && Issued(ApplyAll(w, tail).h, st.sensorId) == [0, 1, 1]
  {
    var w := OneAnalyzer(a, st, [], map[], sent, [0]);
    SecondStart(a, st, sent, other, url);
    var w1 := ApplyStart(w, other, url);
    var w2 := ApplyOpen(w1);
    assert [0, 1] + [1] == [0, 1, 1];
    Last(w2, ResumeAnalyze(st.processingId));
    FirstEvent(w1, OpenOperation, [ResumeAnalyze(st.processingId)]);
    FirstEvent(w, StartAnalyze(other, url), [OpenOperation] + [ResumeAnalyze(st.processingId)]);
  }

  /** Two analyses of one sensor: the resume of the first is given the number of the second. */
  lemma SessionRepeats<A>(st: Settings, other: Settings, url: Url, a: A) returns (es: seq<Event<A>>)
    requires st.processingId != "" && other.processingId != "" && other.processingId != st.processingId && other.sensorId == st.sensorId
    ensures LegalRun(map[], es) && Issued(After(map[], es).h, st.sensorId) == [0, 1, 1]
    ensures !Consecutive(map[], After(map[], es))
  {
    var r := FirstSettings(st, url);
    var sent := RunningRun(st, url, a);
    RepeatTail(a, r, sent, other, url);
    var tail := [StartAnalyze(other, url)] + ([OpenOperation] + [ResumeAnalyze(st.processingId)]);
    Continued(map[], Opening(st, url, a) + Reporting(), OneAnalyzer(a, r, [], map[], sent, [0]), tail);
    es := Opening(st, url, a) + Reporting() + tail;
    assert Issued(After(map[], es).h, st.sensorId)[2] == 1;
  }
}
