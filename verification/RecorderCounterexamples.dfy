/** Runs that show the recorder's exceptions can be reached. */
module RecorderCounterexamples {
  import opened Common
  import opened RecorderModel
  import opened RecorderRotation
  import opened RecorderIndexes
  import opened RecorderRuns
  import opened RecorderPasses
  import opened RecorderSensors
  import opened RecorderReferences

  const Success := Outcome(true, true)

  /** A recorder with one archiver, started by the one accepted start. */
  function OneArchiver(id: ArchivingId, source: Source, futures: seq<Future>, records: map<ArchivingId, Source>, sent: seq<StateEvent>): World {
    var a := Archiver(id, source, 0);
    World(State(Registry(Index([a], map[id := a]), map[source.sourceUrl := 1], 1), futures, records, [], sent),
          Threads(Idle, []), History({id}, {}, {}))
  }

  function Started(id: ArchivingId, source: Source): seq<Event> {
    [StartRecording(id, source)] + ([PublishRecord] + [FinishStart(0, Success)])
  }

  /** A start that succeeds and is not collected yet. */
  lemma StartedRun(c: Config, id: ArchivingId, source: Source)
    requires id != "" && source.sourceUrl != ""
    ensures LegalRun(c, Started(id, source))
    ensures After(c, Started(id, source)) == OneArchiver(id, source, [Future(id, source, Some(true))], map[id := source], [])
  {
    var w1 := ApplyStart(Initial(), id, source);
    assert w1.s.futures == [Future(id, source, None)];
    var w2 := ApplyPublish(w1);
    var w3 := Apply(c, w2, FinishStart(0, Success));
    assert w3 == OneArchiver(id, source, [Future(id, source, Some(true))], map[id := source], []);
    Single(c, w2, FinishStart(0, Success));
    FirstEvent(c, w1, PublishRecord, [FinishStart(0, Success)]);
    FirstEvent(c, Initial(), StartRecording(id, source), [PublishRecord] + [FinishStart(0, Success)]);
    FromStart(c, Started(id, source));
  }

  lemma Single(c: Config, w: World, e: Event)
    ensures ApplyAll(c, w, [e]) == Apply(c, w, e) && (LegalFrom(c, w, [e]) <==> Legal(w, e))
  {
    FirstEvent(c, w, e, []);
    assert [e] + [] == [e];
  }

  lemma FromStart(c: Config, es: seq<Event>)
    requires LegalFrom(c, Initial(), es)
    ensures LegalRun(c, es) && After(c, es) == ApplyAll(c, Initial(), es)
  {
    Continued(c, [], Initial(), es);
    assert [] + es == es;
  }

  /** Stopped before it is collected, a successful start leaves the collector nothing to find. */
  lemma StopBeforeCollection(c: Config, id: ArchivingId, source: Source)
    requires id != "" && source.sourceUrl != ""
    ensures var es := Started(id, source) + [StopRecording(id)]; var w := After(c, es);
      && LegalRun(c, es) && !StartedFound(w)
      && Legal(w, CollectResult(0)) && !w.s.CollectDefined(0)
  {
    StartedRun(c, id, source);
    var w := OneArchiver(id, source, [Future(id, source, Some(true))], map[id := source], []);
    Single(c, w, StopRecording(id));
    Continued(c, Started(id, source), w, [StopRecording(id)]);
    var w' := Apply(c, w, StopRecording(id));
    assert w'.s.futures[0] in w'.s.futures;
  }

  function Failed(id: ArchivingId, source: Source): seq<Event> {
    [StartRecording(id, source)] + [FinishStart(0, Outcome(false, false))]
  }

  /** A start that fails between its two locks can be collected there, and then has no record to look up. */
  lemma FailureBeforeRecord(c: Config, id: ArchivingId, source: Source)
    requires id != ""
    ensures var es := Failed(id, source); var w := After(c, es);
      && LegalRun(c, es)
      && Legal(w, CollectResult(0)) && !RecordFirst(w, CollectResult(0)) && !w.s.CollectDefined(0)
  {
    var w1 := ApplyStart(Initial(), id, source);
    assert w1.s.futures == [Future(id, source, None)];
    Single(c, w1, FinishStart(0, Outcome(false, false)));
    FirstEvent(c, Initial(), StartRecording(id, source), [FinishStart(0, Outcome(false, false))]);
    FromStart(c, Failed(id, source));
  }

  /** A start whose source connects and whose archiver does not keeps its reference. */
  lemma FailureKeepsReference(c: Config, id: ArchivingId, source: Source)
    requires id != "" && source.sourceUrl != ""
    ensures var es := [StartRecording(id, source)] + [FinishStart(0, Outcome(true, false))]; var r := After(c, es).s.rec;
      LegalRun(c, es) && Ref(r.refs, source.sourceUrl) == 1 && r.ix == Index([], map[]) && !Balanced(r)
  {
    var w1 := ApplyStart(Initial(), id, source);
    assert w1.s.futures == [Future(id, source, None)];
    var e := FinishStart(0, Outcome(true, false));
    Single(c, w1, e);
    FirstEvent(c, Initial(), StartRecording(id, source), [e]);
    FromStart(c, [StartRecording(id, source)] + [e]);
    assert RegisteredOn(map[], source.sourceUrl) == {};
  }

  function CollectedEarly(id: ArchivingId, source: Source): seq<Event> {
    [StartRecording(id, source)] + ([FinishStart(0, Success)] + ([CollectResult(0)] + [PublishRecord]))
  }

  /** A start that succeeds and is collected there leaves a record that no start belongs to. */
  lemma SuccessBeforeRecord(c: Config, id: ArchivingId, source: Source)
    requires id != "" && source.sourceUrl != ""
    ensures var es := CollectedEarly(id, source); var w := After(c, es);
      && LegalRun(c, es) && w.t == Threads(Idle, []) && !ExactRecords(w)
      && w.s.futures == [] && w.h.failed == {} && id in w.s.records
  {
    var w1 := ApplyStart(Initial(), id, source);
    assert w1.s.futures == [Future(id, source, None)];
    var w2 := Apply(c, w1, FinishStart(0, Success));
    assert w2.s.futures == [Future(id, source, Some(true))];
    var w3 := ApplyCollect(w2, 0);
    Single(c, w3, PublishRecord);
    FirstEvent(c, w2, CollectResult(0), [PublishRecord]);
    FirstEvent(c, w1, FinishStart(0, Success), [CollectResult(0)] + [PublishRecord]);
    FirstEvent(c, Initial(), StartRecording(id, source), [FinishStart(0, Success)] + ([CollectResult(0)] + [PublishRecord]));
    FromStart(c, CollectedEarly(id, source));
    assert id in Recorded(ApplyPublish(w3)) && FutureIds([]) == {};
  }

  // Two archivers of one sensor.

  function TwoStarts(x: ArchivingId, y: ArchivingId, source: Source): seq<Event> {
    [StartRecording(x, source)] + ([PublishRecord] + ([StartRecording(y, source)] + ([PublishRecord] + BothSucceed())))
  }

  function BothSucceed(): seq<Event> {
    [FinishStart(0, Success)] + [FinishStart(1, Success)]
  }

  lemma TwoAccepted(c: Config, x: ArchivingId, y: ArchivingId, source: Source)
    requires x != "" && y != "" && x != y
    ensures var w := ApplyPublish(ApplyStart(ApplyPublish(ApplyStart(Initial(), x, source)), y, source));
      && w.s.futures == [Future(x, source, None), Future(y, source, None)] && w.s.rec == Initial().s.rec
      && (LegalFrom(c, w, BothSucceed()) ==> LegalFrom(c, Initial(), TwoStarts(x, y, source)))
      && ApplyAll(c, Initial(), TwoStarts(x, y, source)) == ApplyAll(c, w, BothSucceed())
  {
    var w1 := ApplyStart(Initial(), x, source);
    assert w1.s.futures == [Future(x, source, None)];
    var w2 := ApplyPublish(w1);
    var w3 := ApplyStart(w2, y, source);
    FirstEvent(c, w3, PublishRecord, BothSucceed());
    FirstEvent(c, w2, StartRecording(y, source), [PublishRecord] + BothSucceed());
    FirstEvent(c, w1, PublishRecord, [StartRecording(y, source)] + ([PublishRecord] + BothSucceed()));
    FirstEvent(c, Initial(), StartRecording(x, source), [PublishRecord] + ([StartRecording(y, source)] + ([PublishRecord] + BothSucceed())));
  }

  lemma BothRegister(c: Config, w: World, x: ArchivingId, y: ArchivingId, source: Source)
    requires w.s.futures == [Future(x, source, None), Future(y, source, None)] && w.s.rec == Initial().s.rec
    requires source.sourceUrl != ""
    ensures LegalFrom(c, w, BothSucceed())
    ensures ApplyAll(c, w, BothSucceed()).s.rec.ix.creators == [Archiver(x, source, 0), Archiver(y, source, 1)]
  {
    var w1 := Apply(c, w, FinishStart(0, Success));
    assert w1.s.futures == [Future(x, source, Some(true)), Future(y, source, None)];
    Single(c, w1, FinishStart(1, Success));
    FirstEvent(c, w, FinishStart(0, Success), [FinishStart(1, Success)]);
  }

  lemma TwoArchivers(x: Archiver, y: Archiver)
    requires x.source.sensorId == y.source.sensorId
    ensures !OnePerSensor([x, y])
  {
    var list := [x, y];
    assert list[0].source.sensorId == list[1].source.sensorId;
  }

  /** Two starts of one sensor, the second accepted before the first has registered, record it twice. */
  lemma SensorRecordedTwice(c: Config, x: ArchivingId, y: ArchivingId, source: Source)
    requires x != "" && y != "" && x != y && source.sourceUrl != ""
    ensures LegalRun(c, TwoStarts(x, y, source))
    ensures !OnePerSensor(After(c, TwoStarts(x, y, source)).s.rec.ix.creators)
  {
    var w := ApplyPublish(ApplyStart(ApplyPublish(ApplyStart(Initial(), x, source)), y, source));
    TwoAccepted(c, x, y, source);
    BothRegister(c, w, x, y, source);
    FromStart(c, TwoStarts(x, y, source));
    TwoArchivers(Archiver(x, source, 0), Archiver(y, source, 1));
  }

  // A stop between the two phases of a rotation.

  /** A reading that makes a block due whatever the interval. */
  function DueReading(c: Config): Reading {
    Reading(1 + MaxInt(0, (c.newDataBlockIntervalMin * 60 + 5) * 1000), 1)
  }

  lemma RetireOne(c: Config, id: ArchivingId, source: Source, sent: seq<StateEvent>)
    requires source.sourceUrl != ""
    ensures var w := Apply(c, OneArchiver(id, source, [], map[], sent), RetireDue(map[0 := DueReading(c)]));
      && w.t == Threads(Idle, [Archiver(id, source, 0)]) && w.s.rec.ix == Index([], map[])
      && w.s.rec.launches == 1 && w.s.records == map[]
  {
    var p := DueAt(c, map[0 := DueReading(c)]);
    DueExactly(c, DueReading(c));
    var a := Archiver(id, source, 0);
    assert p(a);
    assert [a][1..] == [] && Without([], p) == [] && Taken([], p) == [];
    assert Taken([a], p) == [a] && Without([a], p) == [];
    assert Ids([a]) == {id};
    assert map[id := a] - {id} == map[];
  }

  /** An archiving stopped while a rotation has retired it comes back: after the run the stop is done
      and refused, and the relaunch has put the archiver into both indexes. */
  lemma StoppedComesBack(c: Config, id: ArchivingId, source: Source) returns (es: seq<Event>)
    requires id != "" && source.sourceUrl != ""
    ensures LegalRun(c, es) && |es| == 7 && es[5] == StopRecording(id) && es[6] == RelaunchNext(Success)
    ensures id in After(c, es).s.rec.ix.byId && Archiver(id, source, 1) in After(c, es).s.rec.ix.creators
  {
    StartedRun(c, id, source);
    RotatedTail(c, id, source);
    var w := OneArchiver(id, source, [Future(id, source, Some(true))], map[id := source], []);
    hide LegalRun, LegalFrom, After, ApplyAll, OneArchiver;
    Continued(c, Started(id, source), w, Rotated(c, id));
    es := Started(id, source) + Rotated(c, id);
  }

  function Rotated(c: Config, id: ArchivingId): seq<Event> {
    [CollectResult(0)] + ([RetireDue(map[0 := DueReading(c)])] + ([StopRecording(id)] + [RelaunchNext(Success)]))
  }

  lemma CollectOne(c: Config, id: ArchivingId, source: Source) returns (sent: seq<StateEvent>)
    requires id != ""
    ensures var w := OneArchiver(id, source, [Future(id, source, Some(true))], map[id := source], []);
      Legal(w, CollectResult(0)) && Apply(c, w, CollectResult(0)) == OneArchiver(id, source, [], map[], sent)
  {
    sent := ApplyCollect(OneArchiver(id, source, [Future(id, source, Some(true))], map[id := source], []), 0).s.sent;
    assert map[id := source] - {id} == map[];
  }

  lemma RotatedTail(c: Config, id: ArchivingId, source: Source)
    requires id != "" && source.sourceUrl != ""
    ensures var w := OneArchiver(id, source, [Future(id, source, Some(true))], map[id := source], []);
      && LegalFrom(c, w, Rotated(c, id))
      && id in ApplyAll(c, w, Rotated(c, id)).s.rec.ix.byId
      && ApplyAll(c, w, Rotated(c, id)).s.rec.ix.creators == [Archiver(id, source, 1)]
  {
    var w3 := OneArchiver(id, source, [Future(id, source, Some(true))], map[id := source], []);
    var sent := CollectOne(c, id, source);
    var w4 := OneArchiver(id, source, [], map[], sent);
    var retire := RetireDue(map[0 := DueReading(c)]);
    RetireOne(c, id, source, sent);
    StopAndRelaunch(c, Apply(c, w4, retire), id, source);
    var tail := [StopRecording(id)] + [RelaunchNext(Success)];
    FirstEvent(c, w4, retire, tail);
    FirstEvent(c, w3, CollectResult(0), [retire] + tail);
  }

  lemma StopAndRelaunch(c: Config, w: World, id: ArchivingId, source: Source)
    requires source.sourceUrl != "" && w.t == Threads(Idle, [Archiver(id, source, 0)]) && w.s.rec.ix == Index([], map[])
    requires w.s.rec.launches == 1 && w.s.records == map[]
    ensures var tail := [StopRecording(id)] + [RelaunchNext(Success)];
      && LegalFrom(c, w, tail)
      && var w' := ApplyAll(c, w, tail); id in w'.s.rec.ix.byId && w'.s.rec.ix.creators == [Archiver(id, source, 1)]
  {
    var w6 := Apply(c, w, StopRecording(id));
    assert w6.s == w.s && w6.t == w.t;
    Single(c, w6, RelaunchNext(Success));
    FirstEvent(c, w, StopRecording(id), [RelaunchNext(Success)]);
  }

  // A start between the two phases of a rotation.

  function RotatedAround(c: Config, y: ArchivingId, source: Source): seq<Event> {
    [CollectResult(0)] + ([RetireDue(map[0 := DueReading(c)])] + StartedInGap(y, source))
  }

  function StartedInGap(y: ArchivingId, source: Source): seq<Event> {
    [StartRecording(y, source)] + ([RelaunchNext(Success)] + [FinishStart(0, Success)])
  }

  lemma StartAndRelaunch(c: Config, w: World, x: ArchivingId, y: ArchivingId, source: Source)
    requires source.sourceUrl != "" && w.t == Threads(Idle, [Archiver(x, source, 0)]) && w.s.rec.ix == Index([], map[])
    requires w.s.rec.launches == 1 && w.s.futures == [] && y != "" && y !in w.h.accepted
    ensures LegalFrom(c, w, StartedInGap(y, source))
    ensures ApplyAll(c, w, StartedInGap(y, source)).s.rec.ix.creators == [Archiver(x, source, 1), Archiver(y, source, 2)]
  {
    var w1 := ApplyStart(w, y, source);
    assert w1.s.futures == [Future(y, source, None)];
    var w2 := Apply(c, w1, RelaunchNext(Success));
    assert w2.s.rec.ix.creators == [Archiver(x, source, 1)];
    Single(c, w2, FinishStart(0, Success));
    FirstEvent(c, w1, RelaunchNext(Success), [FinishStart(0, Success)]);
    FirstEvent(c, w, StartRecording(y, source), [RelaunchNext(Success)] + [FinishStart(0, Success)]);
  }

  lemma RotatedAroundTail(c: Config, x: ArchivingId, y: ArchivingId, source: Source)
    requires x != "" && y != "" && x != y && source.sourceUrl != ""
    ensures var w := OneArchiver(x, source, [Future(x, source, Some(true))], map[x := source], []);
      && LegalFrom(c, w, RotatedAround(c, y, source))
      && ApplyAll(c, w, RotatedAround(c, y, source)).s.rec.ix.creators == [Archiver(x, source, 1), Archiver(y, source, 2)]
  {
    var w3 := OneArchiver(x, source, [Future(x, source, Some(true))], map[x := source], []);
    var sent := CollectOne(c, x, source);
    var w4 := OneArchiver(x, source, [], map[], sent);
    var retire := RetireDue(map[0 := DueReading(c)]);
    RetireOne(c, x, source, sent);
    StartAndRelaunch(c, Apply(c, w4, retire), x, y, source);
    FirstEvent(c, w4, retire, StartedInGap(y, source));
    FirstEvent(c, w3, CollectResult(0), [retire] + StartedInGap(y, source));
  }

  /** A sensor whose archiver a rotation has retired can be started anew, and the archiver comes back. */
  lemma SensorRestartedInGap(c: Config, x: ArchivingId, y: ArchivingId, source: Source)
    requires x != "" && y != "" && x != y && source.sourceUrl != ""
    ensures var es := Started(x, source) + RotatedAround(c, y, source);
      LegalRun(c, es) && !OnePerSensor(After(c, es).s.rec.ix.creators)
  {
    StartedRun(c, x, source);
    RotatedAroundTail(c, x, y, source);
    TwoArchivers(Archiver(x, source, 1), Archiver(y, source, 2));
    var w := OneArchiver(x, source, [Future(x, source, Some(true))], map[x := source], []);
    hide LegalRun, LegalFrom, After, ApplyAll, OneArchiver, OnePerSensor;
    Continued(c, Started(x, source), w, RotatedAround(c, y, source));
  }
}
