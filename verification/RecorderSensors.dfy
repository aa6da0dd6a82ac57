/** One archiver for each sensor: when the vector keeps it, and how the commands can see to it. */
module RecorderSensors {
  import opened Common
  import opened RecorderModel
  import opened RecorderRuns

  ghost predicate OnePerSensor(list: seq<Archiver>) {
    forall i, j :: 0 <= i < j < |list| ==> list[i].source.sensorId != list[j].source.sensorId
  }

  /** The sensor for which the step registers an archiver. */
  function Registers(w: World, e: Event): Option<SensorId> {
    match e
    case FinishStart(i, o) =>
      if i < |w.s.futures| && w.s.futures[i].source.Answer(o).Succeeds() then Some(w.s.futures[i].source.sensorId) else None
    case RelaunchNext(o) =>
      if w.t.restarts != [] && w.t.restarts[0].source.Answer(o).Succeeds() then Some(w.t.restarts[0].source.sensorId) else None
    case _ => None
  }

  /** Nobody asks this any more once a start is accepted or an archiver retired. */
  ghost predicate SensorFree(w: World, e: Event) {
    Registers(w, e).Some? ==> !w.s.rec.ix.SensorBusy(Registers(w, e).value)
  }

  lemma {:induction false} SensorsWithout(list: seq<Archiver>, p: Archiver -> bool)
    requires OnePerSensor(list)
    ensures OnePerSensor(Without(list, p))
    ensures forall a :: a in Without(list, p) ==> a in list
  {
    if list != [] {
      SensorsWithout(list[1..], p);
      forall a | a in Without(list[1..], p) ensures a.source.sensorId != list[0].source.sensorId {
        assert a in list[1..];
      }
    }
  }

  lemma SensorsErased(list: seq<Archiver>, k: nat)
    requires OnePerSensor(list) && k < |list|
    ensures OnePerSensor(Erased(list, k))
  {
  }

  lemma SensorsAppended(list: seq<Archiver>, a: Archiver)
    requires OnePerSensor(list)
    ensures OnePerSensor(list + [a]) <==> forall b :: b in list ==> b.source.sensorId != a.source.sensorId
  {
    if OnePerSensor(list + [a]) {
      forall b | b in list ensures b.source.sensorId != a.source.sensorId {
        var i :| 0 <= i < |list| && list[i] == b;
        assert (list + [a])[i] == b && (list + [a])[|list|] == a;
      }
    }
  }

  lemma SensorsLaunch(r: Registry, id: ArchivingId, source: Source, o: Outcome)
    requires OnePerSensor(r.ix.creators)
    ensures OnePerSensor(r.Launch(id, source, o).ix.creators) <==> (o.Succeeds() ==> !r.ix.SensorBusy(source.sensorId))
  {
    SensorsAppended(r.ix.creators, Archiver(id, source, r.launches));
  }

  lemma SensorsStep(c: Config, w: World, e: Event)
    requires OnePerSensor(w.s.rec.ix.creators)
    ensures OnePerSensor(Apply(c, w, e).s.rec.ix.creators) <==> SensorFree(w, e)
  {
    var list := w.s.rec.ix.creators;
    match e
    case FinishStart(i, o) =>
      if i < |w.s.futures| {
        SensorsLaunch(w.s.rec, w.s.futures[i].id, w.s.futures[i].source, w.s.futures[i].source.Answer(o));
      }
    case RelaunchNext(o) =>
      if w.t.restarts != [] {
        var a := w.t.restarts[0];
        SensorsLaunch(w.s.rec, a.id, a.source, a.source.Answer(o));
      }
    case StopRecording(id) =>
      var k := w.s.rec.ix.IndexOf(id, 0);
      if k < |list| { SensorsErased(list, k); }
    case LoseSource(url) => SensorsWithout(list, OnSource(url));
    case PruneDied(lost) => SensorsWithout(list, ConnectionLost(lost));
    case RetireDue(readings) => SensorsWithout(list, DueAt(c, readings));
    case StartRecording(_, _) =>
    case PublishRecord =>
    case CollectResult(_) =>
  }

  ghost predicate OnePerSensorAt(c: Config, es: seq<Event>, k: nat) {
    k <= |es| && OnePerSensor(After(c, es[..k]).s.rec.ix.creators)
  }

  ghost predicate SensorFreeAt(c: Config, es: seq<Event>, k: nat) {
    k < |es| && SensorFree(After(c, es[..k]), es[k])
  }

  /** No two archivers of the vector record one sensor, throughout a run, if and only if every start and
      every relaunch that registers an archiver finds its sensor free. */
  lemma {:induction false} OneArchiverPerSensor(c: Config, es: seq<Event>)
    ensures (forall k: nat :: k <= |es| ==> OnePerSensorAt(c, es, k)) <==> (forall k: nat :: k < |es| ==> SensorFreeAt(c, es, k))
  {
    var one := (k: nat) => OnePerSensorAt(c, es, k);
    var free := (k: nat) => SensorFreeAt(c, es, k);
    forall k: nat | k < |es| && one(k) ensures one(k + 1) <==> free(k) {
      AfterStep(c, es, k);
      SensorsStep(c, After(c, es[..k]), es[k]);
    }
    assert After(c, es[..0]) == Initial();
    HoldsThroughout(one, free, |es|);
    assert forall k: nat :: one(k) <==> OnePerSensorAt(c, es, k);
    assert forall k: nat :: free(k) <==> SensorFreeAt(c, es, k);
  }

  // Claims: what will register for a sensor, or has.

  function Archivers(list: seq<Archiver>, sensor: SensorId): nat {
    if list == [] then 0 else (if list[0].source.sensorId == sensor then 1 else 0) + Archivers(list[1..], sensor)
  }

  /** The starts whose threads have not returned. */
  function Running(fs: seq<Future>, sensor: SensorId): nat {
    if fs == [] then 0
    else (if fs[0].result.None? && fs[0].source.sensorId == sensor then 1 else 0) + Running(fs[1..], sensor)
  }

  /** What may still register for the sensor: running starts and retired archivers. */
  function Coming(w: World, sensor: SensorId): nat {
    Running(w.s.futures, sensor) + Archivers(w.t.restarts, sensor)
  }

  function Claims(w: World, sensor: SensorId): nat {
    Archivers(w.s.rec.ix.creators, sensor) + Coming(w, sensor)
  }

  ghost predicate OneClaim(w: World) {
    forall sensor :: Claims(w, sensor) <= 1
  }

  /** An accepted start is the only one of its sensor: nothing else may still register for it. */
  ghost predicate StartsAlone(w: World, e: Event) {
    e.StartRecording? && !w.s.rec.ix.SensorBusy(e.source.sensorId) ==> Coming(w, e.source.sensorId) == 0
  }

  lemma {:induction false} ArchiversAppended(a: seq<Archiver>, b: seq<Archiver>, sensor: SensorId)
    ensures Archivers(a + b, sensor) == Archivers(a, sensor) + Archivers(b, sensor)
  {
    if a == [] {
      assert a + b == b;
    } else {
      ArchiversAppended(a[1..], b, sensor);
      assert (a + b)[1..] == a[1..] + b;
    }
  }

  lemma {:induction false} ArchiversSplit(list: seq<Archiver>, p: Archiver -> bool, sensor: SensorId)
    ensures Archivers(list, sensor) == Archivers(Without(list, p), sensor) + Archivers(Taken(list, p), sensor)
  {
    if list != [] {
      ArchiversSplit(list[1..], p, sensor);
      if p(list[0]) {
        assert Taken(list, p)[1..] == Taken(list[1..], p) && Without(list, p) == Without(list[1..], p);
      } else {
        assert Without(list, p)[1..] == Without(list[1..], p) && Taken(list, p) == Taken(list[1..], p);
      }
    }
  }

  lemma {:induction false} ArchiversErased(list: seq<Archiver>, k: nat, sensor: SensorId)
    requires k < |list|
    ensures Archivers(Erased(list, k), sensor) <= Archivers(list, sensor)
  {
    ArchiversAppended(list[..k], list[k + 1..], sensor);
    ArchiversAppended(list[..k], list[k..], sensor);
    assert list == list[..k] + list[k..] && list[k..][1..] == list[k + 1..];
  }

  lemma {:induction false} ArchiversIn(list: seq<Archiver>, sensor: SensorId)
    ensures Archivers(list, sensor) == 0 <==> forall a :: a in list ==> a.source.sensorId != sensor
  {
    if list != [] {
      ArchiversIn(list[1..], sensor);
      assert list == [list[0]] + list[1..];
    }
  }

  lemma {:induction false} ArchiversDistinct(list: seq<Archiver>)
    requires forall sensor :: Archivers(list, sensor) <= 1
    ensures OnePerSensor(list)
  {
    if list != [] {
      forall sensor ensures Archivers(list[1..], sensor) <= 1 {
        assert Archivers(list, sensor) <= 1;
      }
      ArchiversDistinct(list[1..]);
      ArchiversIn(list[1..], list[0].source.sensorId);
      assert Archivers(list, list[0].source.sensorId) <= 1;
      forall j | 0 < j < |list| ensures list[j].source.sensorId != list[0].source.sensorId {
        assert list[j] in list[1..];
      }
    }
  }

  lemma {:induction false} RunningAppended(a: seq<Future>, b: seq<Future>, sensor: SensorId)
    ensures Running(a + b, sensor) == Running(a, sensor) + Running(b, sensor)
  {
    if a == [] {
      assert a + b == b;
    } else {
      RunningAppended(a[1..], b, sensor);
      assert (a + b)[1..] == a[1..] + b;
    }
  }

  lemma RunningAt(fs: seq<Future>, i: nat, sensor: SensorId)
    requires i < |fs|
    ensures Running(fs, sensor) == Running(fs[..i], sensor) + Running([fs[i]], sensor) + Running(fs[i + 1..], sensor)
  {
    RunningAppended(fs[..i] + [fs[i]], fs[i + 1..], sensor);
    RunningAppended(fs[..i], [fs[i]], sensor);
    assert fs == fs[..i] + [fs[i]] + fs[i + 1..];
  }

  lemma RunningFinished(fs: seq<Future>, i: nat, result: bool, sensor: SensorId)
    requires i < |fs| && fs[i].result.None?
    ensures Running(fs[i := fs[i].(result := Some(result))], sensor) ==
      Running(fs, sensor) - if fs[i].source.sensorId == sensor then 1 else 0
  {
    var fs' := fs[i := fs[i].(result := Some(result))];
    RunningAt(fs, i, sensor);
    RunningAt(fs', i, sensor);
    assert fs'[..i] == fs[..i] && fs'[i + 1..] == fs[i + 1..];
  }

  lemma RunningCollected(fs: seq<Future>, i: nat, sensor: SensorId)
    requires i < |fs| && fs[i].result.Some?
    ensures Running(Erased(fs, i), sensor) == Running(fs, sensor)
  {
    RunningAt(fs, i, sensor);
    RunningAppended(fs[..i], fs[i + 1..], sensor);
  }

  /** Only an accepted start makes a new claim. */
  lemma ClaimsFinish(w: World, i: nat, o: Outcome, sensor: SensorId)
    requires i < |w.s.futures| && w.s.futures[i].result.None?
    ensures Claims(w.(s := w.s.Finish(i, o)), sensor) <= Claims(w, sensor)
  {
    var f := w.s.futures[i];
    RunningFinished(w.s.futures, i, f.source.Answer(o).Succeeds(), sensor);
    ArchiversAppended(w.s.rec.ix.creators, [Archiver(f.id, f.source, w.s.rec.launches)], sensor);
  }

  lemma ClaimsRelaunch(w: World, o: Outcome, sensor: SensorId)
    ensures Claims(ApplyRelaunch(w, o), sensor) <= Claims(w, sensor)
  {
    if w.t.restarts != [] {
      var a := w.t.restarts[0];
      ArchiversAppended(w.s.rec.ix.creators, [Archiver(a.id, a.source, w.s.rec.launches)], sensor);
    }
  }

  lemma ClaimsStop(w: World, id: ArchivingId, sensor: SensorId)
    ensures Claims(w.(s := w.s.StopRecording(id).0), sensor) <= Claims(w, sensor)
  {
    var k := w.s.rec.ix.IndexOf(id, 0);
    if k < |w.s.rec.ix.creators| {
      ArchiversErased(w.s.rec.ix.creators, k, sensor);
    }
  }

  lemma ClaimsStep(c: Config, w: World, e: Event, sensor: SensorId)
    requires Legal(w, e) && !e.StartRecording?
    ensures Claims(Apply(c, w, e), sensor) <= Claims(w, sensor)
  {
    var list := w.s.rec.ix.creators;
    match e
    case FinishStart(i, o) => ClaimsFinish(w, i, o, sensor);
    case RelaunchNext(o) => ClaimsRelaunch(w, o, sensor);
    case CollectResult(i) => RunningCollected(w.s.futures, i, sensor);
    case StopRecording(id) => ClaimsStop(w, id, sensor);
    case LoseSource(url) => ArchiversSplit(list, OnSource(url), sensor);
    case PruneDied(lost) => ArchiversSplit(list, ConnectionLost(lost), sensor);
    case RetireDue(readings) => ArchiversSplit(list, DueAt(c, readings), sensor);
    case PublishRecord =>
  }

  lemma ClaimsStart(w: World, id: ArchivingId, source: Source)
    requires OneClaim(w)
    ensures OneClaim(ApplyStart(w, id, source)) <==> StartsAlone(w, StartRecording(id, source))
  {
    if !w.s.rec.ix.SensorBusy(source.sensorId) {
      var w' := ApplyStart(w, id, source);
      ArchiversIn(w.s.rec.ix.creators, source.sensorId);
      forall sensor ensures Claims(w', sensor) == Claims(w, sensor) + if sensor == source.sensorId then 1 else 0 {
        RunningAppended(w.s.futures, [Future(id, source, None)], sensor);
      }
      assert Claims(w', source.sensorId) == Coming(w, source.sensorId) + 1;
    }
  }

  lemma OneClaimStep(c: Config, w: World, e: Event)
    requires Legal(w, e) && OneClaim(w)
    ensures OneClaim(Apply(c, w, e)) <==> StartsAlone(w, e)
  {
    if e.StartRecording? {
      ClaimsStart(w, e.id, e.source);
    } else {
      forall sensor ensures Claims(Apply(c, w, e), sensor) <= 1 {
        ClaimsStep(c, w, e, sensor);
      }
    }
  }

  ghost predicate OneClaimAt(c: Config, es: seq<Event>, k: nat) {
    k <= |es| && OneClaim(After(c, es[..k]))
  }

  ghost predicate StartsAloneAt(c: Config, es: seq<Event>, k: nat) {
    k < |es| && StartsAlone(After(c, es[..k]), es[k])
  }

  /** At most one archiver, running start or retired archiver belongs to a sensor, throughout a run, if
      and only if no start is accepted while another of its sensor is running or its archiver is retired. */
  lemma {:induction false} OneClaimPerSensor(c: Config, es: seq<Event>)
    requires LegalRun(c, es)
    ensures (forall k: nat :: k <= |es| ==> OneClaimAt(c, es, k)) <==> (forall k: nat :: k < |es| ==> StartsAloneAt(c, es, k))
  {
    var one := (k: nat) => OneClaimAt(c, es, k);
    var alone := (k: nat) => StartsAloneAt(c, es, k);
    forall k: nat | k < |es| && one(k) ensures one(k + 1) <==> alone(k) {
      AfterStep(c, es, k);
      OneClaimStep(c, After(c, es[..k]), es[k]);
    }
    assert After(c, es[..0]) == Initial();
    HoldsThroughout(one, alone, |es|);
    assert forall k: nat :: one(k) <==> OneClaimAt(c, es, k);
    assert forall k: nat :: alone(k) <==> StartsAloneAt(c, es, k);
  }

  lemma OneClaimArchivers(w: World)
    requires OneClaim(w)
    ensures OnePerSensor(w.s.rec.ix.creators)
  {
    forall sensor ensures Archivers(w.s.rec.ix.creators, sensor) <= 1 {
      assert Claims(w, sensor) <= 1;
    }
    ArchiversDistinct(w.s.rec.ix.creators);
  }

  /** So the commands alone can see to it that no sensor is recorded twice. */
  lemma {:induction false} LoneStartsSuffice(c: Config, es: seq<Event>)
    requires LegalRun(c, es) && forall k: nat :: k < |es| ==> StartsAloneAt(c, es, k)
    ensures forall k: nat :: k <= |es| ==> OnePerSensorAt(c, es, k)
  {
    OneClaimPerSensor(c, es);
    forall k: nat | k <= |es| ensures OnePerSensorAt(c, es, k) {
      assert OneClaimAt(c, es, k);
      OneClaimArchivers(After(c, es[..k]));
    }
  }
}
