/** The analytics manager and the two commands over heap objects. */
module AnalyticManager {
  import opened Common
  import opened AnalysisModel
  import opened AnalysisIndexes
  import opened AnalysisCollector
  import opened AnalysisReports

  class AnalyzerProxy {
    var settings: Settings
    var state: AnalyzeState

    constructor (settings: Settings)
      ensures Value() == Analyzer(settings, ACTIVE)
    {
      this.settings := settings;
      state := ACTIVE;
    }

    ghost function Value(): Analyzer
      reads this
    {
      Analyzer(settings, state)
    }

    method Resume()
      modifies this
      ensures settings == old(settings).(currentSession := old(settings).currentSession + 1) && state == ACTIVE
    {
      settings := settings.(currentSession := settings.currentSession + 1);
      state := ACTIVE;
    }
  }

  /** What the manager and the commands share: database, write-ahead log, event notifier. */
  class Services {
    var processedSensors: map<SensorId, int>
    var openOperations: set<ProcessingId>
    var sentEvents: seq<StateEvent>

    constructor (processedSensors: map<SensorId, int>)
      ensures this.processedSensors == processedSensors && openOperations == {} && sentEvents == []
    {
      this.processedSensors := processedSensors;
      openOperations := {};
      sentEvents := [];
    }
  }

  /** How far a start thread gets. */
  datatype StartOutcome = SourceFailed | NoCard | NotCreated | NotStarted | Started

  datatype AnalyzeStatus = AnalyzeStatus(
    processingId: ProcessingId,
    sensorId: SensorId,
    processingName: string,
    profileId: nat,
    state: AnalyzeState)

  /** The status speaks of the analysis with these settings, in this state. */
  ghost predicate Describes(status: AnalyzeStatus, st: Settings, state: AnalyzeState) {
    && status.processingId == st.processingId && status.sensorId == st.sensorId
    && status.processingName == st.processingName && status.profileId == st.profileId && status.state == state
  }

  class AnalyticManagerFacade {
    const services: Services
    var analyzers: seq<AnalyzerProxy>
    var analyzersByProcessingId: map<ProcessingId, AnalyzerProxy>
    var analyzeStartFutures: seq<Future>
    var analyzersFailedInFuture: map<ProcessingId, Settings>
    ghost var objects: set<AnalyzerProxy>

    ghost function Objects(): map<AnalyzerProxy, Analyzer>
      reads this, objects
    {
      map o | o in objects :: o.Value()
    }

    ghost function Model(): State<AnalyzerProxy>
      reads this, objects, services
    {
      State(Objects(), analyzers, analyzersByProcessingId, analyzeStartFutures, analyzersFailedInFuture,
            services.processedSensors, services.openOperations, services.sentEvents)
    }

    ghost predicate Valid()
      reads this
    {
      && (forall a :: a in analyzers ==> a in objects)
      && (forall id :: id in analyzersByProcessingId ==> analyzersByProcessingId[id] in objects)
    }

    constructor (services: Services)
      ensures Valid() && this.services == services
      ensures Model() == Initial<AnalyzerProxy>(services.processedSensors).s.(
        openOperations := services.openOperations, sent := services.sentEvents)
    {
      this.services := services;
      analyzers := [];
      analyzersByProcessingId := map[];
      analyzeStartFutures := [];
      analyzersFailedInFuture := map[];
      objects := {};
    }

    method GetAnalyzer(id: ProcessingId) returns (analyzer: Option<AnalyzerProxy>)
      requires Valid()
      ensures analyzer == Model().Find(id)
      ensures analyzer.Some? <==> id != "" && id in analyzersByProcessingId
      ensures analyzer.Some? ==> analyzer.value in objects
    {
      analyzer := if id != "" && id in analyzersByProcessingId then Some(analyzersByProcessingId[id]) else None;
    }

    method IsAnalyzerSettingsUnique(settings: Settings) returns (unique: bool)
      requires Valid()
      ensures unique <==> forall a :: a in analyzers ==> a.settings != settings
    {
      for i := 0 to |analyzers|
        invariant forall j :: 0 <= j < i ==> analyzers[j].settings != settings
      {
        if analyzers[i].settings == settings {
          return false;
        }
      }
      return true;
    }

    method StartAnalyze(settings: Settings, sensorUrl: Url) returns (accepted: bool)
      requires Valid()
      modifies this, services
      ensures Valid() && objects == old(objects)
      ensures accepted <==> !old(Model()).Refuses(settings)
      ensures accepted <==> old(analyzeStartFutures) == [] && forall a :: a in old(analyzers) ==> a.settings != settings
      ensures Model() == if accepted then old(Model()).Launch(settings, sensorUrl) else old(Model())
    {
      ghost var m := Model();
      var unique := IsAnalyzerSettingsUnique(settings);
      assert unique <==> !(exists a :: a in m.analyzers && a in m.objects && m.objects[a].settings == settings);
      if !unique || analyzeStartFutures != [] {
        return false;
      }
      var session := if settings.sensorId in services.processedSensors then services.processedSensors[settings.sensorId] + 1 else 0;
      services.processedSensors := services.processedSensors[settings.sensorId := session];
      var launched := settings.(sourceUrl := sensorUrl, currentSession := session);
      analyzeStartFutures := analyzeStartFutures + [Future(settings.processingId, Start(launched), None)];
      analyzersFailedInFuture := Inserted(analyzersFailedInFuture, settings.processingId, launched);
      assert Objects() == m.objects;
      return true;
    }

    /** The start thread; `outcome` is what the source, the card, the factory and the plugin answer. */
    method AsyncAnalyzeStart(settings: Settings, outcome: StartOutcome) returns (result: bool, ghost ref: Option<AnalyzerProxy>)
      requires Valid()
      modifies this
      ensures Valid() && objects >= old(objects) && fresh(objects - old(objects))
      ensures result <==> outcome.Started?
      ensures if result then ref.Some? && fresh(ref.value) && Model() == old(Model()).Register(ref.value, settings)
              else Model() == old(Model())
    {
      ghost var m := Model();
      ref := None;
      if !outcome.Started? {
        return false, ref;
      }
      var analyzer := new AnalyzerProxy(settings);
      analyzers := analyzers + [analyzer];
      analyzersByProcessingId := Inserted(analyzersByProcessingId, settings.processingId, analyzer);
      objects := objects + {analyzer};
      assert Objects() == m.objects[analyzer := Analyzer(settings, ACTIVE)];
      return true, Some(analyzer);
    }

    method ResumeAnalyze(id: ProcessingId) returns (found: bool)
      requires Valid()
      modifies this, objects, services
      ensures Valid() && objects == old(objects)
      ensures found <==> old(Model()).Find(id).Some?
      ensures Model() == old(Model()).ResumeAnalyzer(id)
    {
      ghost var m := Model();
      var analyzer := GetAnalyzer(id);
      if analyzer.None? {
        return false;
      }
      var a := analyzer.value;
      a.Resume();
      services.processedSensors := services.processedSensors[a.settings.sensorId := a.settings.currentSession];
      analyzeStartFutures := analyzeStartFutures + [Future(id, Resume, None)];
      assert Objects() == m.objects[a := a.Value()];
      return true;
    }

    /** `sensorUrl` is the source address at the time of the stop; the source manager refuses an empty one. */
    method StopAnalyze(id: ProcessingId, sensorUrl: Url) returns (stopped: bool)
      requires Valid()
      modifies this
      ensures Valid() && objects == old(objects)
      ensures Model() == if old(Model()).Find(id).Some? then old(Model()).Remove(id) else old(Model()).DropRecord(id)
      ensures stopped <==> old(Model()).Find(id).Some? && sensorUrl != ""
    {
      var analyzer := GetAnalyzer(id);
      if analyzer.Some? {
        RemoveAnalyzer(id);
        return sensorUrl != "";
      }
      if id in analyzersFailedInFuture {
        analyzersFailedInFuture := analyzersFailedInFuture - {id};
      }
      assert analyzersFailedInFuture == old(analyzersFailedInFuture) - {id};
      return false;
    }

    method RemoveAnalyzer(id: ProcessingId)
      requires Valid()
      modifies `analyzers, `analyzersByProcessingId
      ensures Valid()
      ensures Model() == old(Model()).Remove(id)
    {
      ghost var m := Model();
      analyzersByProcessingId := analyzersByProcessingId - {id};
      var i := 0;
      while i < |analyzers| && analyzers[i].settings.processingId != id
        invariant i <= |analyzers| && m.IndexOf(id, 0) == m.IndexOf(id, i)
      {
        i := i + 1;
      }
      assert m.IndexOf(id, i) == i;
      if i < |analyzers| {
        analyzers := Erased(analyzers, i);
      }
    }

    method CallbackVideoSourceConnection(established: bool, sourceUrl: Url)
      requires Valid()
      modifies `analyzers, services`sentEvents
      ensures Valid()
      ensures Model() == if established then old(Model()) else old(Model()).Lose(sourceUrl)
      ensures forall a :: a in analyzers <==> a in old(analyzers) && (established || a.settings.sourceUrl != sourceUrl)
    {
      if established {
        return;
      }
      LoseFromIsLose(Model(), sourceUrl, 0);
      LossTakes(Model(), sourceUrl);
      assert analyzers[0..] == analyzers && analyzers[..0] == [];
      var i := 0;
      while i < |analyzers|
        invariant Valid() && i <= |analyzers|
        invariant Model().LoseFrom(sourceUrl, i) == old(Model()).LoseFrom(sourceUrl, 0)
        decreases |analyzers| - i
      {
        if analyzers[i].settings.sourceUrl == sourceUrl {
          DropLost(i);
        } else {
          i := i + 1;
        }
      }
    }

    method DropLost(i: nat)
      requires Valid() && i < |analyzers|
      modifies `analyzers, services`sentEvents
      ensures Valid() && |analyzers| == old(|analyzers|) - 1
      ensures Model() == old(Model()).DropLost(i)
    {
      var analyzer := analyzers[i];
      services.sentEvents := services.sentEvents +
        [StateEvent(analyzer.settings.processingId, analyzer.settings.sensorId, CRUSHED, SourceLost)];
      analyzers := Erased(analyzers, i);
    }

    /** The maintenance thread's collecting loop; its precondition is that no lookup fails, which
        `AnalysisCollector.CollectionsDefined` shows while nobody stops an id whose future is uncollected. */
    method CheckStartResults()
      requires Valid() && PassDefined(Model(), 0)
      modifies this, services
      ensures Valid() && objects == old(objects)
      ensures Model() == old(Model()).CollectFrom(0)
    {
      var i := 0;
      while i < |analyzeStartFutures|
        invariant Valid() && objects == old(objects) && i <= |analyzeStartFutures|
        invariant PassDefined(Model(), i)
        invariant Model().CollectFrom(i) == old(Model()).CollectFrom(0)
        decreases |analyzeStartFutures| - i
      {
        if analyzeStartFutures[i].result.Some? {
          CollectResult(i);
        } else {
          i := i + 1;
        }
      }
    }

    method CollectResult(i: nat)
      requires Valid() && Model().Ready(i) && Model().CollectDefined(i)
      modifies this, services
      ensures Valid() && objects == old(objects)
      ensures Model() == old(Model()).Collect(i)
    {
      ghost var m := Model();
      var f := analyzeStartFutures[i];
      var cause := if f.origin.Start? then StartResult else ResumeResult;
      var analyzer := GetAnalyzer(f.id);
      if !f.result.value {
        if analyzer.Some? {
          var a := analyzer.value;
          services.sentEvents := services.sentEvents + [StateEvent(a.settings.processingId, a.settings.sensorId, a.state, cause)];
        } else {
          var startSettings := analyzersFailedInFuture[f.id];
          services.sentEvents := services.sentEvents + [StateEvent(f.id, startSettings.sensorId, CRUSHED, cause)];
        }
        services.openOperations := services.openOperations - {f.id};
      } else {
        var a := analyzer.value;
        services.sentEvents := services.sentEvents + [StateEvent(a.settings.processingId, a.settings.sensorId, a.state, cause)];
        analyzersFailedInFuture := analyzersFailedInFuture - {f.id};
      }
      analyzeStartFutures := Erased(analyzeStartFutures, i);
      assert Objects() == m.objects;
    }

    /** The active analyzers in vector order, then the start records as being prepared. */
    method GetAnalyzersStatuses() returns (out: seq<AnalyzeStatus>, ghost order: seq<ProcessingId>)
      requires Valid()
      ensures Distinct(order) && (forall id :: id in order <==> id in analyzersFailedInFuture)
      ensures |out| == |analyzers| + |order|
      ensures forall i :: 0 <= i < |analyzers| ==>
        Describes(out[i], analyzers[i].settings, analyzers[i].state)
      ensures forall i :: 0 <= i < |order| ==>
        Describes(out[|analyzers| + i], analyzersFailedInFuture[order[i]], PREPARING)
    {
      out := [];
      order := [];
      for i := 0 to |analyzers|
        invariant |out| == i
        invariant forall j :: 0 <= j < i ==>
          Describes(out[j], analyzers[j].settings, analyzers[j].state)
      {
        var a := analyzers[i];
        out := out + [AnalyzeStatus(a.settings.processingId, a.settings.sensorId, a.settings.processingName, a.settings.profileId, a.state)];
      }
      var rest := analyzersFailedInFuture.Keys;
      while rest != {}
        invariant rest <= analyzersFailedInFuture.Keys && Distinct(order)
        invariant forall id :: id in order <==> id in analyzersFailedInFuture && id !in rest
        invariant |out| == |analyzers| + |order|
        invariant forall i :: 0 <= i < |analyzers| ==>
          Describes(out[i], analyzers[i].settings, analyzers[i].state)
        invariant forall i :: 0 <= i < |order| ==>
          Describes(out[|analyzers| + i], analyzersFailedInFuture[order[i]], PREPARING)
      {
        var id :| id in rest;
        var st := analyzersFailedInFuture[id];
        out := out + [AnalyzeStatus(st.processingId, st.sensorId, st.processingName, st.profileId, PREPARING)];
        order := order + [id];
        rest := rest - {id};
      }
    }
  }

  /** The start branch of the command: the log entry follows the accepted start. */
  method ExecAnalyzeStart(manager: AnalyticManagerFacade, settings: Settings, sensorUrl: Url) returns (success: bool)
    requires manager.Valid()
    modifies manager, manager.services
    ensures manager.Valid() && manager.objects == old(manager.objects)
    ensures forall h: History :: var w := World(old(manager.Model()), Idle, h);
      manager.Model() == ApplyOpen(ApplyStart(w, settings, sensorUrl)).s
    ensures success <==> !old(manager.Model()).Refuses(settings)
  {
    success := manager.StartAnalyze(settings, sensorUrl);
    if success {
      manager.services.openOperations := manager.services.openOperations + {settings.processingId};
    }
  }

  /** The destroy branch of the command: the log entry is closed only after a successful stop. */
  method ExecAnalyzeStop(manager: AnalyticManagerFacade, id: ProcessingId, sensorUrl: Url) returns (success: bool)
    requires manager.Valid()
    modifies manager, manager.services
    ensures manager.Valid() && manager.objects == old(manager.objects)
    ensures forall h: History :: var w := World(old(manager.Model()), Idle, h);
      manager.Model() == ApplyClose(ApplyStop(w, id, sensorUrl)).s
    ensures success <==> old(manager.Model()).Find(id).Some? && sensorUrl != ""
  {
    success := manager.StopAnalyze(id, sensorUrl);
    if success {
      manager.services.openOperations := manager.services.openOperations - {id};
    }
  }
}
