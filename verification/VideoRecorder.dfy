/** The archive recorder's methods, against the model. */
module VideoRecorder {
  import opened Common
  import RecorderModel
  import opened RecorderRotation
  import opened RecorderIndexes
  import opened RecorderRuns

  type ArchivingId = RecorderModel.ArchivingId
  type Archiver = RecorderModel.Archiver
  type Source = RecorderModel.Source
  type Outcome = RecorderModel.Outcome

  class VideoRecorder {
    const config: RecorderModel.Config
    var archiveCreators: seq<Archiver>
    var archiveCreatorsByArchivingId: map<ArchivingId, Archiver>
    var archiveSettingsFromLostedSources: seq<Archiver>
    var recordingStartFutures: seq<RecorderModel.Future>
    var recordingsFailedInFuture: map<ArchivingId, Source>
    var newDataBlockCreation: bool
    var launches: nat
    /** What the recorder's connects and disconnects leave at the source provider. */
    var sourceReferences: map<Url, int>
    var sentEvents: seq<RecorderModel.StateEvent>

    ghost function IndexModel(): RecorderModel.Index
      reads this
    {
      RecorderModel.Index(archiveCreators, archiveCreatorsByArchivingId)
    }

    ghost function RegistryModel(): RecorderModel.Registry
      reads this
    {
      RecorderModel.Registry(IndexModel(), sourceReferences, launches)
    }

    ghost function Model(): RecorderModel.State
      reads this
    {
      RecorderModel.State(RegistryModel(), recordingStartFutures, recordingsFailedInFuture, archiveSettingsFromLostedSources, sentEvents)
    }

    constructor (config: RecorderModel.Config)
      ensures this.config == config && !newDataBlockCreation && Model() == RecorderModel.Initial().s
    {
      this.config := config;
      archiveCreators, archiveCreatorsByArchivingId, archiveSettingsFromLostedSources := [], map[], [];
      recordingStartFutures, recordingsFailedInFuture := [], map[];
      newDataBlockCreation, launches, sourceReferences, sentEvents := false, 0, map[], [];
    }

    method IsSensorAlreadyRecording(sensorId: SensorId) returns (recording: bool)
      ensures recording <==> IndexModel().SensorBusy(sensorId)
    {
      for i := 0 to |archiveCreators|
        invariant forall j :: 0 <= j < i ==> archiveCreators[j].source.sensorId != sensorId
      {
        if archiveCreators[i].source.sensorId == sensorId {
          assert archiveCreators[i] in archiveCreators;
          return true;
        }
      }
      return false;
    }

    /** `sensorUrl` is the address objrepr gives for the sensor. */
    method StartRecording(id: ArchivingId, source: Source, sensorUrl: Url) returns (accepted: bool)
      modifies `recordingStartFutures, `recordingsFailedInFuture
      ensures accepted <==> !old(IndexModel()).SensorBusy(source.sensorId)
      ensures var checked := if source.sourceUrl == "" then source.(sourceUrl := sensorUrl) else source;
        Model() == if accepted then old(Model()).Start(id, checked).Publish(id, checked) else old(Model())
    {
      var busy := IsSensorAlreadyRecording(source.sensorId);
      if busy {
        return false;
      }
      var checked := if source.sourceUrl == "" then source.(sourceUrl := sensorUrl) else source;
      recordingStartFutures := recordingStartFutures + [RecorderModel.Future(id, checked, None)];
      recordingsFailedInFuture := Inserted(recordingsFailedInFuture, id, checked);
      return true;
    }

    /** The start thread; `o` is what the source and the archiver answer. */
    method AsyncRecordingStart(id: ArchivingId, source: Source, o: Outcome) returns (result: bool)
      modifies `archiveCreators, `archiveCreatorsByArchivingId, `launches, `sourceReferences
      ensures RegistryModel() == old(RegistryModel()).Launch(id, source, source.Answer(o))
      ensures result <==> source.Answer(o).Succeeds()
    {
      if source.sourceUrl == "" || !o.connected {
        return false;
      }
      sourceReferences := RecorderModel.Referenced(sourceReferences, source.sourceUrl, 1);
      result := LaunchRecord(id, source, o.launched);
    }

    method LaunchRecord(id: ArchivingId, source: Source, started: bool) returns (result: bool)
      modifies `archiveCreators, `archiveCreatorsByArchivingId, `launches
      ensures result == started
      ensures IndexModel() ==
        if started then old(IndexModel()).Add(RecorderModel.Archiver(id, source, old(launches))) else old(IndexModel())
      ensures launches == old(launches) + if started then 1 else 0
    {
      if !started {
        return false;
      }
      var archiveCreator := RecorderModel.Archiver(id, source, launches);
      launches := launches + 1;
      archiveCreatorsByArchivingId := Inserted(archiveCreatorsByArchivingId, id, archiveCreator);
      archiveCreators := archiveCreators + [archiveCreator];
      return true;
    }

    method GetArchiver(id: ArchivingId) returns (archiver: Option<Archiver>)
      ensures archiver == IndexModel().Find(id)
      ensures archiver.Some? <==> id != "" && id in archiveCreatorsByArchivingId
    {
      archiver := if id != "" && id in archiveCreatorsByArchivingId then Some(archiveCreatorsByArchivingId[id]) else None;
    }

    /** The maintenance thread's collecting loop; its precondition is that no lookup fails, which
        `CollectionsDefined` shows for every run that keeps its uncollected archivers and records. */
    method RecordingStartFuturesMaintenance()
      requires PassDefined(Model(), 0)
      modifies `recordingStartFutures, `recordingsFailedInFuture, `sentEvents
      ensures Model() == old(Model()).CollectFrom(0)
    {
      var i := 0;
      while i < |recordingStartFutures|
        invariant i <= |recordingStartFutures|
        invariant PassDefined(Model(), i)
        invariant Model().CollectFrom(i) == old(Model()).CollectFrom(0)
        decreases |recordingStartFutures| - i
      {
        if recordingStartFutures[i].result.Some? {
          CollectResult(i);
        } else {
          i := i + 1;
        }
      }
    }

    method CollectResult(i: nat)
      requires Model().Ready(i) && Model().CollectDefined(i)
      modifies `recordingStartFutures, `recordingsFailedInFuture, `sentEvents
      ensures Model() == old(Model()).Collect(i)
    {
      var f := recordingStartFutures[i];
      var archiver := GetArchiver(f.id);
      var event;
      if !f.result.value && archiver.None? {
        var startSettings := recordingsFailedInFuture[f.id];
        event := RecorderModel.StateEvent(f.id, startSettings.sensorId, RecorderModel.Crushed, RecorderModel.StartResult);
      } else {
        var a := archiver.value;
        event := RecorderModel.StateEvent(a.id, a.source.sensorId, RecorderModel.OfArchiver(a.launch), RecorderModel.StartResult);
      }
      sentEvents := sentEvents + [event];
      if f.result.value {
        recordingsFailedInFuture := recordingsFailedInFuture - {f.id};
      }
      recordingStartFutures := Erased(recordingStartFutures, i);
    }

    method StopRecording(id: ArchivingId) returns (stopped: bool)
      modifies `archiveCreators, `archiveCreatorsByArchivingId, `sourceReferences
      ensures (Model(), stopped) == old(Model()).StopRecording(id)
      ensures stopped <==> if id in old(archiveCreatorsByArchivingId) then old(archiveCreatorsByArchivingId)[id].source.sourceUrl != ""
                           else id in recordingsFailedInFuture
    {
      if id in archiveCreatorsByArchivingId {
        var archiver := archiveCreatorsByArchivingId[id];
        RemoveArchiver(id);
        DisconnectSource(archiver.source.sourceUrl);
        return archiver.source.sourceUrl != "";
      }
      if id in recordingsFailedInFuture {
        DisconnectSource(recordingsFailedInFuture[id].sourceUrl);
        return true;
      }
      return false;
    }

    method DisconnectSource(url: Url)
      modifies `sourceReferences
      ensures sourceReferences == RecorderModel.Disconnected(old(sourceReferences), url)
    {
      if url != "" {
        sourceReferences := RecorderModel.Referenced(sourceReferences, url, -1);
      }
    }

    method RemoveArchiver(id: ArchivingId)
      modifies `archiveCreators, `archiveCreatorsByArchivingId
      ensures IndexModel() == old(IndexModel()).Remove(id)
    {
      ghost var ix := IndexModel();
      archiveCreatorsByArchivingId := archiveCreatorsByArchivingId - {id};
      var i := 0;
      while i < |archiveCreators| && archiveCreators[i].id != id
        invariant i <= |archiveCreators| && ix.IndexOf(id, 0) == ix.IndexOf(id, i)
      {
        i := i + 1;
      }
      assert ix.IndexOf(id, i) == i;
      if i < |archiveCreators| {
        archiveCreators := Erased(archiveCreators, i);
      }
    }

    /** Lost signal only: restoring after a connection is not part of this model. During a rotation
        notifications are ignored. */
    method CallbackVideoSourceConnection(established: bool, url: Url)
      modifies `archiveCreators, `archiveCreatorsByArchivingId, `archiveSettingsFromLostedSources, `sentEvents
      ensures Model() == if established || newDataBlockCreation then old(Model()) else old(Model()).Lose(url)
    {
      if newDataBlockCreation || established {
        return;
      }
      ghost var s := Model();
      ghost var p := RecorderModel.OnSource(url);
      ghost var gone := RecorderModel.Taken(archiveCreators, p);
      assert archiveCreators[0..] == archiveCreators;
      DropFromIsDrop(IndexModel(), p, 0);
      var i := 0;
      while i < |archiveCreators|
        invariant i <= |archiveCreators| && IndexModel().DropFrom(p, i) == s.rec.ix.Drop(p)
        invariant Losing(archiveSettingsFromLostedSources, sentEvents, RecorderModel.Taken(archiveCreators[i..], p),
                         s.lost + gone, s.sent + RecorderModel.LostEvents(gone))
        decreases |archiveCreators| - i
      {
        TakenVisit(archiveCreators, p, i);
        var archiver := archiveCreators[i];
        ghost var rest := RecorderModel.Taken(archiveCreators[i + 1..], p);
        if archiver.source.sourceUrl == url {
          LosingTurn(archiveSettingsFromLostedSources, sentEvents, archiver, rest,
                     s.lost + gone, s.sent + RecorderModel.LostEvents(gone));
          LoseAt(i);
        } else {
          i := i + 1;
        }
      }
    }

    method LoseAt(i: nat)
      requires i < |archiveCreators|
      modifies `archiveCreators, `archiveCreatorsByArchivingId, `archiveSettingsFromLostedSources, `sentEvents
      ensures IndexModel() == old(IndexModel()).EraseAt(i) && |archiveCreators| == old(|archiveCreators|) - 1
      ensures archiveSettingsFromLostedSources == old(archiveSettingsFromLostedSources) + [old(archiveCreators)[i]]
      ensures var a := old(archiveCreators)[i];
        sentEvents == old(sentEvents) + [RecorderModel.StateEvent(a.id, a.source.sensorId, RecorderModel.Crushed, RecorderModel.SourceLost)]
    {
      var archiver := archiveCreators[i];
      archiveSettingsFromLostedSources := archiveSettingsFromLostedSources + [archiver];
      sentEvents := sentEvents +
        [RecorderModel.StateEvent(archiver.id, archiver.source.sensorId, RecorderModel.Crushed, RecorderModel.SourceLost)];
      EraseAt(i);
    }

    method EraseAt(i: nat)
      requires i < |archiveCreators|
      modifies `archiveCreators, `archiveCreatorsByArchivingId
      ensures IndexModel() == old(IndexModel()).EraseAt(i) && |archiveCreators| == old(|archiveCreators|) - 1
    {
      archiveCreatorsByArchivingId := archiveCreatorsByArchivingId - {archiveCreators[i].id};
      archiveCreators := Erased(archiveCreators, i);
    }

    /** The rotation: retire the due archivers, then launch their archivings again. */
    method CheckForArchiveNewBlock(readings: map<nat, RecorderModel.Reading>, outcomes: map<nat, Outcome>)
      requires !newDataBlockCreation
      modifies `archiveCreators, `archiveCreatorsByArchivingId, `sourceReferences, `launches, `newDataBlockCreation
      ensures !newDataBlockCreation
      ensures Model() == old(Model()).(rec := old(RegistryModel()).Rotate(RecorderModel.DueAt(config, readings), outcomes))
    {
      if archiveCreators == [] {
        return;
      }
      var retired := RetireDue(readings);
      RelaunchRetired(retired, outcomes);
    }

    method RelaunchRetired(retired: seq<Archiver>, outcomes: map<nat, Outcome>)
      modifies `archiveCreators, `archiveCreatorsByArchivingId, `sourceReferences, `launches
      ensures RegistryModel() == old(RegistryModel()).Relaunch(retired, outcomes)
    {
      assert retired[0..] == retired;
      for i := 0 to |retired|
        invariant RegistryModel().Relaunch(retired[i..], outcomes) == old(RegistryModel()).Relaunch(retired, outcomes)
      {
        var setting := retired[i];
        assert retired[i..][0] == setting && retired[i..][1..] == retired[i + 1..];
        var result := AsyncRecordingStart(setting.id, setting.source, RecorderModel.OutcomeOf(outcomes, setting));
      }
      assert retired[|retired|..] == [];
    }

    method RetireDue(readings: map<nat, RecorderModel.Reading>) returns (retired: seq<Archiver>)
      requires !newDataBlockCreation
      modifies `archiveCreators, `archiveCreatorsByArchivingId, `sourceReferences, `newDataBlockCreation
      ensures !newDataBlockCreation
      ensures retired == RecorderModel.Taken(old(archiveCreators), RecorderModel.DueAt(config, readings))
      ensures RegistryModel() == old(RegistryModel()).Retire(RecorderModel.DueAt(config, readings))
    {
      ghost var r := RegistryModel();
      ghost var p := RecorderModel.DueAt(config, readings);
      ghost var due := RecorderModel.Taken(archiveCreators, p);
      ghost var refs := RecorderModel.Dereferenced(sourceReferences, due);
      assert archiveCreators[0..] == archiveCreators;
      DropFromIsDrop(IndexModel(), p, 0);
      retired := [];
      var i := 0;
      while i < |archiveCreators|
        invariant i <= |archiveCreators| && IndexModel().DropFrom(p, i) == r.ix.Drop(p) && !newDataBlockCreation
        invariant Retiring(retired, sourceReferences, RecorderModel.Taken(archiveCreators[i..], p), due, refs)
        decreases |archiveCreators| - i
      {
        TakenVisit(archiveCreators, p, i);
        var creator := archiveCreators[i];
        ghost var rest := RecorderModel.Taken(archiveCreators[i + 1..], p);
        if creator.launch in readings && config.Due(readings[creator.launch]) {
          RetiringTurn(retired, sourceReferences, creator, rest, due, refs);
          retired := retired + [creator];
          RetireAt(i);
        } else {
          i := i + 1;
        }
      }
    }

    method RetireAt(i: nat)
      requires i < |archiveCreators|
      modifies `archiveCreators, `archiveCreatorsByArchivingId, `sourceReferences, `newDataBlockCreation
      ensures !newDataBlockCreation
      ensures IndexModel() == old(IndexModel()).EraseAt(i) && |archiveCreators| == old(|archiveCreators|) - 1
      ensures sourceReferences == RecorderModel.Disconnected(old(sourceReferences), old(archiveCreators)[i].source.sourceUrl)
    {
      newDataBlockCreation := true;
      var creator := archiveCreators[i];
      EraseAt(i);
      DisconnectSource(creator.source.sourceUrl);
      newDataBlockCreation := false;
    }

    /** `lost` are the archivers whose connection is lost; they leave the vector only. */
    method CheckForDiedArchiveCreators(lost: set<nat>)
      modifies `archiveCreators
      ensures IndexModel() == old(IndexModel()).Prune(RecorderModel.ConnectionLost(lost))
    {
      ghost var p := RecorderModel.ConnectionLost(lost);
      assert archiveCreators[0..] == archiveCreators;
      var i := 0;
      while i < |archiveCreators|
        invariant i <= |archiveCreators|
        invariant archiveCreators[..i] + RecorderModel.Without(archiveCreators[i..], p) == RecorderModel.Without(old(archiveCreators), p)
        decreases |archiveCreators| - i
      {
        WithoutVisit(archiveCreators, p, i);
        if archiveCreators[i].launch in lost {
          archiveCreators := Erased(archiveCreators, i);
        } else {
          i := i + 1;
        }
      }
      assert archiveCreators[..i] + [] == archiveCreators;
    }
  }
}
