/** The archive recorder: archivers in a vector and a map, start futures, and block rotation. */
module RecorderModel {
  import opened Common

  type ArchivingId = string

  datatype Source = Source(sensorId: SensorId, sourceUrl: Url, archivingName: string)
  {
    /** A source without an address never connects. */
    function Answer(o: Outcome): Outcome {
      if sourceUrl == "" then Outcome(false, false) else o
    }
  }

  /** `launch` numbers the archiver objects: an archiving that is relaunched gets a new object. */
  datatype Archiver = Archiver(id: ArchivingId, source: Source, launch: nat)

  /** What the new-block check reads off the clock and off one archiver. */
  datatype Reading = Reading(nowMillisec: int, timeStartMillisec: int)

  /** Whether the source connects and whether the archiver starts. */
  datatype Outcome = Outcome(connected: bool, launched: bool)
  {
    predicate Succeeds() {
      connected && launched
    }
  }

  /** The truncating division of the source language. */
  function Quotient(a: int, b: int): int
    requires b > 0
  {
    if a >= 0 then a / b else -(-a / b)
  }

  datatype Config = Config(newDataBlockIntervalMin: int)
  {
    predicate Due(r: Reading) {
      var triggerMillisec := (newDataBlockIntervalMin * 60 + 4) * 1000;
      r.timeStartMillisec != 0 && Quotient(r.nowMillisec - r.timeStartMillisec, 1000) > Quotient(triggerMillisec, 1000)
    }
  }

  // The conditions of the erasing loops.

  function OnSource(url: Url): Archiver -> bool {
    (a: Archiver) => a.source.sourceUrl == url
  }

  function ConnectionLost(lost: set<nat>): Archiver -> bool {
    (a: Archiver) => a.launch in lost
  }

  function DueAt(c: Config, readings: map<nat, Reading>): Archiver -> bool {
    (a: Archiver) => a.launch in readings && c.Due(readings[a.launch])
  }

  function Without(list: seq<Archiver>, p: Archiver -> bool): seq<Archiver> {
    if list == [] then [] else (if p(list[0]) then [] else [list[0]]) + Without(list[1..], p)
  }

  function Taken(list: seq<Archiver>, p: Archiver -> bool): seq<Archiver> {
    if list == [] then [] else (if p(list[0]) then [list[0]] else []) + Taken(list[1..], p)
  }

  function Ids(list: seq<Archiver>): set<ArchivingId> {
    set a | a in list :: a.id
  }

  /** `m_archiveCreators` and `m_archiveCreatorsByArchivingId`. */
  datatype Index = Index(creators: seq<Archiver>, byId: map<ArchivingId, Archiver>)
  {
    predicate SensorBusy(sensor: SensorId) {
      exists a :: a in creators && a.source.sensorId == sensor
    }

    function Find(id: ArchivingId): Option<Archiver> {
      if id == "" || id !in byId then None else Some(byId[id])
    }

    function Add(a: Archiver): Index {
      Index(creators + [a], Inserted(byId, a.id, a))
    }

    /** The first vector entry of this id. */
    function IndexOf(id: ArchivingId, i: nat): nat
      requires i <= |creators|
      ensures i <= IndexOf(id, i) <= |creators|
      decreases |creators| - i
    {
      if i == |creators| || creators[i].id == id then i else IndexOf(id, i + 1)
    }

    function Remove(id: ArchivingId): Index {
      var k := IndexOf(id, 0);
      Index(if k < |creators| then Erased(creators, k) else creators, byId - {id})
    }

    /** Erases the archivers of the condition from both. */
    function Drop(p: Archiver -> bool): Index {
      Index(Without(creators, p), byId - Ids(Taken(creators, p)))
    }

    function EraseAt(i: nat): Index
      requires i < |creators|
    {
      Index(Erased(creators, i), byId - {creators[i].id})
    }

    /** The erasing loop from position `i` on. */
    function DropFrom(p: Archiver -> bool, i: nat): Index
      requires i <= |creators|
      decreases |creators| - i
    {
      if i == |creators| then this
      else if p(creators[i]) then EraseAt(i).DropFrom(p, i)
      else DropFrom(p, i + 1)
    }

    /** Erases them from the vector only. */
    function Prune(p: Archiver -> bool): Index {
      this.(creators := Without(creators, p))
    }
  }

  function Ref(refs: map<Url, int>, url: Url): int {
    if url in refs then refs[url] else 0
  }

  function Referenced(refs: map<Url, int>, url: Url, n: int): map<Url, int> {
    refs[url := Ref(refs, url) + n]
  }

  /** `disconnectSource`, which refuses an empty address. */
  function Disconnected(refs: map<Url, int>, url: Url): map<Url, int> {
    if url == "" then refs else Referenced(refs, url, -1)
  }

  /** Archivers, the recorder's references to sources (connects minus disconnects), launches so far. */
  datatype Registry = Registry(ix: Index, refs: map<Url, int>, launches: nat)
  {
    /** Connect the source, then start and register an archiver. */
    function Launch(id: ArchivingId, source: Source, o: Outcome): Registry {
      if !o.connected then this
      else
        var r := this.(refs := Referenced(refs, source.sourceUrl, 1));
        if !o.launched then r else r.(ix := ix.Add(Archiver(id, source, launches)), launches := launches + 1)
    }

    /** First phase of the rotation: the due archivers go, in turn, with their references. */
    function Retire(p: Archiver -> bool): Registry {
      this.(ix := ix.Drop(p), refs := Dereferenced(refs, Taken(ix.creators, p)))
    }

    /** Second phase: each retired archiving is launched again under its id. */
    function Relaunch(retired: seq<Archiver>, outcomes: map<nat, Outcome>): Registry
      decreases |retired|
    {
      if retired == [] then this
      else Launch(retired[0].id, retired[0].source, OutcomeOf(outcomes, retired[0])).Relaunch(retired[1..], outcomes)
    }

    function Rotate(p: Archiver -> bool, outcomes: map<nat, Outcome>): Registry {
      Retire(p).Relaunch(Taken(ix.creators, p), outcomes)
    }
  }

  function Dereferenced(refs: map<Url, int>, list: seq<Archiver>): map<Url, int>
    decreases |list|
  {
    if list == [] then refs else Dereferenced(Disconnected(refs, list[0].source.sourceUrl), list[1..])
  }

  function OutcomeOf(outcomes: map<nat, Outcome>, a: Archiver): Outcome {
    if a.launch in outcomes then a.source.Answer(outcomes[a.launch]) else Outcome(false, false)
  }

  /** A `std::future` of a start, with its thread's copy of the source: `result` is `None` until the
      thread returns. */
  datatype Future = Future(id: ArchivingId, source: Source, result: Option<bool>)

  /** The archiver's own state, or "crushed" for an archiving without one. */
  datatype ReportedState = OfArchiver(launch: nat) | Crushed

  datatype Cause = StartResult | SourceLost

  datatype StateEvent = StateEvent(archivingId: ArchivingId, sensorId: SensorId, state: ReportedState, cause: Cause)

  function LostEvents(list: seq<Archiver>): seq<StateEvent> {
    if list == [] then [] else [StateEvent(list[0].id, list[0].source.sensorId, Crushed, SourceLost)] + LostEvents(list[1..])
  }

  datatype State = State(
    rec: Registry,
    futures: seq<Future>,
    records: map<ArchivingId, Source>,
    lost: seq<Archiver>,
    sent: seq<StateEvent>)
  {
    /** The two locks of an accepted start: first its future, then its record. */
    function Start(id: ArchivingId, source: Source): State {
      this.(futures := futures + [Future(id, source, None)])
    }

    function Publish(id: ArchivingId, source: Source): State {
      this.(records := Inserted(records, id, source))
    }

    /** The start thread of future `i` returns. */
    function Finish(i: nat, o: Outcome): State
      requires i < |futures|
    {
      var answer := futures[i].source.Answer(o);
      this.(rec := rec.Launch(futures[i].id, futures[i].source, answer),
            futures := futures[i := futures[i].(result := Some(answer.Succeeds()))])
    }

    predicate Ready(i: nat) {
      i < |futures| && futures[i].result.Some?
    }

    /** The collection of future `i` dereferences nothing that is missing. */
    predicate CollectDefined(i: nat)
      requires Ready(i)
    {
      rec.ix.Find(futures[i].id).Some? || (!futures[i].result.value && futures[i].id in records)
    }

    function ResultEvent(f: Future): StateEvent {
      match rec.ix.Find(f.id)
      case Some(a) => StateEvent(a.id, a.source.sensorId, OfArchiver(a.launch), StartResult)
      case None => StateEvent(f.id, if f.id in records then records[f.id].sensorId else 0, Crushed, StartResult)
    }

    /** One turn of the collecting loop; the record of a failed start stays. */
    function Collect(i: nat): State
      requires Ready(i)
    {
      var f := futures[i];
      this.(sent := sent + [ResultEvent(f)], futures := Erased(futures, i),
            records := if f.result.value then records - {f.id} else records)
    }

    function CollectFrom(i: nat): State
      requires i <= |futures|
      decreases |futures| - i
    {
      if i == |futures| then this
      else if Ready(i) then Collect(i).CollectFrom(i)
      else CollectFrom(i + 1)
    }

    /** A stop without an archiver takes a reference off the source of the start record. */
    function StopRecording(id: ArchivingId): (State, bool) {
      if id in rec.ix.byId then
        var url := rec.ix.byId[id].source.sourceUrl;
        (this.(rec := rec.(ix := rec.ix.Remove(id), refs := Disconnected(rec.refs, url))), url != "")
      else if id in records then
        (this.(rec := rec.(refs := Disconnected(rec.refs, records[id].sourceUrl))), true)
      else (this, false)
    }

    /** Source loss, with its evident effect. */
    function Lose(url: Url): State {
      var gone := Taken(rec.ix.creators, OnSource(url));
      this.(rec := rec.(ix := rec.ix.Drop(OnSource(url))), lost := lost + gone, sent := sent + LostEvents(gone))
    }
  }

  /** Where the one command thread is: between the two locks of a start, or in no command. */
  datatype Command = Idle | Publishing(id: ArchivingId, source: Source)

  /** `restarts` are the retired archivers the maintenance thread has still to launch again. */
  datatype Threads = Threads(command: Command, restarts: seq<Archiver>)

  /** `accepted` starts, those collected as `failed`, and the archivings `pruned` and not stopped. */
  datatype History = History(accepted: set<ArchivingId>, failed: set<ArchivingId>, pruned: set<ArchivingId>)

  datatype World = World(s: State, t: Threads, h: History)

  /** One event is one critical section: the rotation retires under one lock, then connects and
      launches archiver by archiver. */
  datatype Event =
    | StartRecording(id: ArchivingId, source: Source)
    | PublishRecord
    | FinishStart(i: nat, outcome: Outcome)
    | CollectResult(i: nat)
    | StopRecording(id: ArchivingId)
    | LoseSource(url: Url)
    | PruneDied(lost: set<nat>)
    | RetireDue(readings: map<nat, Reading>)
    | RelaunchNext(outcome: Outcome)

  function ApplyStart(w: World, id: ArchivingId, source: Source): World {
    if w.s.rec.ix.SensorBusy(source.sensorId) then w
    else World(w.s.Start(id, source), w.t.(command := Publishing(id, source)), w.h.(accepted := w.h.accepted + {id}))
  }

  function ApplyPublish(w: World): World {
    if w.t.command.Idle? then w
    else w.(s := w.s.Publish(w.t.command.id, w.t.command.source), t := w.t.(command := Idle))
  }

  function ApplyCollect(w: World, i: nat): World {
    if !w.s.Ready(i) then w
    else
      var f := w.s.futures[i];
      w.(s := w.s.Collect(i), h := if f.result.value then w.h else w.h.(failed := w.h.failed + {f.id}))
  }

  function ApplyPrune(w: World, p: Archiver -> bool): World {
    w.(s := w.s.(rec := w.s.rec.(ix := w.s.rec.ix.Prune(p))),
       h := w.h.(pruned := w.h.pruned + Ids(Taken(w.s.rec.ix.creators, p))))
  }

  function ApplyRetire(w: World, p: Archiver -> bool): World {
    w.(s := w.s.(rec := w.s.rec.Retire(p)), t := w.t.(restarts := Taken(w.s.rec.ix.creators, p)))
  }

  function ApplyRelaunch(w: World, o: Outcome): World {
    if w.t.restarts == [] then w
    else
      var a := w.t.restarts[0];
      w.(s := w.s.(rec := w.s.rec.Launch(a.id, a.source, a.source.Answer(o))), t := w.t.(restarts := w.t.restarts[1..]))
  }

  function Apply(c: Config, w: World, e: Event): World {
    match e
    case StartRecording(id, source) => ApplyStart(w, id, source)
    case PublishRecord => ApplyPublish(w)
    case FinishStart(i, o) => if i < |w.s.futures| then w.(s := w.s.Finish(i, o)) else w
    case CollectResult(i) => ApplyCollect(w, i)
    case StopRecording(id) => w.(s := w.s.StopRecording(id).0, h := w.h.(pruned := w.h.pruned - {id}))
    case LoseSource(url) => w.(s := w.s.Lose(url))
    case PruneDied(lost) => ApplyPrune(w, ConnectionLost(lost))
    case RetireDue(readings) => ApplyRetire(w, DueAt(c, readings))
    case RelaunchNext(o) => ApplyRelaunch(w, o)
  }

  function FutureIds(futures: seq<Future>): set<ArchivingId> {
    set f | f in futures :: f.id
  }

  /** What the code allows: commands run one at a time with fresh ids that are not empty, a start
      thread returns once, and one maintenance thread collects, prunes and rotates. */
  predicate Legal(w: World, e: Event) {
    match e
    case StartRecording(id, _) => w.t.command.Idle? && id != "" && id !in w.h.accepted
    case PublishRecord => w.t.command.Publishing?
    case FinishStart(i, _) => i < |w.s.futures| && w.s.futures[i].result.None?
    case CollectResult(i) => w.t.restarts == [] && w.s.Ready(i)
    case StopRecording(_) => w.t.command.Idle?
    case LoseSource(_) => true
    case PruneDied(_) => w.t.restarts == []
    case RetireDue(_) => w.t.restarts == []
    case RelaunchNext(_) => w.t.restarts != []
  }

  function Initial(): World {
    World(State(Registry(Index([], map[]), map[], 0), [], map[], [], []), Threads(Idle, []), History({}, {}, {}))
  }

  function After(c: Config, es: seq<Event>): World {
    if es == [] then Initial() else Apply(c, After(c, es[..|es| - 1]), es[|es| - 1])
  }

  predicate LegalRun(c: Config, es: seq<Event>) {
    forall k :: 0 <= k < |es| ==> Legal(After(c, es[..k]), es[k])
  }
}
