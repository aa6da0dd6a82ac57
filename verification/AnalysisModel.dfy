/** The analytics manager, its start futures and the write-ahead log as one state machine.

    `A` is the type of a reference to an analyzer; the vector and the map of the manager share
    the analyzers through such references. */
module AnalysisModel {
  import opened Common

  type ProcessingId = string

  datatype AnalyzeState = PREPARING | READY | ACTIVE | CRUSHED

  datatype Settings = Settings(
    processingId: ProcessingId,
    sensorId: SensorId,
    profileId: nat,
    processingName: string,
    sourceUrl: Url,
    currentSession: int)

  datatype Analyzer = Analyzer(settings: Settings, state: AnalyzeState)

  /** The thread of a start holds its own copy of the settings. */
  datatype Origin = Start(settings: Settings) | Resume

  /** A `std::future` of a start: `result` is `None` until its thread returns. */
  datatype Future = Future(id: ProcessingId, origin: Origin, result: Option<bool>)

  /** Why a state event was sent. */
  datatype Cause = StartResult | ResumeResult | SourceLost

  datatype StateEvent = StateEvent(processingId: ProcessingId, sensorId: SensorId, state: AnalyzeState, cause: Cause)

  function StartIds(futures: seq<Future>): set<ProcessingId> {
    set f | f in futures && f.origin.Start? :: f.id
  }

  datatype State<A(==)> = State(
    objects: map<A, Analyzer>,
    analyzers: seq<A>,
    byId: map<ProcessingId, A>,
    futures: seq<Future>,
    records: map<ProcessingId, Settings>,
    sessions: map<SensorId, int>,
    openOperations: set<ProcessingId>,
    sent: seq<StateEvent>)
  {
    function Find(id: ProcessingId): Option<A> {
      if id == "" || id !in byId then None else Some(byId[id])
    }

    /** `startAnalyze` turns the request down: same settings already run, or another start is uncollected. */
    predicate Refuses(st: Settings) {
      (exists a :: a in analyzers && a in objects && objects[a].settings == st) || futures != []
    }

    function NextSession(sensor: SensorId): int {
      if sensor in sessions then sessions[sensor] + 1 else 0
    }

    /** The settings of an accepted start. */
    function Launched(st: Settings, url: Url): Settings {
      st.(sourceUrl := url, currentSession := NextSession(st.sensorId))
    }

    function Launch(st: Settings, url: Url): State<A> {
      var launched := Launched(st, url);
      this.(sessions := sessions[st.sensorId := launched.currentSession],
            futures := futures + [Future(st.processingId, Start(launched), None)],
            records := Inserted(records, st.processingId, launched))
    }

    /** The critical section of the start thread. */
    function Register(a: A, st: Settings): State<A> {
      this.(objects := objects[a := Analyzer(st, ACTIVE)],
            analyzers := analyzers + [a],
            byId := Inserted(byId, st.processingId, a))
    }

    function Finish(i: nat, ok: bool): State<A>
      requires i < |futures|
    {
      this.(futures := futures[i := futures[i].(result := Some(ok))])
    }

    function Ready(i: nat): bool {
      i < |futures| && futures[i].result.Some?
    }

    /** The collection of future `i` dereferences nothing that is missing. */
    predicate CollectDefined(i: nat)
      requires Ready(i)
    {
      var f := futures[i];
      match Find(f.id)
      case Some(a) => a in objects
      case None => !f.result.value && f.id in records
    }

    function ResultEvent(f: Future): StateEvent {
      var cause := if f.origin.Start? then StartResult else ResumeResult;
      match Find(f.id)
      case Some(a) =>
        if a in objects then StateEvent(objects[a].settings.processingId, objects[a].settings.sensorId, objects[a].state, cause)
        else StateEvent(f.id, 0, CRUSHED, cause)
      case None => StateEvent(f.id, if f.id in records then records[f.id].sensorId else 0, CRUSHED, cause)
    }

    /** One turn of the collecting loop: event, log entry or record, and the future is gone. */
    function Collect(i: nat): State<A>
      requires Ready(i)
    {
      var f := futures[i];
      var s := this.(sent := sent + [ResultEvent(f)], futures := Erased(futures, i));
      if f.result.value then s.(records := records - {f.id}) else s.(openOperations := openOperations - {f.id})
    }

    /** A whole pass of the collecting loop from position `i` on. */
    function CollectFrom(i: nat): State<A>
      requires i <= |futures|
      decreases |futures| - i
    {
      if i == |futures| then this
      else if Ready(i) then Collect(i).CollectFrom(i)
      else CollectFrom(i + 1)
    }

    predicate OnSource(a: A, url: Url) {
      a in objects && objects[a].settings.sourceUrl == url
    }

    function LostEvent(a: A): StateEvent
      requires a in objects
    {
      StateEvent(objects[a].settings.processingId, objects[a].settings.sensorId, CRUSHED, SourceLost)
    }

    function LostEvents(url: Url, refs: seq<A>): seq<StateEvent> {
      if refs == [] then []
      else (if OnSource(refs[0], url) then [LostEvent(refs[0])] else []) + LostEvents(url, refs[1..])
    }

    function OffSource(url: Url, refs: seq<A>): seq<A> {
      if refs == [] then []
      else (if OnSource(refs[0], url) then [] else [refs[0]]) + OffSource(url, refs[1..])
    }

    /** The erasing loop from position `i` on. */
    function LoseFrom(url: Url, i: nat): State<A>
      requires i <= |analyzers|
      decreases |analyzers| - i
    {
      if i == |analyzers| then this
      else if OnSource(analyzers[i], url) then DropLost(i).LoseFrom(url, i)
      else LoseFrom(url, i + 1)
    }

    function DropLost(i: nat): State<A>
      requires i < |analyzers| && analyzers[i] in objects
    {
      this.(analyzers := Erased(analyzers, i), sent := sent + [LostEvent(analyzers[i])])
    }

    /** Source loss drops the vector's entries only; the map keeps them for a later stop. */
    function Lose(url: Url): State<A> {
      this.(analyzers := OffSource(url, analyzers), sent := sent + LostEvents(url, analyzers))
    }

    function ResumeAnalyzer(id: ProcessingId): State<A> {
      match Find(id)
      case None => this
      case Some(a) =>
        if a !in objects then this
        else
          var st := objects[a].settings;
          var resumed := st.(currentSession := st.currentSession + 1);
          this.(objects := objects[a := Analyzer(resumed, ACTIVE)],
                sessions := sessions[st.sensorId := resumed.currentSession],
                futures := futures + [Future(id, Resume, None)])
    }

    /** The first vector entry of this id. */
    function IndexOf(id: ProcessingId, i: nat): nat
      requires i <= |analyzers|
      ensures i <= IndexOf(id, i) <= |analyzers|
      decreases |analyzers| - i
    {
      if i == |analyzers| || (analyzers[i] in objects && objects[analyzers[i]].settings.processingId == id) then i
      else IndexOf(id, i + 1)
    }

    function Remove(id: ProcessingId): State<A> {
      var k := IndexOf(id, 0);
      this.(byId := byId - {id}, analyzers := if k < |analyzers| then Erased(analyzers, k) else analyzers)
    }

    function DropRecord(id: ProcessingId): State<A> {
      this.(records := records - {id})
    }
  }

  /** Where the one command thread is: between the manager's call and the log's, or in no command. */
  datatype Command = Idle | Opening(id: ProcessingId) | Closing(id: ProcessingId)

  /** `dismissed` lost their record to a stop, `dropped` lost their source and are not yet stopped,
      `stray` are log entries nobody will close, `early` had a resume collected before their start and
      so lost their record to it. */
  datatype History = History(
    accepted: set<ProcessingId>,
    failed: set<ProcessingId>,
    destroyed: set<ProcessingId>,
    dismissed: set<ProcessingId>,
    dropped: set<ProcessingId>,
    stray: set<ProcessingId>,
    early: set<ProcessingId>,
    issued: map<SensorId, seq<int>>)

  datatype World<A(==)> = World(s: State<A>, command: Command, h: History)

  datatype Event<A> =
    | StartAnalyze(st: Settings, url: Url)
    | OpenOperation
    | RegisterAnalyzer(i: nat, ref: A)
    | FinishStart(i: nat, ok: bool)
    | CollectResult(i: nat)
    | LoseSource(url: Url)
    | StopAnalyze(id: ProcessingId, url: Url)
    | CloseOperation
    | ResumeAnalyze(id: ProcessingId)

  function Issued(h: History, sensor: SensorId): seq<int> {
    if sensor in h.issued then h.issued[sensor] else []
  }

  function Issue(h: History, sensor: SensorId, session: int): History {
    h.(issued := h.issued[sensor := Issued(h, sensor) + [session]])
  }

  function Initial<A>(sessions: map<SensorId, int>): World<A> {
    World(State(map[], [], map[], [], map[], sessions, {}, []), Idle, History({}, {}, {}, {}, {}, {}, {}, map[]))
  }

  function ApplyStart<A>(w: World<A>, st: Settings, url: Url): World<A> {
    if w.s.Refuses(st) then w
    else
      World(w.s.Launch(st, url), Opening(st.processingId),
            Issue(w.h.(accepted := w.h.accepted + {st.processingId}), st.sensorId, w.s.NextSession(st.sensorId)))
  }

  function ApplyOpen<A>(w: World<A>): World<A> {
    if !w.command.Opening? then w
    else
      var id := w.command.id;
      World(w.s.(openOperations := w.s.openOperations + {id}), Idle,
            if id in w.h.failed then w.h.(stray := w.h.stray + {id}) else w.h)
  }

  function ApplyClose<A>(w: World<A>): World<A> {
    if !w.command.Closing? then w
    else w.(s := w.s.(openOperations := w.s.openOperations - {w.command.id}), command := Idle)
  }

  function ApplyRegister<A>(w: World<A>, i: nat, a: A): World<A> {
    if i < |w.s.futures| && w.s.futures[i].origin.Start? then w.(s := w.s.Register(a, w.s.futures[i].origin.settings)) else w
  }

  function ApplyCollect<A>(w: World<A>, i: nat): World<A> {
    if !w.s.Ready(i) then w
    else
      var f := w.s.futures[i];
      w.(s := w.s.Collect(i),
         h := if !f.result.value then w.h.(failed := w.h.failed + {f.id})
              else if f.origin.Resume? && f.id in StartIds(w.s.futures) then w.h.(early := w.h.early + {f.id})
              else w.h)
  }

  function ApplyLose<A>(w: World<A>, url: Url): World<A> {
    w.(s := w.s.Lose(url),
       h := w.h.(dropped := w.h.dropped + set a | a in w.s.analyzers && w.s.OnSource(a, url) :: w.s.objects[a].settings.processingId))
  }

  /** With an empty source address the stop removes the analyzer but never closes its log entry. */
  function ApplyStop<A>(w: World<A>, id: ProcessingId, url: Url): World<A> {
    if w.s.Find(id).Some? then
      var h := w.h.(destroyed := w.h.destroyed + {id}, dropped := w.h.dropped - {id});
      if url == "" then World(w.s.Remove(id), Idle, h.(stray := h.stray + {id}))
      else World(w.s.Remove(id), Closing(id), h)
    else
      World(w.s.DropRecord(id), Idle, if id in w.s.records then w.h.(dismissed := w.h.dismissed + {id}) else w.h)
  }

  function ApplyResume<A>(w: World<A>, id: ProcessingId): World<A> {
    match w.s.Find(id)
    case None => w
    case Some(a) =>
      if a !in w.s.objects then w
      else
        var st := w.s.objects[a].settings;
        w.(s := w.s.ResumeAnalyzer(id), h := Issue(w.h, st.sensorId, st.currentSession + 1))
  }

  function Apply<A>(w: World<A>, e: Event<A>): World<A> {
    match e
    case StartAnalyze(st, url) => ApplyStart(w, st, url)
    case OpenOperation => ApplyOpen(w)
    case RegisterAnalyzer(i, a) => ApplyRegister(w, i, a)
    case FinishStart(i, ok) => if i < |w.s.futures| then w.(s := w.s.Finish(i, ok)) else w
    case CollectResult(i) => ApplyCollect(w, i)
    case LoseSource(url) => ApplyLose(w, url)
    case StopAnalyze(id, url) => ApplyStop(w, id, url)
    case CloseOperation => ApplyClose(w)
    case ResumeAnalyze(id) => ApplyResume(w, id)
  }

  /** The starts whose threads have registered their analyzer, destroyed since or not. */
  function Registered<A>(w: World<A>): set<ProcessingId> {
    w.s.byId.Keys + w.h.destroyed
  }

  /** What the code allows: commands run one at a time with fresh ids, and a start thread registers
      at most once, before it reports success. */
  ghost predicate Legal<A>(w: World<A>, e: Event<A>) {
    match e
    case StartAnalyze(st, _) => w.command.Idle? && st.processingId != "" && st.processingId !in w.h.accepted
    case OpenOperation => w.command.Opening?
    case RegisterAnalyzer(i, a) =>
      && i < |w.s.futures| && w.s.futures[i].origin.Start? && w.s.futures[i].result.None?
      && w.s.futures[i].id !in Registered(w) && a !in w.s.objects
    case FinishStart(i, ok) =>
      && i < |w.s.futures| && w.s.futures[i].result.None?
      && (if w.s.futures[i].origin.Start? then ok <==> w.s.futures[i].id in Registered(w) else ok)
    case CollectResult(i) => w.s.Ready(i)
    case LoseSource(_) => true
    case StopAnalyze(_, _) => w.command.Idle?
    case CloseOperation => w.command.Closing?
    case ResumeAnalyze(_) => w.command.Idle?
  }

  function After<A>(sessions: map<SensorId, int>, es: seq<Event<A>>): World<A> {
    if es == [] then Initial(sessions) else Apply(After(sessions, es[..|es| - 1]), es[|es| - 1])
  }

  ghost predicate LegalRun<A>(sessions: map<SensorId, int>, es: seq<Event<A>>) {
    forall k :: 0 <= k < |es| ==> Legal(After(sessions, es[..k]), es[k])
  }
}
