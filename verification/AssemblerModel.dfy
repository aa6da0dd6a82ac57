/** The video assembler: videos being assembled, by object and by task.

    `A` is the type of a reference to a video; both indexes hold references to the same videos. */
module AssemblerModel {
  import opened Common

  type ObjectId = nat
  type TaskId = string

  datatype Video = Video(objectId: ObjectId, taskId: TaskId, location: string, ready: bool)

  datatype State<A(==)> = State(videos: map<A, Video>, byObject: map<ObjectId, A>, byTask: map<TaskId, A>)
  {
    /** An object that has a video already keeps it in the index; the new one is known by its task only. */
    function Run(a: A, o: ObjectId, t: TaskId): State<A> {
      State(videos[a := Video(o, t, "", false)], Inserted(byObject, o, a), Inserted(byTask, t, a))
    }

    function Record(t: TaskId, path: string): State<A> {
      if t in byTask && byTask[t] in videos
      then this.(videos := videos[byTask[t] := videos[byTask[t]].(location := path, ready := true)])
      else this
    }

    predicate IsReady(o: ObjectId) {
      o in byObject && byObject[o] in videos && videos[byObject[o]].ready
    }

    function ReadyObjects(): set<ObjectId> {
      set o | o in byObject && IsReady(o)
    }

    function TasksOf(objects: set<ObjectId>): set<TaskId> {
      set o | o in objects && o in byObject && byObject[o] in videos :: videos[byObject[o]].taskId
    }

    /** The videos of these objects leave both indexes. */
    function HandOut(objects: set<ObjectId>): State<A> {
      this.(byObject := byObject - objects, byTask := byTask - TasksOf(objects))
    }

    function Handed(): set<Video> {
      set o | o in ReadyObjects() :: videos[byObject[o]]
    }
  }

  datatype Event<A> =
    | Run(ref: A, objectId: ObjectId, lifetimeSec: int, taskId: TaskId)
    | Record(tag: TaskId, path: string)
    | GetReady

  function Apply<A>(s: State<A>, e: Event<A>): State<A> {
    match e
    case Run(a, o, lifetime, t) => if lifetime <= 0 then s else s.Run(a, o, t)
    case Record(t, path) => s.Record(t, path)
    case GetReady => s.HandOut(s.ReadyObjects())
  }

  function After<A>(es: seq<Event<A>>): State<A> {
    if es == [] then State(map[], map[], map[]) else Apply(After(es[..|es| - 1]), es[|es| - 1])
  }

  // The history on its own: what the requests and messages say, without any index.

  /** The object a task was started for. */
  function StartedFor<A>(es: seq<Event<A>>, t: TaskId): Option<ObjectId> {
    if es == [] then None
    else
      var e, before := es[|es| - 1], StartedFor(es[..|es| - 1], t);
      if e.Run? && e.lifetimeSec > 0 && e.taskId == t then Some(e.objectId) else before
  }

  /** The path in the latest message for a task since its start. */
  function Latest<A>(es: seq<Event<A>>, t: TaskId): Option<string> {
    if es == [] then None
    else
      var e, before := es[|es| - 1], es[..|es| - 1];
      if e.Record? && e.tag == t && StartedFor(before, t).Some? then Some(e.path) else Latest(before, t)
  }

  /** The outstanding task of an object: the first started, until it is handed out. */
  function Owner<A>(es: seq<Event<A>>, o: ObjectId): Option<TaskId> {
    if es == [] then None
    else
      var e, before := es[|es| - 1], es[..|es| - 1];
      match Owner(before, o)
      case None => if e.Run? && e.lifetimeSec > 0 && e.objectId == o then Some(e.taskId) else None
      case Some(t) => if e.GetReady? && Latest(before, t).Some? then None else Some(t)
  }

  /** References and task ids are fresh. */
  ghost predicate Legal<A>(es: seq<Event<A>>, e: Event<A>) {
    e.Run? ==> e.ref !in After(es).videos && StartedFor(es, e.taskId).None?
  }

  ghost predicate LegalRun<A>(es: seq<Event<A>>) {
    forall k :: 0 <= k < |es| ==> Legal(es[..k], es[k])
  }
}
