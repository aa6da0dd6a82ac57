/** The video assembler over heap videos. */
module VideoAssembler {
  import opened Common
  import opened AssemblerModel

  class SAssembledVideo {
    const forObjectId: ObjectId
    const taskId: TaskId
    var location: string
    var ready: bool

    constructor (forObjectId: ObjectId, taskId: TaskId)
      ensures Value() == Video(forObjectId, taskId, "", false)
    {
      this.forObjectId, this.taskId := forObjectId, taskId;
      location, ready := "", false;
    }

    ghost function Value(): Video
      reads this
    {
      Video(forObjectId, taskId, location, ready)
    }
  }

  class VideoAssembler {
    var assembledVideosByObjectId: map<ObjectId, SAssembledVideo>
    var assembledVideosByTaskId: map<TaskId, SAssembledVideo>
    ghost var videos: set<SAssembledVideo>

    ghost function Videos(): map<SAssembledVideo, Video>
      reads this, videos
    {
      map v | v in videos :: v.Value()
    }

    ghost function Model(): State<SAssembledVideo>
      reads this, videos
    {
      State(Videos(), assembledVideosByObjectId, assembledVideosByTaskId)
    }

    ghost predicate Valid()
      reads this
    {
      && (forall o :: o in assembledVideosByObjectId ==> assembledVideosByObjectId[o] in videos)
      && (forall t :: t in assembledVideosByTaskId ==> assembledVideosByTaskId[t] in videos)
    }

    constructor ()
      ensures Valid() && Model() == After<SAssembledVideo>([])
    {
      assembledVideosByObjectId, assembledVideosByTaskId, videos := map[], map[], {};
    }

    /** The object's lifetime is read before anything else, so the object must be known; `taskId` is
        the generated id. */
    method Run(objectId: ObjectId, lifetimeBegin: int, lifetimeEnd: int, taskId: TaskId)
      returns (sent: bool, ghost video: Option<SAssembledVideo>)
      requires Valid()
      modifies this
      ensures Valid() && videos >= old(videos) && fresh(videos - old(videos))
      ensures sent <==> lifetimeEnd - lifetimeBegin > 0
      ensures sent ==> video.Some? && fresh(video.value)
      ensures Model() ==
        if sent then Apply(old(Model()), Event.Run(video.value, objectId, lifetimeEnd - lifetimeBegin, taskId)) else old(Model())
    {
      ghost var m := Model();
      if lifetimeEnd - lifetimeBegin <= 0 {
        return false, None;
      }
      var assembledVideo := new SAssembledVideo(objectId, taskId);
      assembledVideosByObjectId := Inserted(assembledVideosByObjectId, objectId, assembledVideo);
      assembledVideosByTaskId := Inserted(assembledVideosByTaskId, taskId, assembledVideo);
      videos := videos + {assembledVideo};
      assert Videos() == m.videos[assembledVideo := assembledVideo.Value()];
      return true, Some(assembledVideo);
    }

    /** The record message of the video receiver. */
    method CallbackNetworkRequest(tag: TaskId, recordPath: string)
      requires Valid()
      modifies videos
      ensures Valid()
      ensures Model() == Apply(old(Model()), Event.Record(tag, recordPath))
    {
      ghost var m := Model();
      if tag in assembledVideosByTaskId {
        var video := assembledVideosByTaskId[tag];
        video.location := recordPath;
        video.ready := true;
        assert Videos() == m.videos[video := video.Value()];
      }
    }

    /** `order` is the order in which the map is traversed, which is unspecified. */
    method GetReadyVideos() returns (out: seq<SAssembledVideo>, ghost order: seq<ObjectId>)
      requires Valid()
      modifies this
      ensures Valid() && videos == old(videos)
      ensures Model() == Apply(old(Model()), GetReady)
      ensures Distinct(order) && forall o :: o in order <==> o in old(Model()).ReadyObjects()
      ensures |out| == |order| && forall i :: 0 <= i < |out| ==>
        order[i] in old(assembledVideosByObjectId) && out[i] == old(assembledVideosByObjectId)[order[i]]
    {
      ghost var m := Model();
      ghost var done: set<ObjectId> := {};
      out, order := [], [];
      assert m.HandOut({}) == m;
      var rest := assembledVideosByObjectId.Keys;
      while rest != {}
        invariant Valid() && videos == old(videos) && Model() == m.HandOut(done)
        invariant rest <= m.byObject.Keys && done == m.ReadyObjects() - rest
        invariant Distinct(order) && forall o :: o in order <==> o in done
        invariant |out| == |order| && forall i :: 0 <= i < |out| ==> order[i] in m.byObject && out[i] == m.byObject[order[i]]
      {
        var o :| o in rest;
        rest := rest - {o};
        var video := assembledVideosByObjectId[o];
        assert video.ready <==> m.IsReady(o) by {
          assert Model().videos == m.videos;
        }
        if video.ready {
          HandOutOne(m, done, o);
          HandOut(o);
          out, order := out + [video], order + [o];
          done := done + {o};
        }
      }
      assert done == m.ReadyObjects();
    }

    method HandOut(o: ObjectId)
      requires Valid() && o in assembledVideosByObjectId
      modifies `assembledVideosByObjectId, `assembledVideosByTaskId
      ensures Valid()
      ensures var m := old(Model());
        Model() == State(m.videos, m.byObject - {o}, m.byTask - {m.videos[m.byObject[o]].taskId})
    {
      var video := assembledVideosByObjectId[o];
      assembledVideosByObjectId := assembledVideosByObjectId - {o};
      assembledVideosByTaskId := assembledVideosByTaskId - {video.taskId};
    }
  }

  /** Handing out one more object. */
  lemma HandOutOne<A>(m: State<A>, done: set<ObjectId>, o: ObjectId)
    requires o in m.byObject && m.byObject[o] in m.videos
    ensures m.HandOut(done + {o}) ==
      State(m.videos, m.byObject - done - {o}, m.byTask - m.TasksOf(done) - {m.videos[m.byObject[o]].taskId})
  {
  }
}
