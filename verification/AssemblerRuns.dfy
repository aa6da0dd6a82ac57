/** Which videos the assembler hands out, when, and how often. */
module AssemblerRuns {
  import opened Common
  import opened AssemblerModel

  /** The object index holds the owners, each under its own object and its own task. */
  ghost predicate ByObjectOk<A>(s: State<A>, es: seq<Event<A>>) {
    && (forall o :: o in s.byObject ==>
          && s.byObject[o] in s.videos && s.videos[s.byObject[o]].objectId == o
          && Owner(es, o) == Some(s.videos[s.byObject[o]].taskId)
          && s.videos[s.byObject[o]].taskId in s.byTask && s.byTask[s.videos[s.byObject[o]].taskId] == s.byObject[o])
    && (forall o :: Owner(es, o).Some? ==> o in s.byObject)
  }

  /** A video in the task index is for the object of its task, and is ready exactly when there is a
      message for the task, with the latest path. */
  ghost predicate VideoOk<A>(es: seq<Event<A>>, t: TaskId, v: Video) {
    && v.taskId == t && StartedFor(es, t) == Some(v.objectId)
    && (v.ready <==> Latest(es, t).Some?) && v.location == if v.ready then Latest(es, t).value else ""
  }

  ghost predicate ByTaskOk<A>(s: State<A>, es: seq<Event<A>>) {
    forall t :: t in s.byTask ==> s.byTask[t] in s.videos && VideoOk(es, t, s.videos[s.byTask[t]])
  }

  lemma Prefix<A>(es: seq<Event<A>>, e: Event<A>)
    ensures (es + [e])[..|es|] == es && (es + [e])[|es|] == e
    ensures After(es + [e]) == Apply(After(es), e)
  {
  }

  lemma {:induction false} NeverStarted<A>(es: seq<Event<A>>, t: TaskId)
    requires StartedFor(es, t).None?
    ensures Latest(es, t).None? && forall o :: Owner(es, o) != Some(t)
  {
    if es != [] {
      NeverStarted(es[..|es| - 1], t);
    }
  }

  lemma RunStep<A>(s: State<A>, es: seq<Event<A>>, e: Event<A>)
    requires ByObjectOk(s, es) && ByTaskOk(s, es)
    requires e.Run? && e.lifetimeSec > 0 && e.ref !in s.videos && StartedFor(es, e.taskId).None?
    ensures ByObjectOk(s.Run(e.ref, e.objectId, e.taskId), es + [e])
    ensures ByTaskOk(s.Run(e.ref, e.objectId, e.taskId), es + [e])
  {
    Prefix(es, e);
    NeverStarted(es, e.taskId);
    assert e.taskId !in s.byTask;
    var s' := s.Run(e.ref, e.objectId, e.taskId);
    forall t | t in s'.byTask ensures s'.byTask[t] in s'.videos && VideoOk(es + [e], t, s'.videos[s'.byTask[t]]) {}
    forall o ensures Owner(es + [e], o) ==
      if o == e.objectId && Owner(es, o).None? then Some(e.taskId) else Owner(es, o) {}
  }

  lemma RecordStep<A>(s: State<A>, es: seq<Event<A>>, e: Event<A>)
    requires ByObjectOk(s, es) && ByTaskOk(s, es) && e.Record?
    ensures ByObjectOk(s.Record(e.tag, e.path), es + [e])
    ensures ByTaskOk(s.Record(e.tag, e.path), es + [e])
  {
    Prefix(es, e);
    var s' := s.Record(e.tag, e.path);
    forall o ensures Owner(es + [e], o) == Owner(es, o) {}
    forall t | t in s'.byTask ensures s'.byTask[t] in s'.videos && VideoOk(es + [e], t, s'.videos[s'.byTask[t]]) {
      assert VideoOk(es, t, s.videos[s.byTask[t]]);
    }
  }

  /** The ready objects are those whose owner has a message. */
  lemma ReadyMeans<A>(s: State<A>, es: seq<Event<A>>, o: ObjectId)
    requires ByObjectOk(s, es) && ByTaskOk(s, es)
    ensures o in s.ReadyObjects() <==> Owner(es, o).Some? && Latest(es, Owner(es, o).value).Some?
    ensures o in s.ReadyObjects() ==>
      s.videos[s.byObject[o]] == Video(o, Owner(es, o).value, Latest(es, Owner(es, o).value).value, true)
  {
  }

  lemma GetReadyStep<A>(s: State<A>, es: seq<Event<A>>)
    requires ByObjectOk(s, es) && ByTaskOk(s, es)
    ensures ByObjectOk(s.HandOut(s.ReadyObjects()), es + [GetReady])
    ensures ByTaskOk(s.HandOut(s.ReadyObjects()), es + [GetReady])
  {
    Prefix(es, GetReady);
    var s' := s.HandOut(s.ReadyObjects());
    forall o ensures Owner(es + [GetReady], o) == if o in s.ReadyObjects() then None else Owner(es, o) {
      ReadyMeans(s, es, o);
    }
    forall o | o in s'.byObject ensures s.videos[s.byObject[o]].taskId in s'.byTask {
      var t := s.videos[s.byObject[o]].taskId;
      assert t !in s.TasksOf(s.ReadyObjects());
    }
    forall t | t in s'.byTask ensures VideoOk(es + [GetReady], t, s'.videos[s'.byTask[t]]) {
      assert VideoOk(es, t, s.videos[s.byTask[t]]);
    }
  }

  lemma IdleStep<A>(s: State<A>, es: seq<Event<A>>, e: Event<A>)
    requires ByObjectOk(s, es) && ByTaskOk(s, es) && e.Run? && e.lifetimeSec <= 0
    ensures ByObjectOk(s, es + [e]) && ByTaskOk(s, es + [e])
  {
  }

  /** Over every legal run the indexes say what the history says: the object index holds the
      outstanding task of each object, and is contained in the task index. */
  lemma {:induction false} IndexesTrack<A>(es: seq<Event<A>>)
    requires LegalRun(es)
    ensures ByObjectOk(After(es), es) && ByTaskOk(After(es), es)
  {
    if es != [] {
      var n := |es| - 1;
      var before, e := es[..n], es[n];
      assert es == before + [e];
      forall k | 0 <= k < n ensures Legal(before[..k], before[k]) {
        assert before[..k] == es[..k];
      }
      IndexesTrack(before);
      assert Legal(es[..n], es[n]);
      if e.GetReady? {
        GetReadyStep(After(before), before);
      } else if e.Record? {
        RecordStep(After(before), before, e);
      } else if e.lifetimeSec > 0 {
        RunStep(After(before), before, e);
      } else {
        IdleStep(After(before), before, e);
      }
    }
  }

  /** The task is handed out by step `k`. */
  ghost predicate HandedAt<A>(es: seq<Event<A>>, k: nat, t: TaskId) {
    && k < |es| && es[k].GetReady?
    && exists v :: v in After(es[..k]).Handed() && v.taskId == t
  }

  lemma LegalPrefix<A>(es: seq<Event<A>>, k: nat)
    requires LegalRun(es) && k <= |es|
    ensures LegalRun(es[..k])
  {
    forall j | 0 <= j < k ensures Legal(es[..k][..j], es[..k][j]) {
      assert es[..k][..j] == es[..j];
    }
  }

  /** What a hand-out gives: exactly the videos of the owners that have a message, each for the
      object of its task, with the latest path. */
  lemma HandedExactly<A>(es: seq<Event<A>>, v: Video)
    requires LegalRun(es)
    ensures v in After(es).Handed() <==>
      && Owner(es, v.objectId) == Some(v.taskId) && Latest(es, v.taskId) == Some(v.location) && v.ready
  {
    IndexesTrack(es);
    var s := After(es);
    forall o | o in s.ReadyObjects()
      ensures s.videos[s.byObject[o]] == Video(o, Owner(es, o).value, Latest(es, Owner(es, o).value).value, true)
    {
      ReadyMeans(s, es, o);
    }
    ReadyMeans(s, es, v.objectId);
  }

  lemma {:induction false} OwnerStarted<A>(es: seq<Event<A>>, o: ObjectId)
    requires LegalRun(es)
    ensures Owner(es, o).Some? ==> StartedFor(es, Owner(es, o).value) == Some(o)
  {
    if es != [] {
      var n := |es| - 1;
      LegalPrefix(es, n);
      OwnerStarted(es[..n], o);
      assert Legal(es[..n], es[n]);
    }
  }

  /** The run gives the task its object at step `s`. */
  ghost predicate StartsAt<A>(es: seq<Event<A>>, s: nat, t: TaskId) {
    s < |es| && es[s].Run? && es[s].lifetimeSec > 0 && es[s].taskId == t
  }

  /** No hand-out between start and `k` came after a message. */
  ghost predicate NoneBetween<A>(es: seq<Event<A>>, s: nat, k: nat, t: TaskId) {
    forall j :: s < j < k && j < |es| && es[j].GetReady? ==> Latest(es[..j], t).None?
  }

  lemma StartedStays<A>(es: seq<Event<A>>, s: nat, k: nat, t: TaskId)
    requires LegalRun(es) && StartsAt(es, s, t) && s < k <= |es|
    ensures StartedFor(es[..k], t) == Some(es[s].objectId)
    decreases k
  {
    assert es[..k][..k - 1] == es[..k - 1];
    if k > s + 1 {
      StartedStays(es, s, k - 1, t);
      assert Legal(es[..k - 1], es[k - 1]);
    }
  }

  /** A step leaves a started task its object, unless it hands the task out. */
  lemma OwnerKept<A>(before: seq<Event<A>>, e: Event<A>, o: ObjectId, t: TaskId)
    requires Legal(before, e) && StartedFor(before, t).Some?
    ensures Owner(before + [e], o) == Some(t) <==> Owner(before, o) == Some(t) && !(e.GetReady? && Latest(before, t).Some?)
  {
  }

  lemma OwnerAtStart<A>(before: seq<Event<A>>, e: Event<A>)
    requires Legal(before, e) && e.Run? && e.lifetimeSec > 0
    ensures Owner(before + [e], e.objectId) == Some(e.taskId) <==> Owner(before, e.objectId).None?
  {
    assert (before + [e])[..|before|] == before;
    NeverStarted(before, e.taskId);
  }

  lemma NoneBetweenStep<A>(es: seq<Event<A>>, s: nat, k: nat, t: TaskId)
    requires s < k < |es|
    ensures NoneBetween(es, s, k + 1, t) <==> NoneBetween(es, s, k, t) && !(es[k].GetReady? && Latest(es[..k], t).Some?)
  {
  }

  /** A task owns its object from its start on, if the object was free then, until it is handed out. */
  lemma {:induction false} OwnerSince<A>(es: seq<Event<A>>, s: nat, k: nat, t: TaskId)
    requires LegalRun(es) && StartsAt(es, s, t) && s < k <= |es|
    ensures Owner(es[..k], es[s].objectId) == Some(t) <==> Owner(es[..s], es[s].objectId).None? && NoneBetween(es, s, k, t)
    decreases k
  {
    hide After, Apply, StartedFor, Latest, Owner;
    var o := es[s].objectId;
    assert es[..k] == es[..k - 1] + [es[k - 1]];
    assert Legal(es[..k - 1], es[k - 1]);
    if k == s + 1 {
      OwnerAtStart(es[..s], es[s]);
    } else {
      OwnerSince(es, s, k - 1, t);
      StartedStays(es, s, k - 1, t);
      OwnerKept(es[..k - 1], es[k - 1], o, t);
      NoneBetweenStep(es, s, k - 1, t);
    }
  }

  /** Exactly once: a task is handed out by a request if and only if its object had no other video
      outstanding when it started, there has been a message for it, and no earlier request came
      after such a message. */
  lemma HandOut<A>(es: seq<Event<A>>, s: nat, k: nat, t: TaskId)
    requires LegalRun(es) && StartsAt(es, s, t) && s < k < |es| && es[k].GetReady?
    ensures HandedAt(es, k, t) <==>
      && Owner(es[..s], es[s].objectId).None?
      && Latest(es[..k], t).Some? && NoneBetween(es, s, k, t)
  {
    var o := es[s].objectId;
    LegalPrefix(es, k);
    OwnerSince(es, s, k, t);
    StartedStays(es, s, k, t);
    forall v | v in After(es[..k]).Handed() && v.taskId == t ensures v.objectId == o && Latest(es[..k], t).Some? {
      HandedExactly(es[..k], v);
      OwnerStarted(es[..k], v.objectId);
    }
    if Latest(es[..k], t).Some? {
      HandedExactly(es[..k], Video(o, t, Latest(es[..k], t).value, true));
    }
    if HandedAt(es, k, t) {
      var v :| v in After(es[..k]).Handed() && v.taskId == t;
      HandedExactly(es[..k], v);
    }
  }

  /** No task is handed out twice, and none before it is started. */
  lemma HandedOnce<A>(es: seq<Event<A>>, j: nat, k: nat, t: TaskId)
    requires LegalRun(es) && HandedAt(es, j, t) && HandedAt(es, k, t)
    ensures j == k && exists s: nat :: s < k && StartsAt(es, s, t)
  {
    var s := StartOf(es, j, t);
    var s' := StartOf(es, k, t);
    assert Legal(es[..s], es[s]) && Legal(es[..s'], es[s']);
    if s < s' {
      StartedStays(es, s, s', t);
    } else if s' < s {
      StartedStays(es, s', s, t);
    }
    HandOut(es, s, j, t);
    HandOut(es, s, k, t);
  }

  ghost predicate WasHanded<A>(es: seq<Event<A>>, t: TaskId) {
    exists k: nat :: HandedAt(es, k, t)
  }

  lemma WasHandedNext<A>(before: seq<Event<A>>, e: Event<A>, t: TaskId)
    ensures WasHanded(before + [e], t) <==>
      WasHanded(before, t) || (e.GetReady? && exists v :: v in After(before).Handed() && v.taskId == t)
  {
    var es := before + [e];
    assert es[..|before|] == before;
    forall k: nat | k < |before| ensures HandedAt(es, k, t) <==> HandedAt(before, k, t) {
      assert es[..k] == before[..k];
    }
    if WasHanded(es, t) {
      var k: nat :| HandedAt(es, k, t);
      assert k < |before| ==> HandedAt(before, k, t);
    }
    if WasHanded(before, t) {
      var k: nat :| HandedAt(before, k, t);
      assert HandedAt(es, k, t);
    }
    if e.GetReady? && exists v :: v in After(before).Handed() && v.taskId == t {
      assert HandedAt(es, |before|, t);
    }
  }

  lemma LeavesTaskIndex<A>(s: State<A>, t: TaskId)
    requires forall o :: o in s.byObject ==> s.byObject[o] in s.videos
    ensures t in s.HandOut(s.ReadyObjects()).byTask <==> t in s.byTask && !exists v :: v in s.Handed() && v.taskId == t
  {
    if t in s.TasksOf(s.ReadyObjects()) {
      var o :| o in s.ReadyObjects() && s.videos[s.byObject[o]].taskId == t;
      assert s.videos[s.byObject[o]] in s.Handed();
    }
    if v :| v in s.Handed() && v.taskId == t {
      var o :| o in s.ReadyObjects() && s.videos[s.byObject[o]] == v;
      assert t in s.TasksOf(s.ReadyObjects());
    }
  }

  /** The task index holds exactly the started tasks that have not been handed out: those whose object had
      a video outstanding stay for ever. */
  lemma {:induction false} TaskIndexTracks<A>(es: seq<Event<A>>, t: TaskId)
    requires LegalRun(es)
    ensures t in After(es).byTask <==> StartedFor(es, t).Some? && !WasHanded(es, t)
  {
    if es != [] {
      var n := |es| - 1;
      var before, e := es[..n], es[n];
      assert es == before + [e];
      LegalPrefix(es, n);
      IndexesTrack(before);
      TaskIndexTracks(before, t);
      WasHandedNext(before, e, t);
      assert Legal(before, e);
      TaskIndexStep(before, e, t);
    }
  }

  lemma TaskIndexStep<A>(before: seq<Event<A>>, e: Event<A>, t: TaskId)
    requires LegalRun(before) && Legal(before, e) && ByObjectOk(After(before), before)
    requires t in After(before).byTask <==> StartedFor(before, t).Some? && !WasHanded(before, t)
    ensures t in After(before + [e]).byTask <==>
      && StartedFor(before + [e], t).Some?
      && !(WasHanded(before, t) || (e.GetReady? && exists v :: v in After(before).Handed() && v.taskId == t))
  {
    Prefix(before, e);
    if e.GetReady? {
      LeavesTaskIndex(After(before), t);
    }
    if WasHanded(before, t) {
      var k: nat :| HandedAt(before, k, t);
      var s := StartOf(before, k, t);
      StartedStays(before, s, |before|, t);
      assert before[..|before|] == before;
    }
  }

  /** The step that started a task that is handed out. */
  lemma StartOf<A>(es: seq<Event<A>>, k: nat, t: TaskId) returns (s: nat)
    requires LegalRun(es) && HandedAt(es, k, t)
    ensures s < k && StartsAt(es, s, t)
  {
    LegalPrefix(es, k);
    var v :| v in After(es[..k]).Handed() && v.taskId == t;
    HandedExactly(es[..k], v);
    OwnerStarted(es[..k], v.objectId);
    s := StartStep(es[..k], t);
  }

  lemma {:induction false} StartStep<A>(es: seq<Event<A>>, t: TaskId) returns (s: nat)
    requires StartedFor(es, t).Some?
    ensures StartsAt(es, s, t)
  {
    var n := |es| - 1;
    if es[n].Run? && es[n].lifetimeSec > 0 && es[n].taskId == t {
      s := n;
    } else {
      s := StartStep(es[..n], t);
    }
  }
}
