/** The vector and the map of analyzers: the same objects under the same ids. */
module AnalysisIndexes {
  import opened Common
  import opened AnalysisModel

  function IdOf<A>(objects: map<A, Analyzer>, a: A): ProcessingId {
    if a in objects then objects[a].settings.processingId else ""
  }

  /** Every mapped analyzer carries its key. */
  ghost predicate MapOk<A>(objects: map<A, Analyzer>, byId: map<ProcessingId, A>) {
    forall id :: id in byId ==> byId[id] in objects && objects[byId[id]].settings.processingId == id
  }

  /** Every vector entry is the map's object of its own id, and has its source. */
  ghost predicate VectorOk<A>(objects: map<A, Analyzer>, analyzers: seq<A>, byId: map<ProcessingId, A>, dropped: set<ProcessingId>) {
    && Distinct(analyzers)
    && forall a :: a in analyzers ==>
         && a in objects && IdOf(objects, a) in byId && byId[IdOf(objects, a)] == a && IdOf(objects, a) !in dropped
  }

  /** What the map has beyond the vector is what lost its source and was not stopped. */
  ghost predicate CoverOk<A>(analyzers: seq<A>, byId: map<ProcessingId, A>, dropped: set<ProcessingId>) {
    && dropped <= byId.Keys
    && forall id :: id in byId ==> byId[id] in analyzers || id in dropped
  }

  ghost predicate Indexes<A>(w: World<A>) {
    && MapOk(w.s.objects, w.s.byId)
    && VectorOk(w.s.objects, w.s.analyzers, w.s.byId, w.h.dropped)
    && CoverOk(w.s.analyzers, w.s.byId, w.h.dropped)
  }

  lemma {:induction false} OffSourceMembers<A>(s: State<A>, url: Url, refs: seq<A>)
    ensures forall a :: a in s.OffSource(url, refs) ==> a in refs && !s.OnSource(a, url)
    ensures forall a :: a in refs && !s.OnSource(a, url) ==> a in s.OffSource(url, refs)
    ensures Distinct(refs) ==> Distinct(s.OffSource(url, refs))
  {
    if refs != [] {
      OffSourceMembers(s, url, refs[1..]);
      assert refs == [refs[0]] + refs[1..];
    }
  }

  /** The loop that erases while it iterates drops exactly the analyzers of the source, in order. */
  lemma {:induction false} LoseFromIsLose<A>(s: State<A>, url: Url, i: nat)
    requires i <= |s.analyzers|
    ensures s.LoseFrom(url, i) == s.(analyzers := s.analyzers[..i] + s.OffSource(url, s.analyzers[i..]),
                                     sent := s.sent + s.LostEvents(url, s.analyzers[i..]))
    decreases |s.analyzers| - i
  {
    var all := s.analyzers;
    if i < |all| {
      var rest := all[i + 1..];
      assert all[i..][0] == all[i] && all[i..][1..] == rest;
      if s.OnSource(all[i], url) {
        var d := s.DropLost(i);
        LoseFromIsLose(d, url, i);
        LoseSame(s, d, url, rest);
        ErasedSlices(all, i);
        assert s.sent + [s.LostEvent(all[i])] + s.LostEvents(url, rest) == s.sent + s.LostEvents(url, all[i..]);
        assert s.OffSource(url, all[i..]) == s.OffSource(url, rest);
      } else {
        LoseFromIsLose(s, url, i + 1);
        assert all[..i + 1] + s.OffSource(url, rest) == all[..i] + s.OffSource(url, all[i..]);
        assert s.LostEvents(url, all[i..]) == s.LostEvents(url, rest);
      }
    } else {
      assert all[i..] == [] && all[..i] + [] == all && s.sent + [] == s.sent;
    }
  }

  lemma ErasedSlices<T>(s: seq<T>, i: nat)
    requires i < |s|
    ensures Erased(s, i)[..i] == s[..i] && Erased(s, i)[i..] == s[i + 1..]
  {
  }

  lemma {:induction false} LoseSame<A>(s: State<A>, s': State<A>, url: Url, refs: seq<A>)
    requires s'.objects == s.objects
    ensures s'.OffSource(url, refs) == s.OffSource(url, refs) && s'.LostEvents(url, refs) == s.LostEvents(url, refs)
  {
    if refs != [] {
      LoseSame(s, s', url, refs[1..]);
    }
  }

  lemma IndexesRegister<A>(w: World<A>, a: A, st: Settings)
    requires Indexes(w) && a !in w.s.objects && st.processingId !in w.s.byId
    ensures Indexes(w.(s := w.s.Register(a, st)))
  {
    var s' := w.s.Register(a, st);
    assert forall b :: b in w.s.analyzers ==> b != a && IdOf(s'.objects, b) == IdOf(w.s.objects, b);
    assert IdOf(s'.objects, a) == st.processingId && s'.byId[st.processingId] == a;
    assert s'.analyzers == w.s.analyzers + [a];
  }

  lemma IndexesLose<A>(w: World<A>, url: Url)
    requires Indexes(w)
    ensures Indexes(ApplyLose(w, url))
  {
    var s := w.s;
    var w' := ApplyLose(w, url);
    OffSourceMembers(s, url, s.analyzers);
    assert forall a :: a in w'.s.analyzers ==> IdOf(s.objects, a) !in w'.h.dropped;
    forall id | id in s.byId ensures s.byId[id] in w'.s.analyzers || id in w'.h.dropped {
      var a := s.byId[id];
      if a in s.analyzers && s.OnSource(a, url) {
        assert s.objects[a].settings.processingId == id;
      }
    }
    forall id | id in w'.h.dropped ensures id in s.byId {
      if id !in w.h.dropped {
        var b :| b in s.analyzers && s.OnSource(b, url) && s.objects[b].settings.processingId == id;
        assert IdOf(s.objects, b) == id;
      }
    }
  }

  /** The vector search finds the map's object, or nothing if that object lost its source. */
  lemma {:induction false} IndexOfFinds<A>(s: State<A>, id: ProcessingId, i: nat)
    requires i <= |s.analyzers|
    requires forall a :: a in s.analyzers ==> a in s.objects
    ensures var k := s.IndexOf(id, i);
      && (k < |s.analyzers| ==> IdOf(s.objects, s.analyzers[k]) == id)
      && forall j :: i <= j < k ==> IdOf(s.objects, s.analyzers[j]) != id
    decreases |s.analyzers| - i
  {
    if i < |s.analyzers| && !(s.analyzers[i] in s.objects && s.objects[s.analyzers[i]].settings.processingId == id) {
      IndexOfFinds(s, id, i + 1);
    }
  }

  lemma ErasedMembers<T>(s: seq<T>, i: nat)
    requires i < |s| && Distinct(s)
    ensures Distinct(Erased(s, i))
    ensures forall x :: x in Erased(s, i) ==> x in s && x != s[i]
    ensures forall x :: x in s && x != s[i] ==> x in Erased(s, i)
  {
  }

  lemma IndexesRemove<A>(w: World<A>, id: ProcessingId, h': History)
    requires Indexes(w) && id in w.s.byId
    requires h'.dropped == w.h.dropped - {id}
    ensures Indexes(World(w.s.Remove(id), w.command, h'))
  {
    var s := w.s;
    var s' := s.Remove(id);
    IndexOfFinds(s, id, 0);
    var k := s.IndexOf(id, 0);
    if k < |s.analyzers| {
      assert s.analyzers[k] in s.analyzers;
      ErasedMembers(s.analyzers, k);
      assert s.byId[id] == s.analyzers[k];
    } else {
      assert s.byId[id] !in s.analyzers;
    }
    assert forall a :: a in s'.analyzers ==> a in s.analyzers && a != s.byId[id];
    assert forall a :: a in s.analyzers && a != s.byId[id] ==> a in s'.analyzers;
    RemovedVector(s, s'.analyzers, id, w.h.dropped);
  }

  lemma RemovedVector<A>(s: State<A>, rest: seq<A>, id: ProcessingId, dropped: set<ProcessingId>)
    requires MapOk(s.objects, s.byId) && VectorOk(s.objects, s.analyzers, s.byId, dropped) && CoverOk(s.analyzers, s.byId, dropped)
    requires id in s.byId && Distinct(rest)
    requires forall a :: a in rest ==> a in s.analyzers && a != s.byId[id]
    requires forall a :: a in s.analyzers && a != s.byId[id] ==> a in rest
    ensures VectorOk(s.objects, rest, s.byId - {id}, dropped - {id})
    ensures CoverOk(rest, s.byId - {id}, dropped - {id})
  {
  }

  lemma IndexesResume<A>(w: World<A>, id: ProcessingId)
    requires Indexes(w)
    ensures Indexes(ApplyResume(w, id))
  {
  }

  lemma IndexesStep<A>(w: World<A>, e: Event<A>)
    requires Indexes(w) && Legal(w, e)
    requires e.RegisterAnalyzer? ==> w.s.futures[e.i].origin.settings.processingId == w.s.futures[e.i].id
    ensures Indexes(Apply(w, e))
  {
    match e
    case RegisterAnalyzer(i, a) =>
      IndexesRegister(w, a, w.s.futures[i].origin.settings);
    case LoseSource(url) => IndexesLose(w, url);
    case StopAnalyze(id, url) =>
      if w.s.Find(id).Some? {
        IndexesRemove(w, id, ApplyStop(w, id, url).h);
      }
    case ResumeAnalyze(id) => IndexesResume(w, id);
    case StartAnalyze(_, _) =>
    case FinishStart(_, _) =>
    case CollectResult(_) =>
    case OpenOperation =>
    case CloseOperation =>
  }
}
