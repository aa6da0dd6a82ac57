/** What every run of the balancer keeps, and exactly which steps spoil the allocation. */
module BalancerRuns {
  import opened Common
  import opened BalancerModel

  lemma {:induction false} InvHolds<A>(max: int, es: seq<Event<A>>)
    requires LegalRun(max, es)
    ensures Inv(max, After(max, es))
  {
    if es != [] {
      var n := |es| - 1;
      forall k | 0 <= k < n ensures Legal(After(max, es[..n][..k]), es[..n][k]) {
        assert es[..n][..k] == es[..k];
      }
      InvHolds(max, es[..n]);
      StepInv(max, After(max, es[..n]), es[n]);
    } else {
      forall idx: nat ensures Holders(Initial<A>().b, idx) == {} {}
    }
  }

  lemma {:induction false} LegalPrefix<A>(max: int, es: seq<Event<A>>, k: nat)
    requires LegalRun(max, es) && k <= |es|
    ensures LegalRun(max, es[..k])
  {
    forall i | 0 <= i < k ensures Legal(After(max, es[..k][..i]), es[..k][i]) {
      assert es[..k][..i] == es[..i];
    }
  }

  lemma AfterStep<A>(max: int, es: seq<Event<A>>, k: nat)
    requires k < |es|
    ensures After(max, es[..k + 1]) == Apply(max, After(max, es[..k]), es[k])
  {
    assert es[..k + 1][..k] == es[..k];
  }

  /** Step k of the run touches no deleted card. */
  ghost predicate SafeAt<A>(max: int, es: seq<Event<A>>, k: nat) {
    k < |es| && HeapSafe(After(max, es[..k]).b, es[k])
  }

  /** Every live id is found on an undeleted card of its profile that holds it. */
  ghost predicate LiveIndexed<A>(w: World<A>) {
    forall id :: id in w.live ==>
      && id in w.b.byProcessing && w.b.byProcessing[id] in w.b.cards
      && id in w.b.cards[w.b.byProcessing[id]].processings
      && w.b.cards[w.b.byProcessing[id]].profile == w.live[id]
  }

  ghost predicate NoDeletedIndexed<A>(b: State<A>) {
    forall p, a :: p in b.byProfile && a in b.byProfile[p] ==> a in b.cards
  }

  /** The live ids are indexed, nothing deleted is, and the monitor's indexes are, counted, those of
      the undeleted cards. */
  ghost predicate SoundAfter<A>(max: int, es: seq<Event<A>>) {
    var w := After(max, es);
    LiveIndexed(w) && NoDeletedIndexed(w.b) && HeldInv(w.b)
  }

  /** Heap safety of the code as written: no step touches a deleted card, every live id is found on
      an undeleted card of its profile that holds it, the profile index holds no deleted card, and the monitor's
      indexes are, counted, those of the undeleted cards. */
  lemma {:induction false} HeapSafety<A>(max: int, es: seq<Event<A>>)
    requires LegalRun(max, es)
    ensures forall k: nat :: k < |es| ==> SafeAt(max, es, k)
    ensures SoundAfter(max, es)
  {
    InvHolds(max, es);
    forall k: nat | k < |es| ensures SafeAt(max, es, k) {
      LegalPrefix(max, es, k);
      InvHolds(max, es[..k]);
      StepInv(max, After(max, es[..k]), es[k]);
    }
  }

  /** Why an id must not be returned twice: the return of `x` leaves its entry behind when `y` keeps
      the card, the return of `y` deletes the card, and a second return of `x` would follow the entry. */
  lemma SecondReturnUnsafe<A>(w: World<A>, x: ProcessingId, y: ProcessingId)
    requires LiveInv(w) && x in w.live && y in w.live && x != y
    requires w.b.byProcessing[x] == w.b.byProcessing[y]
    requires w.b.cards[w.b.byProcessing[x]].processings.Keys == {x, y}
    ensures HeapSafe(w.b.Release(x), Return(y))
    ensures !HeapSafe(w.b.Release(x).Release(y), Return(x))
  {
    var a := w.b.byProcessing[x];
    var b1 := w.b.Release(x);
    assert (w.b.cards[a].processings - {x}).Keys == {y};
    assert b1.cards[a].processings.Keys == {y} && b1.byProcessing == w.b.byProcessing;
    assert b1.cards[a].processings - {y} == map[];
  }

  /** Right after its return an id can be returned again: the first has left its card, or deleted the card
      and the id's entry with it. */
  lemma ReturnTwiceAtOnce<A>(w: World<A>, id: ProcessingId)
    requires LiveInv(w) && id in w.live
    ensures var b := w.b.Release(id);
      && HeapSafe(b, Return(id))
      && (id in b.byProcessing <==> w.b.cards[w.b.byProcessing[id]].processings.Keys != {id})
      && (id in b.byProcessing ==> b.byProcessing[id] in b.cards && id !in b.cards[b.byProcessing[id]].processings)
  {
    var procs := w.b.cards[w.b.byProcessing[id]].processings;
    assert (procs - {id}).Keys == procs.Keys - {id};
    if procs.Keys == {id} {
      assert procs - {id} == map[];
    } else {
      assert procs.Keys - {id} + {id} == procs.Keys;
    }
  }

  ghost predicate WithinCapacityAt<A>(max: int, es: seq<Event<A>>, k: nat) {
    k <= |es| && CapacityInv(max, After(max, es[..k]).b)
  }

  /** No card ever takes more than the configured number of processings, or one if that is less. */
  lemma {:induction false} CapacityBound<A>(max: int, es: seq<Event<A>>)
    requires LegalRun(max, es)
    ensures forall k: nat :: k <= |es| ==> WithinCapacityAt(max, es, k)
  {
    forall k: nat | k <= |es| ensures WithinCapacityAt(max, es, k) {
      LegalPrefix(max, es, k);
      InvHolds(max, es[..k]);
    }
  }

  /** No live id is on a card other than the one it is found on, and no card serves anyone else. */
  ghost predicate NoneElsewhere<A>(w: World<A>) {
    && (forall id, a :: id in w.live && a in w.b.cards && id in w.b.cards[a].processings ==>
          id in w.b.byProcessing && a == w.b.byProcessing[id])
    && (forall a :: a in w.b.cards ==> w.b.cards[a].processings.Keys <= w.live.Keys)
  }

  /** Each live id is on exactly one card, the card of its profile it is found on; and no card serves
      anyone else. */
  ghost predicate Exact<A>(w: World<A>) {
    LiveIndexed(w) && NoneElsewhere(w)
  }

  /** The grant met at most one card of its profile with room: the missing `break` did not matter. */
  ghost predicate OneWithRoom<A>(max: int, b: State<A>, e: Event<A>) {
    e.Grant? ==> |b.WithRoom(max, b.Range(e.profile))| <= 1
  }

  lemma ExactShare<A>(max: int, w: World<A>, e: Event<A>)
    requires Inv(max, w) && Legal(w, e) && e.Grant? && NoneElsewhere(w)
    requires w.b.WithRoom(max, w.b.Range(e.profile)) != []
    ensures NoneElsewhere(Apply(max, w, e)) <==> OneWithRoom(max, w.b, e)
  {
    var room := w.b.WithRoom(max, w.b.Range(e.profile));
    WithRoomMembers(w.b, max, w.b.Range(e.profile));
    assert room[0] in room;
    hide CapacityInv, HeldInv, NoneElsewhere;
    if |room| >= 2 {
      TwoShare(w, room, e.id, e.res, e.profile);
    } else {
      assert room == [room[0]];
      ExactOneShare(w, room[0], e.id, e.res, e.profile);
    }
  }

  lemma TwoShare<A>(w: World<A>, room: seq<A>, id: ProcessingId, res: Resolution, profile: ProfileId)
    requires LiveInv(w) && id !in w.granted && |room| >= 2 && Distinct(room) && forall a :: a in room ==> a in w.b.cards
    ensures !NoneElsewhere(World(w.b.Share(room, id, res), w.granted + {id}, w.live[id := profile]))
  {
    var b' := w.b.Share(room, id, res);
    assert room[1] in room && room[0] != room[1];
    assert id in b'.cards[room[1]].processings && b'.byProcessing[id] == room[0];
  }

  lemma ExactOneShare<A>(w: World<A>, a: A, id: ProcessingId, res: Resolution, profile: ProfileId)
    requires LiveInv(w) && NoneElsewhere(w) && a in w.b.cards && id !in w.granted
    ensures NoneElsewhere(World(w.b.Share([a], id, res), w.granted + {id}, w.live[id := profile]))
  {
  }

  lemma ExactNewCard<A>(w: World<A>, a: A, pos: nat, idx: nat, id: ProcessingId, res: Resolution, profile: ProfileId)
    requires LiveInv(w) && NoneElsewhere(w) && a !in w.b.cards && id !in w.granted && pos <= |w.b.Range(profile)|
    ensures NoneElsewhere(World(w.b.NewCard(a, pos, idx, id, res, profile), w.granted + {id}, w.live[id := profile]))
  {
  }

  lemma ExactRelease<A>(w: World<A>, id: ProcessingId)
    requires LiveInv(w) && NoneElsewhere(w) && id in w.live
    ensures NoneElsewhere(World(w.b.Release(id), w.granted, w.live - {id}))
  {
    var procs := w.b.cards[w.b.byProcessing[id]].processings;
    assert (procs - {id}).Keys == procs.Keys - {id};
  }

  lemma {:induction false} ExactStep<A>(max: int, w: World<A>, e: Event<A>)
    requires Inv(max, w) && Legal(w, e) && NoneElsewhere(w)
    ensures NoneElsewhere(Apply(max, w, e)) <==> OneWithRoom(max, w.b, e)
  {
    if e.Return? {
      if e.id in w.live {
        ExactRelease(w, e.id);
      } else {
        assert w.live - {e.id} == w.live;
      }
    } else if w.b.WithRoom(max, w.b.Range(e.profile)) != [] {
      ExactShare(max, w, e);
    } else if e.next.Some? {
      ExactNewCard(w, e.address, e.pos, e.next.value, e.id, e.res, e.profile);
    }
  }

  ghost predicate ExactAt<A>(max: int, es: seq<Event<A>>, k: nat) {
    k <= |es| && Exact(After(max, es[..k]))
  }

  ghost predicate OneWithRoomAt<A>(max: int, es: seq<Event<A>>, k: nat) {
    k < |es| && OneWithRoom(max, After(max, es[..k]).b, es[k])
  }

  lemma {:induction false} ExactNext<A>(max: int, es: seq<Event<A>>, k: nat)
    requires LegalRun(max, es) && k < |es| && ExactAt(max, es, k)
    ensures ExactAt(max, es, k + 1) <==> OneWithRoomAt(max, es, k)
  {
    LegalPrefix(max, es, k);
    LegalPrefix(max, es, k + 1);
    InvHolds(max, es[..k]);
    InvHolds(max, es[..k + 1]);
    AfterStep(max, es, k);
    ExactStep(max, After(max, es[..k]), es[k]);
  }

  /** A run keeps the allocation exact throughout if and only if no grant met two cards with room. */
  lemma {:induction false} ExactAllocation<A>(max: int, es: seq<Event<A>>)
    requires LegalRun(max, es)
    ensures (forall k: nat :: k <= |es| ==> ExactAt(max, es, k)) <==> (forall k: nat :: k < |es| ==> OneWithRoomAt(max, es, k))
  {
    var exact := (k: nat) => ExactAt(max, es, k);
    var one := (k: nat) => OneWithRoomAt(max, es, k);
    forall k: nat | k < |es| && exact(k) ensures exact(k + 1) <==> one(k) {
      ExactNext(max, es, k);
    }
    assert After(max, es[..0]) == Initial();
    HoldsThroughout(exact, one, |es|);
    assert forall k: nat :: exact(k) <==> ExactAt(max, es, k);
    assert forall k: nat :: one(k) <==> OneWithRoomAt(max, es, k);
  }

  /** Every undeleted card can still be found through its profile. */
  ghost predicate Indexed<A>(b: State<A>) {
    forall a :: a in b.cards ==> a in b.Range(b.cards[a].profile)
  }

  /** If the return deletes its card, that card is the only one of its profile. */
  ghost predicate DeletesAlone<A>(b: State<A>, e: Event<A>) {
    e.Return? && e.id in b.byProcessing && b.byProcessing[e.id] in b.cards ==>
      var a := b.byProcessing[e.id];
      b.cards[a].processings.Keys == {e.id} ==> forall c :: c in b.cards && b.cards[c].profile == b.cards[a].profile ==> c == a
  }

  lemma IndexedRelease<A>(b: State<A>, id: ProcessingId)
    requires IndexInv(b) && Indexed(b) && id in b.byProcessing && b.byProcessing[id] in b.cards
    requires id in b.cards[b.byProcessing[id]].processings
    ensures Indexed(b.Release(id)) <==> DeletesAlone(b, Return(id))
  {
    var a := b.byProcessing[id];
    var procs := b.cards[a].processings;
    assert (procs - {id}).Keys == procs.Keys - {id};
    if procs.Keys == {id} {
      assert procs - {id} == map[];
      var b' := b.Release(id);
      assert b'.Range(b.cards[a].profile) == [];
      if c :| c in b.cards && b.cards[c].profile == b.cards[a].profile && c != a {
        assert c in b'.cards && c !in b'.Range(b'.cards[c].profile);
      }
    } else {
      assert procs.Keys - {id} != {} by {
        assert procs.Keys - {id} + {id} == procs.Keys;
      }
    }
  }

  lemma IndexedShare<A>(b: State<A>, room: seq<A>, id: ProcessingId, res: Resolution)
    requires Indexed(b) && room != []
    ensures Indexed(b.Share(room, id, res))
  {
  }

  lemma IndexedNewCard<A>(b: State<A>, a: A, pos: nat, idx: nat, id: ProcessingId, res: Resolution, profile: ProfileId)
    requires Indexed(b) && a !in b.cards && pos <= |b.Range(profile)|
    ensures Indexed(b.NewCard(a, pos, idx, id, res, profile))
  {
  }

  lemma {:induction false} IndexedStep<A>(max: int, es: seq<Event<A>>, k: nat)
    requires LegalRun(max, es) && k < |es| && Indexed(After(max, es[..k]).b)
    ensures Indexed(After(max, es[..k + 1]).b) <==> DeletesAlone(After(max, es[..k]).b, es[k])
  {
    LegalPrefix(max, es, k);
    InvHolds(max, es[..k]);
    AfterStep(max, es, k);
    var w, e := After(max, es[..k]), es[k];
    if e.Return? {
      if e.id in w.live {
        IndexedRelease(w.b, e.id);
      }
    } else if w.b.WithRoom(max, w.b.Range(e.profile)) != [] {
      IndexedShare(w.b, w.b.WithRoom(max, w.b.Range(e.profile)), e.id, e.res);
    } else if e.next.Some? {
      IndexedNewCard(w.b, e.address, e.pos, e.next.value, e.id, e.res, e.profile);
    }
  }

  ghost predicate IndexedAt<A>(max: int, es: seq<Event<A>>, k: nat) {
    k <= |es| && Indexed(After(max, es[..k]).b)
  }

  ghost predicate DeletesAloneAt<A>(max: int, es: seq<Event<A>>, k: nat) {
    k < |es| && DeletesAlone(After(max, es[..k]).b, es[k])
  }

  /** Every card stays findable throughout a run if and only if no return deletes a card that has a
      sibling of its profile: erasing by key drops the siblings too. */
  lemma {:induction false} CardsStayIndexed<A>(max: int, es: seq<Event<A>>)
    requires LegalRun(max, es)
    ensures (forall k: nat :: k <= |es| ==> IndexedAt(max, es, k)) <==> (forall k: nat :: k < |es| ==> DeletesAloneAt(max, es, k))
  {
    var indexed := (k: nat) => IndexedAt(max, es, k);
    var alone := (k: nat) => DeletesAloneAt(max, es, k);
    forall k: nat | k < |es| && indexed(k) ensures indexed(k + 1) <==> alone(k) {
      IndexedStep(max, es, k);
    }
    assert After(max, es[..0]) == Initial();
    HoldsThroughout(indexed, alone, |es|);
    assert forall k: nat :: indexed(k) <==> IndexedAt(max, es, k);
    assert forall k: nat :: alone(k) <==> DeletesAloneAt(max, es, k);
  }

  /** While every card is findable, the monitor is asked for another one only when all are full. */
  lemma NewCardOnlyWhenFull<A>(max: int, w: World<A>, e: Event<A>)
    requires Inv(max, w) && Legal(w, e) && e.Grant? && Indexed(w.b)
    requires Apply(max, w, e).b.cards.Keys != w.b.cards.Keys
    ensures forall a :: a in w.b.cards && w.b.cards[a].profile == e.profile ==> |w.b.cards[a].processings| >= max
  {
    WithRoomMembers(w.b, max, w.b.Range(e.profile));
  }

  // What is answered and what the cards are told.

  /** The resolution each id was granted with. */
  function Resolutions<A(==)>(max: int, es: seq<Event<A>>): map<ProcessingId, Resolution> {
    if es == [] then map[]
    else
      var n := |es| - 1;
      var before := Resolutions(max, es[..n]);
      if es[n].Grant? && es[n].id !in After(max, es[..n]).granted && es[n].id in After(max, es).granted
      then before[es[n].id := es[n].res]
      else before
  }

  /** Every card holds its processings with the resolutions they were granted with. */
  ghost predicate ToldResolutions<A>(b: State<A>, granted: map<ProcessingId, Resolution>) {
    forall a, id :: a in b.cards && id in b.cards[a].processings ==>
      id in granted && b.cards[a].processings[id] == granted[id]
  }

  lemma ToldShare<A>(b: State<A>, room: seq<A>, id: ProcessingId, res: Resolution, granted: map<ProcessingId, Resolution>)
    requires room != [] && id !in granted && ToldResolutions(b, granted)
    ensures ToldResolutions(b.Share(room, id, res), granted[id := res])
  {
    assert forall a :: a in b.cards ==> id !in b.cards[a].processings;
  }

  lemma ToldNewCard<A>(b: State<A>, a: A, pos: nat, idx: nat, id: ProcessingId, res: Resolution, profile: ProfileId,
                       granted: map<ProcessingId, Resolution>)
    requires pos <= |b.Range(profile)| && id !in granted && ToldResolutions(b, granted)
    ensures ToldResolutions(b.NewCard(a, pos, idx, id, res, profile), granted[id := res])
  {
  }

  lemma ToldRelease<A>(b: State<A>, id: ProcessingId, granted: map<ProcessingId, Resolution>)
    requires ToldResolutions(b, granted)
    ensures ToldResolutions(b.Release(id), granted)
  {
  }

  lemma ToldStep<A>(max: int, w: World<A>, e: Event<A>, granted: map<ProcessingId, Resolution>)
    requires Legal(w, e) && granted.Keys == w.granted && ToldResolutions(w.b, granted)
    ensures var w' := Apply(max, w, e);
      var granted' := if e.Grant? && e.id !in w.granted && e.id in w'.granted then granted[e.id := e.res] else granted;
      granted'.Keys == w'.granted && ToldResolutions(w'.b, granted')
  {
    hide ToldResolutions;
    if e.Return? {
      ToldRelease(w.b, e.id, granted);
    } else {
      var room := w.b.WithRoom(max, w.b.Range(e.profile));
      if room != [] {
        ToldShare(w.b, room, e.id, e.res, granted);
      } else if e.next.Some? {
        ToldNewCard(w.b, e.address, e.pos, e.next.value, e.id, e.res, e.profile, granted);
      }
    }
  }

  /** Over every run each card holds its processings with the resolutions they were granted with. */
  lemma {:induction false} ResolutionsKept<A>(max: int, es: seq<Event<A>>)
    requires LegalRun(max, es)
    ensures Resolutions(max, es).Keys == After(max, es).granted && ToldResolutions(After(max, es).b, Resolutions(max, es))
  {
    if es != [] {
      var n := |es| - 1;
      LegalPrefix(max, es, n);
      ResolutionsKept(max, es[..n]);
      assert Legal(After(max, es[..n]), es[n]);
      hide Apply, Legal, LegalRun, ToldResolutions;
      ToldStep(max, After(max, es[..n]), es[n], Resolutions(max, es[..n]));
    }
  }

  /** The index a grant answers for shared cards is that of the last of them, an undeleted card of the
      profile that now holds the id with its resolution. */
  lemma SharedAnswer<A>(b: State<A>, max: int, id: ProcessingId, res: Resolution, profile: ProfileId)
    requires IndexInv(b) && b.WithRoom(max, b.Range(profile)) != []
    requires forall a :: a in b.cards ==> id !in b.cards[a].processings
    ensures var room := b.WithRoom(max, b.Range(profile)); var last := room[|room| - 1]; var b' := b.Share(room, id, res);
      && last in b'.cards && b'.cards[last].profile == profile && b'.cards[last].idx == b.IdxOf(last)
      && id in b'.cards[last].processings && b'.cards[last].processings[id] == res
  {
    WithRoomMembers(b, max, b.Range(profile));
    var room := b.WithRoom(max, b.Range(profile));
    assert room[|room| - 1] in room;
  }
}
