/** The videocard balancer as a state machine over card addresses.

    `A` is the type of a card's address: the objects of module `Balancer` are one instance of
    it, plain numbers another. A card is in `cards` from its `new` to its `delete`. */
module BalancerModel {
  import opened Common

  type ProcessingId = string
  type ProfileId = nat

  datatype Resolution = Resolution(width: int, height: int)

  datatype Card = Card(idx: nat, profile: ProfileId, processings: map<ProcessingId, Resolution>)

  /** `held` is what the system monitor handed out and did not get back. */
  datatype State<A(==)> = State(
    cards: map<A, Card>,
    byProfile: map<ProfileId, seq<A>>,
    byProcessing: map<ProcessingId, A>,
    held: multiset<nat>)
  {
    function Range(profile: ProfileId): seq<A> {
      if profile in byProfile then byProfile[profile] else []
    }

    /** The cards among `range` that still take a processing. */
    function WithRoom(max: int, range: seq<A>): seq<A> {
      if range == [] then []
      else
        var front := WithRoom(max, range[..|range| - 1]);
        var a := range[|range| - 1];
        if a in cards && |cards[a].processings| < max then front + [a] else front
    }

    function IdxOf(a: A): nat {
      if a in cards then cards[a].idx else 0
    }

    /** One card takes the processing. */
    function Take(a: A, id: ProcessingId, res: Resolution): State<A>
      requires a in cards
    {
      this.(cards := cards[a := cards[a].(processings := Inserted(cards[a].processings, id, res))],
            byProcessing := Inserted(byProcessing, id, a))
    }

    /** Every card with room takes the processing; the index keeps the first of them. */
    function Share(room: seq<A>, id: ProcessingId, res: Resolution): State<A>
      requires room != []
    {
      this.(cards := map a | a in cards ::
              if a in room then cards[a].(processings := Inserted(cards[a].processings, id, res)) else cards[a],
            byProcessing := Inserted(byProcessing, id, room[0]))
    }

    /** A new card; the order of equal keys in the profile index is unspecified, hence `pos`. */
    function NewCard(a: A, pos: nat, idx: nat, id: ProcessingId, res: Resolution, profile: ProfileId): State<A>
      requires pos <= |Range(profile)|
    {
      var range := Range(profile);
      State(cards[a := Card(idx, profile, map[id := res])],
            byProfile[profile := range[..pos] + [a] + range[pos..]],
            Inserted(byProcessing, id, a),
            held + multiset{idx})
    }

    function SharedBy(room: seq<A>, id: ProcessingId, res: Resolution): State<A> {
      if room == [] then this else Share(room, id, res)
    }

    /** A return reaches only the card the index knows; an emptied card takes its whole profile out of the index. */
    function Release(id: ProcessingId): State<A> {
      if id !in byProcessing || byProcessing[id] !in cards then this
      else
        var a := byProcessing[id];
        var card := cards[a].(processings := cards[a].processings - {id});
        if card.processings == map[] then
          State(cards - {a}, byProfile - {card.profile}, byProcessing - {id}, held - multiset{card.idx})
        else
          this.(cards := cards[a := card])
    }
  }

  datatype Event<A> =
    | Grant(id: ProcessingId, res: Resolution, profile: ProfileId, next: Option<nat>, address: A, pos: nat)
    | Return(id: ProcessingId)

  /** A balancer and what its callers did: ids ever granted, and the profile of each id not yet returned. */
  datatype World<A(==)> = World(b: State<A>, granted: set<ProcessingId>, live: map<ProcessingId, ProfileId>)

  function Initial<A>(): World<A> {
    World(State(map[], map[], map[], multiset{}), {}, map[])
  }

  function Apply<A>(max: int, w: World<A>, e: Event<A>): World<A> {
    match e
    case Grant(id, res, profile, next, a, pos) =>
      var room := w.b.WithRoom(max, w.b.Range(profile));
      if room != [] then
        World(w.b.Share(room, id, res), w.granted + {id}, w.live[id := profile])
      else if next.Some? && pos <= |w.b.Range(profile)| then
        World(w.b.NewCard(a, pos, next.value, id, res, profile), w.granted + {id}, w.live[id := profile])
      else w
    case Return(id) =>
      World(w.b.Release(id), w.granted, w.live - {id})
  }

  function After<A>(max: int, es: seq<Event<A>>): World<A> {
    if es == [] then Initial() else Apply(max, After(max, es[..|es| - 1]), es[|es| - 1])
  }

  /** Fresh ids, fresh addresses, and each granted id returned at most once. */
  ghost predicate Legal<A>(w: World<A>, e: Event<A>) {
    match e
    case Grant(id, _, profile, _, a, pos) =>
      id !in w.granted && a !in w.b.cards && pos <= |w.b.Range(profile)|
    case Return(id) => id in w.live || id !in w.granted
  }

  ghost predicate LegalRun<A>(max: int, es: seq<Event<A>>) {
    forall k :: 0 <= k < |es| ==> Legal(After(max, es[..k]), es[k])
  }

  /** The step dereferences no deleted card. */
  ghost predicate HeapSafe<A>(b: State<A>, e: Event<A>) {
    match e
    case Grant(_, _, profile, _, _, _) => forall a :: a in b.Range(profile) ==> a in b.cards
    case Return(id) => id in b.byProcessing ==> b.byProcessing[id] in b.cards
  }

  ghost function Holders<A>(b: State<A>, idx: nat): set<A> {
    set a | a in b.cards && b.cards[a].idx == idx
  }

  // The invariant, one concern a predicate.

  ghost predicate IndexInv<A>(b: State<A>) {
    forall p :: p in b.byProfile ==>
      && b.byProfile[p] != [] && Distinct(b.byProfile[p])
      && forall a :: a in b.byProfile[p] ==> a in b.cards && b.cards[a].profile == p
  }

  ghost predicate LiveInv<A>(w: World<A>) {
    && (forall id :: id in w.live ==>
          && id in w.granted && id in w.b.byProcessing
          && var a := w.b.byProcessing[id];
          && a in w.b.cards && id in w.b.cards[a].processings && w.b.cards[a].profile == w.live[id])
    && (forall id :: id in w.b.byProcessing ==> id in w.granted)
    && (forall a :: a in w.b.cards ==> w.b.cards[a].processings.Keys <= w.granted)
  }

  /** Every card holds one processing at least, and no more than configured, or one. */
  ghost predicate CapacityInv<A>(max: int, b: State<A>) {
    forall a :: a in b.cards ==> 1 <= |b.cards[a].processings| <= MaxInt(1, max)
  }

  /** The monitor handed out each index as often as there are undeleted cards with it. */
  ghost predicate HeldInv<A>(b: State<A>) {
    forall idx: nat :: b.held[idx] == |Holders(b, idx)|
  }

  ghost predicate Inv<A>(max: int, w: World<A>) {
    IndexInv(w.b) && LiveInv(w) && CapacityInv(max, w.b) && HeldInv(w.b)
  }

  lemma {:induction false} WithRoomMembers<A>(b: State<A>, max: int, range: seq<A>)
    ensures forall a :: a in b.WithRoom(max, range) ==> a in range && a in b.cards && |b.cards[a].processings| < max
    ensures forall a :: a in range && a in b.cards && |b.cards[a].processings| < max ==> a in b.WithRoom(max, range)
    ensures Distinct(range) ==> Distinct(b.WithRoom(max, range))
  {
    if range != [] {
      var n := |range| - 1;
      WithRoomMembers(b, max, range[..n]);
      assert range == range[..n] + [range[n]];
    }
  }

  lemma TakeExtendsShare<A>(b: State<A>, room: seq<A>, a: A, id: ProcessingId, res: Resolution)
    requires a in b.cards && a !in room
    ensures b.SharedBy(room, id, res).Take(a, id, res) == b.SharedBy(room + [a], id, res)
  {
    var one := b.SharedBy(room, id, res).Take(a, id, res);
    var all := b.SharedBy(room + [a], id, res);
    assert one.cards == all.cards;
    assert one.byProcessing == all.byProcessing;
  }

  /** The visit of position `i`: its card is still as it was, and joins the cards with room or does not. */
  lemma VisitCard<A>(b: State<A>, max: int, range: seq<A>, i: nat, id: ProcessingId, res: Resolution)
    requires i < |range| && Distinct(range) && range[i] in b.cards
    ensures var before := b.WithRoom(max, range[..i]);
      var a := range[i];
      && a in b.SharedBy(before, id, res).cards && b.SharedBy(before, id, res).cards[a] == b.cards[a]
      && (|b.cards[a].processings| >= max ==> b.WithRoom(max, range[..i + 1]) == before)
      && (|b.cards[a].processings| < max ==>
            && b.WithRoom(max, range[..i + 1]) == before + [a]
            && b.SharedBy(before, id, res).Take(a, id, res) == b.SharedBy(before + [a], id, res))
  {
    assert range[..i + 1][..i] == range[..i];
    WithRoomMembers(b, max, range[..i]);
    TakeExtendsShare(b, b.WithRoom(max, range[..i]), range[i], id, res);
  }

  lemma {:induction false} ShareInv<A>(max: int, w: World<A>, e: Event<A>)
    requires Inv(max, w) && Legal(w, e) && e.Grant?
    requires w.b.WithRoom(max, w.b.Range(e.profile)) != []
    ensures Inv(max, Apply(max, w, e))
  {
    var room := w.b.WithRoom(max, w.b.Range(e.profile));
    WithRoomMembers(w.b, max, w.b.Range(e.profile));
    assert room[0] in w.b.Range(e.profile);
    assert w.b.Range(e.profile) == w.b.byProfile[e.profile];
    ShareLive(w, max, room, e.id, e.res, e.profile);
    ShareCapacity(w.b, max, room, e.id, e.res);
    ShareHeld(w.b, room, e.id, e.res);
    var b' := w.b.Share(room, e.id, e.res);
    assert b'.byProfile == w.b.byProfile && b'.cards.Keys == w.b.cards.Keys;
    assert forall a :: a in w.b.cards ==> b'.cards[a].profile == w.b.cards[a].profile;
  }

  lemma ShareIndex<A>(b: State<A>, room: seq<A>, id: ProcessingId, res: Resolution)
    requires IndexInv(b) && room != []
    ensures IndexInv(b.Share(room, id, res))
  {
  }

  lemma ShareLive<A>(w: World<A>, max: int, room: seq<A>, id: ProcessingId, res: Resolution, profile: ProfileId)
    requires LiveInv(w) && room != [] && id !in w.granted
    requires forall a :: a in room ==> a in w.b.cards && w.b.cards[a].profile == profile
    ensures LiveInv(World(w.b.Share(room, id, res), w.granted + {id}, w.live[id := profile]))
  {
    var b' := w.b.Share(room, id, res);
    assert room[0] in room;
    forall a | a in b'.cards ensures b'.cards[a].processings.Keys <= w.granted + {id} {
      assert a in w.b.cards;
    }
  }

  lemma ShareCapacity<A>(b: State<A>, max: int, room: seq<A>, id: ProcessingId, res: Resolution)
    requires CapacityInv(max, b) && room != []
    requires forall a :: a in room ==> a in b.cards && |b.cards[a].processings| < max
    ensures CapacityInv(max, b.Share(room, id, res))
  {
  }

  lemma ShareHeld<A>(b: State<A>, room: seq<A>, id: ProcessingId, res: Resolution)
    requires HeldInv(b) && room != []
    ensures HeldInv(b.Share(room, id, res))
  {
    forall idx: nat ensures Holders(b.Share(room, id, res), idx) == Holders(b, idx) {}
  }

  lemma NewCardInv<A>(max: int, w: World<A>, e: Event<A>)
    requires Inv(max, w) && Legal(w, e) && e.Grant? && e.next.Some?
    requires w.b.WithRoom(max, w.b.Range(e.profile)) == []
    ensures Inv(max, Apply(max, w, e))
  {
    NewCardIndex(w.b, e.address, e.pos, e.next.value, e.id, e.res, e.profile);
    NewCardLive(w, e.address, e.pos, e.next.value, e.id, e.res, e.profile);
    NewCardHeld(w.b, e.address, e.pos, e.next.value, e.id, e.res, e.profile);
    assert |map[e.id := e.res]| == 1;
  }

  lemma NewCardIndex<A>(b: State<A>, a: A, pos: nat, idx: nat, id: ProcessingId, res: Resolution, profile: ProfileId)
    requires IndexInv(b) && a !in b.cards && pos <= |b.Range(profile)|
    ensures IndexInv(b.NewCard(a, pos, idx, id, res, profile))
  {
    var b' := b.NewCard(a, pos, idx, id, res, profile);
    var range := b.Range(profile);
    assert Distinct(range) && a !in range;
    assert b'.byProfile[profile] == range[..pos] + [a] + range[pos..];
    forall c | c in b'.byProfile[profile] ensures c in range || c == a {}
  }

  lemma NewCardLive<A>(w: World<A>, a: A, pos: nat, idx: nat, id: ProcessingId, res: Resolution, profile: ProfileId)
    requires LiveInv(w) && id !in w.granted && a !in w.b.cards && pos <= |w.b.Range(profile)|
    ensures LiveInv(World(w.b.NewCard(a, pos, idx, id, res, profile), w.granted + {id}, w.live[id := profile]))
  {
  }

  lemma AddedHolder<A>(b: State<A>, b': State<A>, a: A, idx: nat)
    requires a !in b.cards && a in b'.cards && b'.cards == b.cards[a := b'.cards[a]]
    ensures |Holders(b', idx)| == |Holders(b, idx)| + if b'.cards[a].idx == idx then 1 else 0
  {
    if b'.cards[a].idx == idx {
      assert Holders(b', idx) == Holders(b, idx) + {a};
    } else {
      assert Holders(b', idx) == Holders(b, idx);
    }
  }

  lemma NewCardHeld<A>(b: State<A>, a: A, pos: nat, idx: nat, id: ProcessingId, res: Resolution, profile: ProfileId)
    requires HeldInv(b) && a !in b.cards && pos <= |b.Range(profile)|
    ensures HeldInv(b.NewCard(a, pos, idx, id, res, profile))
  {
    var b' := b.NewCard(a, pos, idx, id, res, profile);
    forall i: nat ensures b'.held[i] == |Holders(b', i)| {
      AddedHolder(b, b', a, i);
    }
  }

  lemma {:induction false} ReturnInv<A>(max: int, w: World<A>, e: Event<A>)
    requires Inv(max, w) && e.Return? && e.id in w.live
    ensures Inv(max, Apply(max, w, e))
  {
    ReleaseIndex(w.b, e.id);
    ReleaseLive(w, e.id);
    ReleaseCapacity(w.b, max, e.id);
    ReleaseHeld(w.b, e.id);
  }

  lemma ReleaseIndex<A>(b: State<A>, id: ProcessingId)
    requires IndexInv(b)
    ensures IndexInv(b.Release(id))
  {
  }

  lemma ReleaseLive<A>(w: World<A>, id: ProcessingId)
    requires LiveInv(w) && id in w.live
    ensures LiveInv(World(w.b.Release(id), w.granted, w.live - {id}))
  {
    var a := w.b.byProcessing[id];
    var rest := w.b.cards[a].processings - {id};
    assert rest.Keys == w.b.cards[a].processings.Keys - {id};
    assert forall other :: other in w.live && other != id && w.b.byProcessing[other] == a ==> other in rest;
  }

  lemma ReleaseCapacity<A>(b: State<A>, max: int, id: ProcessingId)
    requires CapacityInv(max, b)
    ensures CapacityInv(max, b.Release(id))
  {
  }

  lemma ReleaseHeld<A>(b: State<A>, id: ProcessingId)
    requires HeldInv(b)
    ensures HeldInv(b.Release(id))
  {
    var b' := b.Release(id);
    if id in b.byProcessing && b.byProcessing[id] in b.cards {
      var a := b.byProcessing[id];
      forall i: nat ensures b'.held[i] == |Holders(b', i)| {
        if a in b'.cards || i != b.cards[a].idx {
          assert Holders(b', i) == Holders(b, i);
        } else {
          assert Holders(b', i) == Holders(b, i) - {a};
        }
      }
    }
  }

  lemma {:induction false} StepInv<A>(max: int, w: World<A>, e: Event<A>)
    requires Inv(max, w) && Legal(w, e)
    ensures Inv(max, Apply(max, w, e))
    ensures HeapSafe(w.b, e)
  {
    if e.Return? {
      if e.id in w.live {
        ReturnInv(max, w, e);
      } else {
        assert w.live - {e.id} == w.live;
      }
    } else if w.b.WithRoom(max, w.b.Range(e.profile)) != [] {
      ShareInv(max, w, e);
    } else if e.next.Some? {
      NewCardInv(max, w, e);
    }
  }
}
