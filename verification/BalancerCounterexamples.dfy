/** Runs that show the exceptions of the balancer can be reached. */
module BalancerCounterexamples {
  import opened Common
  import opened BalancerModel
  import opened BalancerRuns

  lemma {:induction false} Extended<A>(max: int, es: seq<Event<A>>, w: World<A>, e: Event<A>)
    requires LegalRun(max, es) && After(max, es) == w && Legal(w, e)
    ensures LegalRun(max, es + [e]) && After(max, es + [e]) == Apply(max, w, e)
  {
    hide Apply, Legal;
    var es' := es + [e];
    assert es'[..|es|] == es;
    forall k | 0 <= k < |es| ensures es'[..k] == es[..k] {}
  }

  const RES := Resolution(1920, 1080)

  /** Profile 0 on the card of the given index and address. */
  function GrantOn(id: ProcessingId, idx: nat): Event<nat> {
    Grant(id, RES, 0, Some(idx), idx, 0)
  }

  function CardOf(idx: nat, processings: map<ProcessingId, Resolution>): Card {
    Card(idx, 0, processings)
  }

  lemma RoomOfOne(b: State<nat>, max: int, a: nat)
    ensures b.WithRoom(max, [a]) == if a in b.cards && |b.cards[a].processings| < max then [a] else []
  {
    assert [a][..0] == [] && b.WithRoom(max, []) == [];
  }

  lemma RoomOfTwo(b: State<nat>, max: int, a: nat, c: nat)
    ensures b.WithRoom(max, [a, c]) == b.WithRoom(max, [a]) + b.WithRoom(max, [c])
  {
    RoomOfOne(b, max, a);
    RoomOfOne(b, max, c);
    assert [a, c][..1] == [a];
  }

  // The first card, for any limit.

  function OneCard(): World<nat> {
    World(State(map[0 := CardOf(0, map["a" := RES])], map[0 := [0]], map["a" := 0], multiset{0}), {"a"}, map["a" := 0])
  }

  lemma FirstCard(max: int)
    ensures LegalRun(max, [GrantOn("a", 0)]) && After(max, [GrantOn("a", 0)]) == OneCard()
  {
    hide *;
    FirstGrant(max);
    EmptyRun(max);
    Extended(max, [], Initial<nat>(), GrantOn("a", 0));
    assert [] + [GrantOn("a", 0)] == [GrantOn("a", 0)];
  }

  lemma EmptyRun(max: int)
    ensures LegalRun<nat>(max, []) && After<nat>(max, []) == Initial<nat>()
  {
  }

  lemma FirstGrant(max: int)
    ensures Legal(Initial<nat>(), GrantOn("a", 0)) && Apply(max, Initial<nat>(), GrantOn("a", 0)) == OneCard()
  {
    var w0 := Initial<nat>();
    assert w0.b.Range(0) == [] && w0.b.WithRoom(max, []) == [];
    assert [][..0] + [0] + [][0..] == [0];
    assert multiset{} + multiset{0} == multiset{0};
  }

  // A card that its sibling's release makes unfindable: limit one.

  function TwoCards(procs: map<ProcessingId, Resolution>, byProcessing: map<ProcessingId, nat>,
                    granted: set<ProcessingId>, live: map<ProcessingId, ProfileId>, last: ProcessingId): World<nat>
  {
    World(State(map[0 := CardOf(0, procs), 1 := CardOf(1, map[last := RES])], map[0 := [1, 0]], byProcessing, multiset{0, 1}), granted, live)
  }

  lemma SecondCard(max: int, procs: map<ProcessingId, Resolution>, byProcessing: map<ProcessingId, nat>,
                   granted: set<ProcessingId>, live: map<ProcessingId, ProfileId>, last: ProcessingId)
    requires |procs| >= max && last !in byProcessing
    ensures Apply(max, World(State(map[0 := CardOf(0, procs)], map[0 := [0]], byProcessing, multiset{0}), granted, live), GrantOn(last, 1))
      == TwoCards(procs, byProcessing[last := 1], granted + {last}, live[last := 0], last)
  {
    var w := World(State(map[0 := CardOf(0, procs)], map[0 := [0]], byProcessing, multiset{0}), granted, live);
    RoomOfOne(w.b, max, 0);
    assert [0][..0] + [1] + [0][0..] == [1, 0];
    assert multiset{0} + multiset{1} == multiset{0, 1};
  }

  /** Limit one, two cards of one profile: returning the first leaves the second out of the index. */
  lemma SiblingBecomesUnfindable()
    ensures var es := [GrantOn("a", 0)] + [GrantOn("b", 1)] + [Return("a")];
      LegalRun(1, es) && !Indexed(After(1, es).b)
  {
    hide *;
    FirstCard(1);
    SecondAlone();
    Extended(1, [GrantOn("a", 0)], OneCard(), GrantOn("b", 1));
    ReleaseFirst();
    Extended(1, [GrantOn("a", 0)] + [GrantOn("b", 1)], AloneWorld(), Return("a"));
  }

  function AloneWorld(): World<nat> {
    TwoCards(map["a" := RES], map["a" := 0, "b" := 1], {"a"} + {"b"}, map["a" := 0, "b" := 0], "b")
  }

  lemma SecondAlone()
    ensures Legal(OneCard(), GrantOn("b", 1)) && Apply(1, OneCard(), GrantOn("b", 1)) == AloneWorld()
  {
    assert |map["a" := RES]| == 1;
    SecondCard(1, map["a" := RES], map["a" := 0], {"a"}, map["a" := 0], "b");
  }

  lemma ReleaseFirst()
    ensures Legal(AloneWorld(), Return("a")) && !Indexed(Apply(1, AloneWorld(), Return("a")).b)
  {
    var b := AloneWorld().b;
    assert b.cards[0].processings - {"a"} == map[];
    assert 1 in b.Release("a").cards && b.Release("a").Range(0) == [];
  }

  // A processing on two cards: limit two.

  lemma FullCard()
    ensures var es := [GrantOn("a", 0)] + [GrantOn("b", 1)];
      && LegalRun(2, es)
      && After(2, es) == World(State(map[0 := CardOf(0, map["a" := RES, "b" := RES])], map[0 := [0]], map["a" := 0, "b" := 0], multiset{0}),
                               {"a"} + {"b"}, map["a" := 0, "b" := 0])
  {
    FirstCard(2);
    var w := OneCard();
    assert |map["a" := RES]| == 1;
    RoomOfOne(w.b, 2, 0);
    Extended(2, [GrantOn("a", 0)], w, GrantOn("b", 1));
    assert w.b.Share([0], "b", RES).cards == map[0 := CardOf(0, map["a" := RES, "b" := RES])];
  }

  function ThreeGrants(): seq<Event<nat>> {
    [GrantOn("a", 0)] + [GrantOn("b", 1)] + [GrantOn("c", 1)]
  }

  function GrantedWorld(): World<nat> {
    TwoCards(map["a" := RES, "b" := RES], map["a" := 0, "b" := 0, "c" := 1], {"a"} + {"b"} + {"c"}, map["a" := 0, "b" := 0, "c" := 0], "c")
  }

  lemma ThirdOnSecondCard()
    ensures LegalRun(2, ThreeGrants())
    ensures After(2, ThreeGrants()) == GrantedWorld()
  {
    FullCard();
    var procs := map["a" := RES, "b" := RES];
    assert procs.Keys == {"a", "b"} && |procs| == |procs.Keys|;
    SecondCard(2, procs, map["a" := 0, "b" := 0], {"a"} + {"b"}, map["a" := 0, "b" := 0], "c");
    Extended(2, [GrantOn("a", 0)] + [GrantOn("b", 1)], After(2, [GrantOn("a", 0)] + [GrantOn("b", 1)]), GrantOn("c", 1));
  }

  function ReturnedWorld(): World<nat> {
    TwoCards(map["b" := RES], map["a" := 0, "b" := 0, "c" := 1], {"a"} + {"b"} + {"c"}, map["b" := 0, "c" := 0], "c")
  }

  lemma ReturnFirst()
    ensures Legal(GrantedWorld(), Return("a")) && Apply(2, GrantedWorld(), Return("a")) == ReturnedWorld()
  {
    assert GrantedWorld().b.cards[0].processings - {"a"} == map["b" := RES];
    assert GrantedWorld().live - {"a"} == map["b" := 0, "c" := 0];
    assert map["b" := RES] != map[] by {
      assert "b" in map["b" := RES];
    }
    assert GrantedWorld().b.Release("a").cards == ReturnedWorld().b.cards;
  }

  lemma FirstReturned()
    ensures LegalRun(2, ThreeGrants() + [Return("a")]) && After(2, ThreeGrants() + [Return("a")]) == ReturnedWorld()
  {
    hide *;
    ThirdOnSecondCard();
    ReturnFirst();
    Extended(2, ThreeGrants(), GrantedWorld(), Return("a"));
  }

  lemma BothHaveRoom()
    ensures ReturnedWorld().b.WithRoom(2, [1, 0]) == [1, 0]
  {
    assert |map["b" := RES]| == 1 && |map["c" := RES]| == 1;
    RoomOfTwo(ReturnedWorld().b, 2, 1, 0);
    RoomOfOne(ReturnedWorld().b, 2, 1);
    RoomOfOne(ReturnedWorld().b, 2, 0);
  }

  /** Limit two: after the grants of a, b and c the return of a leaves two cards with room, and the next
      grant joins both. */
  lemma GrantJoinsTwoCards()
    ensures var es := ThreeGrants() + [Return("a")]; var e := GrantOn("d", 2);
      && LegalRun(2, es) && Legal(After(2, es), e) && !OneWithRoom(2, After(2, es).b, e)
      && !Exact(Apply(2, After(2, es), e))
  {
    hide After, LegalRun, Apply, Inv;
    FirstReturned();
    BothHaveRoom();
    InvHolds(2, ThreeGrants() + [Return("a")]);
    assert Legal(ReturnedWorld(), GrantOn("d", 2));
    JoinsBoth(ReturnedWorld(), GrantOn("d", 2));
  }

  lemma JoinsBoth(w: World<nat>, e: Event<nat>)
    requires Inv(2, w) && Legal(w, e) && e.Grant? && w.b.WithRoom(2, w.b.Range(e.profile)) == [1, 0]
    ensures !Exact(Apply(2, w, e))
  {
    WithRoomMembers(w.b, 2, w.b.Range(e.profile));
    assert 0 in [1, 0] && 1 in [1, 0];
    var w' := Apply(2, w, e);
    assert e.id in w'.b.cards[0].processings && w'.b.byProcessing[e.id] == 1;
  }
}
