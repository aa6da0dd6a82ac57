/** The balancer over heap cards, as the analytics manager calls it. */
module Balancer {
  import opened Common
  import opened BalancerModel

  class Videocard {
    const idx: nat
    const profileId: ProfileId
    var processingsWithResolution: map<ProcessingId, Resolution>

    constructor (idx: nat, profileId: ProfileId, id: ProcessingId, res: Resolution)
      ensures this.idx == idx && this.profileId == profileId
      ensures processingsWithResolution == map[id := res]
    {
      this.idx := idx;
      this.profileId := profileId;
      processingsWithResolution := map[id := res];
    }

    ghost function Value(): Card
      reads this
    {
      Card(idx, profileId, processingsWithResolution)
    }
  }

  class VideocardBalancer {
    const maxProcessingsPerCard: int
    var videocardsByProfileId: map<ProfileId, seq<Videocard>>
    var videocardsByProcessingId: map<ProcessingId, Videocard>
    ghost var undeleted: set<Videocard>
    ghost var held: multiset<nat>

    ghost function Cards(): map<Videocard, Card>
      reads this, undeleted
    {
      map c | c in undeleted :: c.Value()
    }

    ghost function Model(): State<Videocard>
      reads this, undeleted
    {
      State(Cards(), videocardsByProfileId, videocardsByProcessingId, held)
    }

    ghost predicate Valid()
      reads this, undeleted
    {
      IndexInv(Model())
    }

    constructor (maxProcessingsPerCard: int)
      ensures Valid() && this.maxProcessingsPerCard == maxProcessingsPerCard
      ensures Model() == Initial<Videocard>().b
    {
      this.maxProcessingsPerCard := maxProcessingsPerCard;
      videocardsByProfileId := map[];
      videocardsByProcessingId := map[];
      undeleted := {};
      held := multiset{};
    }

    /** The last card of those that were shared serves the processing. */
    lemma LastServes(m: State<Videocard>, room: seq<Videocard>, id: ProcessingId, res: Resolution, profileId: ProfileId)
      requires IndexInv(m) && room != [] && room == m.WithRoom(maxProcessingsPerCard, m.Range(profileId))
      requires Model() == m.Share(room, id, res)
      ensures room[|room| - 1] in undeleted && Serves(room[|room| - 1], m.IdxOf(room[|room| - 1]), profileId, id)
    {
      WithRoomMembers(m, maxProcessingsPerCard, m.Range(profileId));
      var last := room[|room| - 1];
      assert last in room && last in m.cards;
      assert Model().cards[last] == last.Value();
    }

    /** The card has this index and profile, and holds the processing. */
    ghost predicate Serves(card: Videocard, idx: nat, profileId: ProfileId, id: ProcessingId)
      reads card
    {
      card.idx == idx && card.profileId == profileId && id in card.processingsWithResolution
    }

    /** `nextIdx` is the system monitor's answer, `pos` the multimap's choice among equal keys. */
    method GetVideocard(procId: ProcessingId, res: Resolution, profileId: ProfileId, nextIdx: Option<nat>, pos: nat)
      returns (videocardIdx: Option<nat>, ghost newCard: Option<Videocard>)
      requires Valid() && pos <= |Model().Range(profileId)|
      modifies this, undeleted
      ensures Valid() && fresh(undeleted - old(undeleted))
      ensures var m := old(Model());
        var room := m.WithRoom(maxProcessingsPerCard, m.Range(profileId));
        if room != [] then
          Model() == m.Share(room, procId, res) && videocardIdx == Some(m.IdxOf(room[|room| - 1]))
        else if nextIdx.None? then
          Model() == m && videocardIdx == None
        else
          && videocardIdx == nextIdx && newCard.Some? && fresh(newCard.value)
          && Model() == m.NewCard(newCard.value, pos, nextIdx.value, procId, res, profileId)
      ensures videocardIdx.Some? ==>
        exists card :: card in undeleted && Serves(card, videocardIdx.value, profileId, procId)
    {
      newCard := None;
      ghost var m := Model();
      var range := if profileId in videocardsByProfileId then videocardsByProfileId[profileId] else [];
      videocardIdx := ShareRange(range, procId, res);
      if videocardIdx.None? {
        videocardIdx := nextIdx;
        if nextIdx.Some? {
          newCard := AddCard(procId, res, profileId, nextIdx.value, pos);
          assert Model().cards[newCard.value] == newCard.value.Value();
          assert Serves(newCard.value, nextIdx.value, profileId, procId);
        }
      } else {
        ghost var room := m.WithRoom(maxProcessingsPerCard, range);
        ShareIndex(m, room, procId, res);
        LastServes(m, room, procId, res, profileId);
      }
    }

    /** The traversal of one profile's cards; without a `break` it serves all that have room. */
    method ShareRange(range: seq<Videocard>, procId: ProcessingId, res: Resolution) returns (videocardIdx: Option<nat>)
      requires Distinct(range) && forall c :: c in range ==> c in undeleted
      modifies `videocardsByProcessingId, undeleted
      ensures var m := old(Model());
        var room := m.WithRoom(maxProcessingsPerCard, range);
        && Model() == m.SharedBy(room, procId, res)
        && videocardIdx == if room == [] then None else Some(m.IdxOf(room[|room| - 1]))
    {
      ghost var m := Model();
      videocardIdx := None;
      for i := 0 to |range|
        invariant Model() == m.SharedBy(m.WithRoom(maxProcessingsPerCard, range[..i]), procId, res)
        invariant var room := m.WithRoom(maxProcessingsPerCard, range[..i]);
          videocardIdx == if room == [] then None else Some(m.IdxOf(room[|room| - 1]))
      {
        var videocard := range[i];
        VisitCard(m, maxProcessingsPerCard, range, i, procId, res);
        assert Model().cards[videocard] == videocard.Value();
        if |videocard.processingsWithResolution| < maxProcessingsPerCard {
          videocardIdx := Some(videocard.idx);
          TakeCard(videocard, procId, res);
        }
      }
      assert range[..|range|] == range;
    }

    method TakeCard(videocard: Videocard, procId: ProcessingId, res: Resolution)
      requires videocard in undeleted
      modifies `videocardsByProcessingId, videocard
      ensures Model() == old(Model()).Take(videocard, procId, res)
    {
      videocard.processingsWithResolution := Inserted(videocard.processingsWithResolution, procId, res);
      videocardsByProcessingId := Inserted(videocardsByProcessingId, procId, videocard);
    }

    method AddCard(procId: ProcessingId, res: Resolution, profileId: ProfileId, idx: nat, pos: nat)
      returns (ghost newCard: Option<Videocard>)
      requires Valid() && pos <= |Model().Range(profileId)|
      modifies this
      ensures Valid() && undeleted > old(undeleted) && fresh(undeleted - old(undeleted))
      ensures newCard.Some? && fresh(newCard.value)
      ensures Model() == old(Model()).NewCard(newCard.value, pos, idx, procId, res, profileId)
    {
      ghost var m := Model();
      var range := if profileId in videocardsByProfileId then videocardsByProfileId[profileId] else [];
      var card := new Videocard(idx, profileId, procId, res);
      undeleted := undeleted + {card};
      held := held + multiset{idx};
      videocardsByProfileId := videocardsByProfileId[profileId := range[..pos] + [card] + range[pos..]];
      videocardsByProcessingId := Inserted(videocardsByProcessingId, procId, card);
      newCard := Some(card);
      assert Cards() == m.cards[card := card.Value()];
      assert Model() == m.NewCard(card, pos, idx, procId, res, profileId);
      NewCardIndex(m, card, pos, idx, procId, res, profileId);
    }

    /** The precondition is the heap safety the code relies on; `HeapSafety` shows that callers meet it. */
    method ReturnVideocard(procId: ProcessingId)
      requires Valid() && HeapSafe(Model(), Return(procId))
      modifies this, undeleted
      ensures Valid() && undeleted <= old(undeleted)
      ensures Model() == old(Model()).Release(procId)
    {
      ReleaseIndex(Model(), procId);
      if procId in videocardsByProcessingId {
        var card := videocardsByProcessingId[procId];
        RemoveFromCard(card, procId);
        if card.processingsWithResolution == map[] {
          DeleteCard(card, procId);
        }
      }
    }

    method RemoveFromCard(card: Videocard, procId: ProcessingId)
      requires card in undeleted
      modifies card
      ensures var m := old(Model());
        Model() == m.(cards := m.cards[card := m.cards[card].(processings := m.cards[card].processings - {procId})])
    {
      card.processingsWithResolution := card.processingsWithResolution - {procId};
    }

    method DeleteCard(card: Videocard, procId: ProcessingId)
      requires card in undeleted
      modifies this
      ensures undeleted == old(undeleted) - {card}
      ensures var m := old(Model());
        Model() == State(m.cards - {card}, m.byProfile - {card.profileId}, m.byProcessing - {procId}, m.held - multiset{card.idx})
    {
      held := held - multiset{card.idx};
      videocardsByProcessingId := videocardsByProcessingId - {procId};
      videocardsByProfileId := videocardsByProfileId - {card.profileId};
      undeleted := undeleted - {card};
      assert Cards() == old(Cards()) - {card};
    }
  }
}
