/** The recorder's vector and map: the same archivers under the same ids, up to the pruned ones. */
module RecorderIndexes {
  import opened Common
  import opened RecorderModel
  import opened RecorderRotation

  /** Each vector entry is the map's archiver of its id; what the map has beyond that was pruned. */
  ghost predicate IndexOk(ix: Index, pruned: set<ArchivingId>) {
    && DistinctIds(ix.creators)
    && (forall a :: a in ix.creators ==> a.id in ix.byId && ix.byId[a.id] == a && a.id !in pruned)
    && (forall id :: id in ix.byId ==> ix.byId[id].id == id && (ix.byId[id] in ix.creators || id in pruned))
    && pruned <= ix.byId.Keys
  }

  lemma IndexKeys(ix: Index, pruned: set<ArchivingId>)
    requires IndexOk(ix, pruned)
    ensures ix.byId.Keys == Ids(ix.creators) + pruned && Ids(ix.creators) !! pruned
  {
  }

  lemma IndexAdd(ix: Index, pruned: set<ArchivingId>, a: Archiver)
    requires IndexOk(ix, pruned) && a.id !in ix.byId
    ensures IndexOk(ix.Add(a), pruned)
  {
  }

  lemma IndexDrop(ix: Index, pruned: set<ArchivingId>, p: Archiver -> bool)
    requires IndexOk(ix, pruned)
    ensures IndexOk(ix.Drop(p), pruned)
  {
    SplitMembers(ix.creators, p);
    SplitDistinct(ix.creators, p);
    assert forall a :: a in Without(ix.creators, p) ==> a.id in Ids(Without(ix.creators, p));
    assert forall a :: a in Taken(ix.creators, p) ==> a.id in Ids(Taken(ix.creators, p));
  }

  lemma TakenVisit(list: seq<Archiver>, p: Archiver -> bool, i: nat)
    requires i < |list|
    ensures p(list[i]) ==> Taken(list[i..], p) == [list[i]] + Taken(list[i + 1..], p)
    ensures !p(list[i]) ==> Taken(list[i..], p) == Taken(list[i + 1..], p)
    ensures Erased(list, i)[..i] == list[..i] && Erased(list, i)[i..] == list[i + 1..]
  {
  }

  /** The loop that erases while it iterates drops exactly the archivers of the condition, in order. */
  lemma {:induction false} DropFromIsDrop(ix: Index, p: Archiver -> bool, i: nat)
    requires i <= |ix.creators|
    ensures ix.DropFrom(p, i) ==
      Index(ix.creators[..i] + Without(ix.creators[i..], p), ix.byId - Ids(Taken(ix.creators[i..], p)))
    decreases |ix.creators| - i
  {
    var list := ix.creators;
    if i < |list| {
      WithoutVisit(list, p, i);
      TakenVisit(list, p, i);
      var out := Taken(list[i + 1..], p);
      if p(list[i]) {
        DropFromIsDrop(ix.EraseAt(i), p, i);
        assert Ids([list[i]] + out) == {list[i].id} + Ids(out) by {
          assert forall b :: b in [list[i]] + out <==> b == list[i] || b in out;
        }
        assert ix.byId - {list[i].id} - Ids(out) == ix.byId - Ids([list[i]] + out);
      } else {
        DropFromIsDrop(ix, p, i + 1);
      }
    } else {
      assert list[..i] + [] == list && ix.byId - Ids([]) == ix.byId;
    }
  }

  /** The loss loop at position `i`: with what is still to be taken, the settings and events come to
      `settings` and `events`. */
  ghost predicate Losing(lost: seq<Archiver>, sent: seq<StateEvent>, toTake: seq<Archiver>,
                         settings: seq<Archiver>, events: seq<StateEvent>)
  {
    lost + toTake == settings && sent + LostEvents(toTake) == events
  }

  lemma LosingTurn(lost: seq<Archiver>, sent: seq<StateEvent>, a: Archiver, rest: seq<Archiver>,
                   settings: seq<Archiver>, events: seq<StateEvent>)
    requires Losing(lost, sent, [a] + rest, settings, events)
    ensures Losing(lost + [a], sent + [StateEvent(a.id, a.source.sensorId, Crushed, SourceLost)], rest, settings, events)
  {
  }

  /** The retiring loop, likewise: the settings to restart and the references. */
  ghost predicate Retiring(retired: seq<Archiver>, refs: map<Url, int>, toTake: seq<Archiver>,
                           due: seq<Archiver>, refs': map<Url, int>)
  {
    retired + toTake == due && Dereferenced(refs, toTake) == refs'
  }

  lemma RetiringTurn(retired: seq<Archiver>, refs: map<Url, int>, a: Archiver, rest: seq<Archiver>,
                     due: seq<Archiver>, refs': map<Url, int>)
    requires Retiring(retired, refs, [a] + rest, due, refs')
    ensures Retiring(retired + [a], Disconnected(refs, a.source.sourceUrl), rest, due, refs')
  {
  }

  lemma IndexPrune(ix: Index, pruned: set<ArchivingId>, p: Archiver -> bool)
    requires IndexOk(ix, pruned)
    ensures IndexOk(ix.Prune(p), pruned + Ids(Taken(ix.creators, p)))
  {
    SplitMembers(ix.creators, p);
    SplitDistinct(ix.creators, p);
    assert forall a :: a in Without(ix.creators, p) ==> a.id in Ids(Without(ix.creators, p));
    assert forall a :: a in Taken(ix.creators, p) ==> a.id in Ids(Taken(ix.creators, p));
  }

  lemma {:induction false} IndexOfMeans(ix: Index, id: ArchivingId, i: nat)
    requires i <= |ix.creators|
    ensures var k := ix.IndexOf(id, i);
      && (k < |ix.creators| ==> ix.creators[k].id == id)
      && forall j :: i <= j < k ==> ix.creators[j].id != id
    decreases |ix.creators| - i
  {
    if i < |ix.creators| && ix.creators[i].id != id {
      IndexOfMeans(ix, id, i + 1);
    }
  }

  lemma ErasedArchiver(list: seq<Archiver>, k: nat)
    requires k < |list| && DistinctIds(list)
    ensures DistinctIds(Erased(list, k))
    ensures forall a :: a in Erased(list, k) ==> a in list && a.id != list[k].id
    ensures forall a :: a in list && a.id != list[k].id ==> a in Erased(list, k)
  {
  }

  lemma {:induction false} IndexRemove(ix: Index, pruned: set<ArchivingId>, id: ArchivingId)
    requires IndexOk(ix, pruned)
    ensures IndexOk(ix.Remove(id), pruned - {id})
  {
    var k := ix.IndexOf(id, 0);
    IndexOfMeans(ix, id, 0);
    if k < |ix.creators| {
      ErasedArchiver(ix.creators, k);
    } else {
      assert forall a :: a in ix.creators ==> a.id != id;
    }
    IndexWithout(ix, pruned, ix.Remove(id).creators, id);
  }

  lemma IndexWithout(ix: Index, pruned: set<ArchivingId>, rest: seq<Archiver>, id: ArchivingId)
    requires IndexOk(ix, pruned) && DistinctIds(rest)
    requires forall a :: a in rest ==> a in ix.creators && a.id != id
    requires forall a :: a in ix.creators && a.id != id ==> a in rest
    ensures IndexOk(Index(rest, ix.byId - {id}), pruned - {id})
  {
  }

  lemma IndexFinish(r: Registry, pruned: set<ArchivingId>, id: ArchivingId, source: Source, o: Outcome)
    requires IndexOk(r.ix, pruned) && id !in r.ix.byId
    ensures IndexOk(r.Launch(id, source, o).ix, pruned)
  {
    IndexAdd(r.ix, pruned, Archiver(id, source, r.launches));
  }

  // The source-loss loop as it is written.

  /** An erasing turn as written: the reference taken before the vector's erase names the next archiver
      afterwards, and the map loses that one's entry. */
  function EraseAsWritten(ix: Index, i: nat): Index
    requires i + 1 < |ix.creators|
  {
    var rest := Erased(ix.creators, i);
    Index(rest, ix.byId - {rest[i].id})
  }

  /** The loop as written from position `i` on. At the vector's last position the reference names
      nothing: `None` is undefined behaviour. */
  function LoseAsWritten(ix: Index, p: Archiver -> bool, i: nat): Option<Index>
    requires i <= |ix.creators|
    decreases |ix.creators| - i
  {
    if i == |ix.creators| then Some(ix)
    else if !p(ix.creators[i]) then LoseAsWritten(ix, p, i + 1)
    else if i + 1 == |ix.creators| then None
    else LoseAsWritten(EraseAsWritten(ix, i), p, i)
  }

  /** The ids that follow an archiver of the condition. */
  function NextIds(list: seq<Archiver>, p: Archiver -> bool): set<ArchivingId> {
    if |list| < 2 then {} else (if p(list[0]) then {list[1].id} else {}) + NextIds(list[1..], p)
  }

  lemma {:induction false} NextIdsMeans(list: seq<Archiver>, p: Archiver -> bool)
    ensures forall id :: id in NextIds(list, p) ==> exists m: nat :: m + 1 < |list| && p(list[m]) && list[m + 1].id == id
    ensures forall m: nat :: m + 1 < |list| && p(list[m]) ==> list[m + 1].id in NextIds(list, p)
  {
    if |list| >= 2 {
      var rest := list[1..];
      NextIdsMeans(rest, p);
      forall id | id in NextIds(list, p) ensures exists m: nat :: m + 1 < |list| && p(list[m]) && list[m + 1].id == id {
        if id in NextIds(rest, p) {
          var m: nat :| m + 1 < |rest| && p(rest[m]) && rest[m + 1].id == id;
          assert p(list[m + 1]) && list[m + 1 + 1].id == id;
        } else {
          assert p(list[0]) && list[0 + 1].id == id;
        }
      }
      forall m: nat | m + 1 < |list| && p(list[m]) ensures list[m + 1].id in NextIds(list, p) {
        assert m > 0 ==> p(rest[m - 1]) && rest[m - 1 + 1] == list[m + 1];
      }
    }
  }

  /** What the loop as written makes of the vector from position `i` on. */
  function AsWrittenFrom(ix: Index, p: Archiver -> bool, i: nat): Option<Index>
    requires i <= |ix.creators|
  {
    if i < |ix.creators| && p(ix.creators[|ix.creators| - 1]) then None
    else Some(Index(ix.creators[..i] + Without(ix.creators[i..], p), ix.byId - NextIds(ix.creators[i..], p)))
  }

  lemma AsWrittenTurn(ix: Index, p: Archiver -> bool, i: nat)
    requires i + 1 < |ix.creators| && p(ix.creators[i])
    ensures AsWrittenFrom(EraseAsWritten(ix, i), p, i) == AsWrittenFrom(ix, p, i)
  {
    var list := ix.creators;
    WithoutVisit(list, p, i);
    assert list[i..][1..] == list[i + 1..];
    assert Erased(list, i)[i..] == list[i + 1..] && Erased(list, i)[i] == list[i + 1];
    assert NextIds(list[i..], p) == {list[i + 1].id} + NextIds(list[i + 1..], p);
    assert ix.byId - {list[i + 1].id} - NextIds(list[i + 1..], p) == ix.byId - NextIds(list[i..], p);
  }

  lemma AsWrittenSkip(ix: Index, p: Archiver -> bool, i: nat)
    requires i < |ix.creators| && !p(ix.creators[i])
    ensures AsWrittenFrom(ix, p, i + 1) == AsWrittenFrom(ix, p, i)
  {
    WithoutVisit(ix.creators, p, i);
    assert ix.creators[i..][1..] == ix.creators[i + 1..];
    assert NextIds(ix.creators[i..], p) == NextIds(ix.creators[i + 1..], p);
  }

  /** What the whole loop does as written: undefined exactly if the last archiver is lost; else the
      vector loses the lost archivers, and the map those that follow one. */
  lemma {:induction false} LossLoopAsWritten(ix: Index, p: Archiver -> bool, i: nat)
    requires i <= |ix.creators|
    ensures LoseAsWritten(ix, p, i) == AsWrittenFrom(ix, p, i)
    decreases |ix.creators| - i
  {
    if i < |ix.creators| {
      if !p(ix.creators[i]) {
        LossLoopAsWritten(ix, p, i + 1);
        AsWrittenSkip(ix, p, i);
      } else if i + 1 < |ix.creators| {
        LossLoopAsWritten(EraseAsWritten(ix, i), p, i);
        AsWrittenTurn(ix, p, i);
      }
    } else {
      assert ix.creators[..i] + [] == ix.creators && ix.byId - {} == ix.byId;
    }
  }

  lemma {:induction false} FirstTaken(list: seq<Archiver>, p: Archiver -> bool) returns (j: nat)
    requires exists a :: a in list && p(a)
    ensures j < |list| && p(list[j]) && forall i :: 0 <= i < j ==> !p(list[i])
  {
    if p(list[0]) {
      j := 0;
    } else {
      assert list == [list[0]] + list[1..];
      var k := FirstTaken(list[1..], p);
      j := k + 1;
    }
  }

  lemma {:induction false} KeptAfterTaken(list: seq<Archiver>, p: Archiver -> bool, j: nat) returns (m: nat)
    requires j < |list| && p(list[j]) && !p(list[|list| - 1])
    ensures m + 1 < |list| && p(list[m]) && !p(list[m + 1])
    decreases |list| - j
  {
    if p(list[j + 1]) {
      m := KeptAfterTaken(list, p, j + 1);
    } else {
      m := j;
    }
  }

  /** A lost archiver is still in the map, and one that is kept is not. */
  ghost predicate Mixed(ix: Index, p: Archiver -> bool, ix': Index) {
    && (exists a :: a in ix.creators && p(a) && a.id in ix'.byId)
    && (exists a :: a in ix'.creators && a.id !in ix'.byId)
  }

  lemma LostStays(ix: Index, pruned: set<ArchivingId>, p: Archiver -> bool) returns (a: Archiver)
    requires IndexOk(ix, pruned) && exists a :: a in ix.creators && p(a)
    ensures a in ix.creators && p(a) && a.id in ix.byId - NextIds(ix.creators, p)
  {
    var j := FirstTaken(ix.creators, p);
    NextIdsMeans(ix.creators, p);
    a := ix.creators[j];
    assert a in ix.creators;
  }

  lemma KeptGoes(list: seq<Archiver>, p: Archiver -> bool) returns (a: Archiver)
    requires list != [] && !p(list[|list| - 1]) && exists a :: a in list && p(a)
    ensures a in Without(list, p) && a.id in NextIds(list, p)
  {
    var j := FirstTaken(list, p);
    var m := KeptAfterTaken(list, p, j);
    NextIdsMeans(list, p);
    SplitMembers(list, p);
    a := list[m + 1];
    assert a in list;
  }

  lemma MixedIsNotDropped(ix: Index, p: Archiver -> bool, ix': Index)
    requires Mixed(ix, p, ix')
    ensures ix' != ix.Drop(p)
  {
    SplitMembers(ix.creators, p);
    var a :| a in ix.creators && p(a) && a.id in ix'.byId;
    assert a in Taken(ix.creators, p);
  }

  lemma AsWrittenMixes(ix: Index, pruned: set<ArchivingId>, p: Archiver -> bool)
    requires IndexOk(ix, pruned) && exists a :: a in ix.creators && p(a)
    ensures var ix' := Index(Without(ix.creators, p), ix.byId - NextIds(ix.creators, p));
      p(ix.creators[|ix.creators| - 1]) || (Mixed(ix, p, ix') && ix' != ix.Drop(p))
  {
    if !p(ix.creators[|ix.creators| - 1]) {
      var ix' := Index(Without(ix.creators, p), ix.byId - NextIds(ix.creators, p));
      var lost := LostStays(ix, pruned, p);
      var kept := KeptGoes(ix.creators, p);
      MixedIsNotDropped(ix, p, ix');
    }
  }

  /** Whenever an archiver is lost the loop as written goes wrong: it is undefined, or leaves a lost
      archiver in the map and makes one that is kept unfindable. It does what it should exactly when
      nothing is lost. */
  lemma LossAsWritten(ix: Index, pruned: set<ArchivingId>, p: Archiver -> bool)
    requires IndexOk(ix, pruned)
    ensures LoseAsWritten(ix, p, 0) == Some(ix.Drop(p)) <==> forall a :: a in ix.creators ==> !p(a)
    ensures (exists a :: a in ix.creators && p(a)) && LoseAsWritten(ix, p, 0).Some? ==> Mixed(ix, p, LoseAsWritten(ix, p, 0).value)
  {
    hide Without, Taken, NextIds, LoseAsWritten, AsWrittenFrom, Mixed, IndexOk;
    LossLoopAsWritten(ix, p, 0);
    AsWrittenWhole(ix, p);
    if exists a :: a in ix.creators && p(a) {
      AsWrittenMixes(ix, pruned, p);
    } else {
      DropNone(ix, p);
      NoneNext(ix.creators, p);
      assert ix.byId - {} == ix.byId;
    }
  }

  lemma AsWrittenWhole(ix: Index, p: Archiver -> bool)
    ensures AsWrittenFrom(ix, p, 0) ==
      if ix.creators != [] && p(ix.creators[|ix.creators| - 1]) then None
      else Some(Index(Without(ix.creators, p), ix.byId - NextIds(ix.creators, p)))
  {
    assert ix.creators[0..] == ix.creators && ix.creators[..0] + Without(ix.creators, p) == Without(ix.creators, p);
  }

  lemma DropNone(ix: Index, p: Archiver -> bool)
    requires forall a :: a in ix.creators ==> !p(a)
    ensures ix.Drop(p) == ix && Without(ix.creators, p) == ix.creators
  {
    NoneTaken(ix.creators, p);
    AllKept(ix.creators, p);
    assert ix.byId - Ids([]) == ix.byId;
  }

  lemma {:induction false} AllKept(list: seq<Archiver>, p: Archiver -> bool)
    requires forall a :: a in list ==> !p(a)
    ensures Without(list, p) == list
  {
    if list != [] {
      AllKept(list[1..], p);
    }
  }

  lemma NoneNext(list: seq<Archiver>, p: Archiver -> bool)
    requires forall a :: a in list ==> !p(a)
    ensures NextIds(list, p) == {}
  {
    NextIdsMeans(list, p);
  }
}
