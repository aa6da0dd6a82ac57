/** The two-phase rotation of expired blocks: what it replaces, what it keeps, what it can lose. */
module RecorderRotation {
  import opened Common
  import opened RecorderModel

  // When a block is due.

  /** A block is replaced exactly when it has a start and is at least five seconds older than the
      interval; truncation makes the bound one second less for a negative interval. */
  lemma DueExactly(c: Config, r: Reading)
    ensures var age, seconds := r.nowMillisec - r.timeStartMillisec, c.newDataBlockIntervalMin * 60;
      c.Due(r) <==> r.timeStartMillisec != 0 && if seconds >= 0 then age >= (seconds + 5) * 1000 else age > (seconds + 4) * 1000
  {
    var t := c.newDataBlockIntervalMin * 60 + 4;
    assert Quotient(t * 1000, 1000) == t;
    QuotientAbove(r.nowMillisec - r.timeStartMillisec, t);
  }

  lemma QuotientAbove(x: int, t: int)
    ensures Quotient(x, 1000) > t <==> if t >= 0 then x >= (t + 1) * 1000 else x > t * 1000
  {
  }

  // The erasing loops.

  lemma {:induction false} SplitMembers(list: seq<Archiver>, p: Archiver -> bool)
    ensures forall a :: a in Without(list, p) ==> a in list && !p(a)
    ensures forall a :: a in list && !p(a) ==> a in Without(list, p)
    ensures forall a :: a in Taken(list, p) ==> a in list && p(a)
    ensures forall a :: a in list && p(a) ==> a in Taken(list, p)
  {
    if list != [] {
      SplitMembers(list[1..], p);
      assert list == [list[0]] + list[1..];
    }
  }

  ghost predicate DistinctIds(list: seq<Archiver>) {
    forall i, j :: 0 <= i < j < |list| ==> list[i].id != list[j].id
  }

  lemma {:induction false} SplitDistinct(list: seq<Archiver>, p: Archiver -> bool)
    requires DistinctIds(list)
    ensures DistinctIds(Without(list, p)) && DistinctIds(Taken(list, p))
    ensures Ids(Without(list, p)) !! Ids(Taken(list, p))
  {
    if list != [] {
      SplitDistinct(list[1..], p);
      SplitMembers(list[1..], p);
      SplitMembers(list, p);
      forall a | a in list[1..] ensures a.id != list[0].id {}
    }
  }

  lemma SplitIds(list: seq<Archiver>, p: Archiver -> bool)
    ensures Ids(list) == Ids(Without(list, p)) + Ids(Taken(list, p))
  {
    SplitMembers(list, p);
    forall id | id in Ids(list) ensures id in Ids(Without(list, p)) + Ids(Taken(list, p)) {
      var a :| a in list && a.id == id;
      assert if p(a) then a in Taken(list, p) else a in Without(list, p);
    }
  }

  /** An archiving, whichever object records it. */
  datatype Archiving = Archiving(id: ArchivingId, source: Source)

  function Listed(list: seq<Archiver>): seq<Archiving> {
    if list == [] then [] else [Archiving(list[0].id, list[0].source)] + Listed(list[1..])
  }

  function Archivings(list: seq<Archiver>): multiset<Archiving> {
    multiset(Listed(list))
  }

  lemma {:induction false} ListedAppended(a: seq<Archiver>, b: seq<Archiver>)
    ensures Listed(a + b) == Listed(a) + Listed(b)
  {
    if a == [] {
      assert a + b == b;
    } else {
      ListedAppended(a[1..], b);
      assert (a + b)[1..] == a[1..] + b;
    }
  }

  lemma ArchivingsAppended(a: seq<Archiver>, b: seq<Archiver>)
    ensures Archivings(a + b) == Archivings(a) + Archivings(b)
  {
    ListedAppended(a, b);
  }

  lemma ArchivingsCons(a: Archiver, list: seq<Archiver>)
    ensures Archivings([a] + list) == multiset{Archiving(a.id, a.source)} + Archivings(list)
  {
  }

  lemma Regrouped<T>(x: multiset<T>, a: multiset<T>, b: multiset<T>)
    ensures x + (a + b) == a + (x + b) == (x + a) + b
  {
  }

  lemma {:induction false} ArchivingsSplit(list: seq<Archiver>, p: Archiver -> bool)
    ensures Archivings(list) == Archivings(Without(list, p)) + Archivings(Taken(list, p))
  {
    if list != [] {
      ArchivingsSplit(list[1..], p);
      assert list == [list[0]] + list[1..];
      ArchivingsCons(list[0], list[1..]);
      var kept, out := Without(list[1..], p), Taken(list[1..], p);
      Regrouped(multiset{Archiving(list[0].id, list[0].source)}, Archivings(kept), Archivings(out));
      if p(list[0]) {
        ArchivingsCons(list[0], out);
        assert Without(list, p) == kept && Taken(list, p) == [list[0]] + out;
      } else {
        ArchivingsCons(list[0], kept);
        assert Without(list, p) == [list[0]] + kept && Taken(list, p) == out;
      }
    }
  }

  /** One turn of an erasing loop, at position i. */
  lemma WithoutVisit(list: seq<Archiver>, p: Archiver -> bool, i: nat)
    requires i < |list|
    ensures p(list[i]) ==>
      Erased(list, i)[..i] + Without(Erased(list, i)[i..], p) == list[..i] + Without(list[i..], p)
    ensures !p(list[i]) ==> list[..i + 1] + Without(list[i + 1..], p) == list[..i] + Without(list[i..], p)
  {
  }

  // The references.

  /** How many of the archivers hold a reference to the address; an empty one cannot be held. */
  function CountOn(list: seq<Archiver>, url: Url): nat {
    if list == [] then 0 else Holds(list[0], url) + CountOn(list[1..], url)
  }

  function Holds(a: Archiver, url: Url): nat {
    if url != "" && a.source.sourceUrl == url then 1 else 0
  }

  lemma CountCons(a: Archiver, list: seq<Archiver>, url: Url)
    ensures CountOn([a] + list, url) == Holds(a, url) + CountOn(list, url)
  {
  }

  lemma {:induction false} CountSplit(list: seq<Archiver>, p: Archiver -> bool, url: Url)
    ensures CountOn(list, url) == CountOn(Without(list, p), url) + CountOn(Taken(list, p), url)
  {
    if list != [] {
      CountSplit(list[1..], p, url);
      var kept, out := Without(list[1..], p), Taken(list[1..], p);
      if p(list[0]) {
        CountCons(list[0], out, url);
        assert Without(list, p) == kept && Taken(list, p) == [list[0]] + out;
      } else {
        CountCons(list[0], kept, url);
        assert Without(list, p) == [list[0]] + kept && Taken(list, p) == out;
      }
    }
  }

  lemma {:induction false} DereferencedCounts(refs: map<Url, int>, list: seq<Archiver>, url: Url)
    ensures Ref(Dereferenced(refs, list), url) == Ref(refs, url) - CountOn(list, url)
    decreases |list|
  {
    if list != [] {
      DereferencedCounts(Disconnected(refs, list[0].source.sourceUrl), list[1..], url);
    }
  }

  // The second phase.

  function Fails(outcomes: map<nat, Outcome>): Archiver -> bool {
    (a: Archiver) => !OutcomeOf(outcomes, a).Succeeds()
  }

  function Unconnected(outcomes: map<nat, Outcome>): Archiver -> bool {
    (a: Archiver) => !OutcomeOf(outcomes, a).connected
  }

  /** The same archivings on new objects, numbered in turn. */
  function Renumbered(list: seq<Archiver>, launch: nat): seq<Archiver> {
    if list == [] then [] else [list[0].(launch := launch)] + Renumbered(list[1..], launch + 1)
  }

  lemma {:induction false} RenumberedSame(list: seq<Archiver>, launch: nat)
    ensures |Renumbered(list, launch)| == |list|
    ensures forall i :: 0 <= i < |list| ==> Renumbered(list, launch)[i] == list[i].(launch := launch + i)
    ensures Archivings(Renumbered(list, launch)) == Archivings(list)
  {
    if list != [] {
      RenumberedSame(list[1..], launch + 1);
    }
  }

  lemma {:induction false} RelaunchCreators(r: Registry, retired: seq<Archiver>, outcomes: map<nat, Outcome>)
    ensures var r' := r.Relaunch(retired, outcomes); var back := Without(retired, Fails(outcomes));
      && r'.ix.creators == r.ix.creators + Renumbered(back, r.launches)
      && r'.launches == r.launches + |back|
    decreases |retired|
  {
    if retired != [] {
      var r1 := r.Launch(retired[0].id, retired[0].source, OutcomeOf(outcomes, retired[0]));
      RelaunchCreators(r1, retired[1..], outcomes);
      var rest := Without(retired[1..], Fails(outcomes));
      if OutcomeOf(outcomes, retired[0]).Succeeds() {
        assert ([retired[0]] + rest)[1..] == rest;
        assert Without(retired, Fails(outcomes)) == [retired[0]] + rest;
        assert Renumbered([retired[0]] + rest, r.launches) == [retired[0].(launch := r.launches)] + Renumbered(rest, r.launches + 1);
      } else {
        assert Without(retired, Fails(outcomes)) == rest;
      }
    }
  }

  lemma {:induction false} RelaunchKeys(r: Registry, retired: seq<Archiver>, outcomes: map<nat, Outcome>)
    ensures r.Relaunch(retired, outcomes).ix.byId.Keys == r.ix.byId.Keys + Ids(Without(retired, Fails(outcomes)))
    decreases |retired|
  {
    if retired != [] {
      var a := retired[0];
      var r1 := r.Launch(a.id, a.source, OutcomeOf(outcomes, a));
      RelaunchKeys(r1, retired[1..], outcomes);
      var rest := Without(retired[1..], Fails(outcomes));
      assert Ids([a] + rest) == {a.id} + Ids(rest) by {
        assert forall b :: b in [a] + rest <==> b == a || b in rest;
        assert a in [a] + rest;
      }
    }
  }

  lemma {:induction false} RelaunchRefs(r: Registry, retired: seq<Archiver>, outcomes: map<nat, Outcome>, url: Url)
    ensures Ref(r.Relaunch(retired, outcomes).refs, url) ==
      Ref(r.refs, url) + CountOn(Without(retired, Unconnected(outcomes)), url)
    decreases |retired|
  {
    if retired != [] {
      var a := retired[0];
      var r1 := r.Launch(a.id, a.source, OutcomeOf(outcomes, a));
      RelaunchRefs(r1, retired[1..], outcomes, url);
      var rest := Without(retired[1..], Unconnected(outcomes));
      CountCons(a, rest, url);
      assert Without(retired, Unconnected(outcomes)) == if OutcomeOf(outcomes, a).connected then [a] + rest else rest;
    }
  }

  // The whole rotation.

  /** The untouched archivers keep their objects and their order; the due ones that come back do so
      at the end, in order, on new objects. */
  lemma RotationReplacesDue(r: Registry, p: Archiver -> bool, outcomes: map<nat, Outcome>)
    ensures var r' := r.Rotate(p, outcomes); var back := Without(Taken(r.ix.creators, p), Fails(outcomes));
      && r'.ix.creators == Without(r.ix.creators, p) + Renumbered(back, r.launches)
      && r'.launches == r.launches + |back|
  {
    RelaunchCreators(r.Retire(p), Taken(r.ix.creators, p), outcomes);
  }

  /** The recording set loses exactly the due archivings that fail to come back. */
  lemma RotationArchivings(r: Registry, p: Archiver -> bool, outcomes: map<nat, Outcome>)
    ensures Archivings(r.Rotate(p, outcomes).ix.creators) + Archivings(Taken(Taken(r.ix.creators, p), Fails(outcomes)))
      == Archivings(r.ix.creators)
  {
    var due := Taken(r.ix.creators, p);
    var back := Without(due, Fails(outcomes));
    RotationReplacesDue(r, p, outcomes);
    RenumberedSame(back, r.launches);
    ArchivingsAppended(Without(r.ix.creators, p), Renumbered(back, r.launches));
    ArchivingsSplit(r.ix.creators, p);
    ArchivingsSplit(due, Fails(outcomes));
  }

  /** So does the key set of the map. */
  lemma RotationKeys(r: Registry, p: Archiver -> bool, outcomes: map<nat, Outcome>)
    requires DistinctIds(r.ix.creators) && Ids(r.ix.creators) <= r.ix.byId.Keys
    ensures r.Rotate(p, outcomes).ix.byId.Keys == r.ix.byId.Keys - Ids(Taken(Taken(r.ix.creators, p), Fails(outcomes)))
  {
    var due := Taken(r.ix.creators, p);
    RelaunchKeys(r.Retire(p), due, outcomes);
    SplitIds(due, Fails(outcomes));
    SplitDistinct(r.ix.creators, p);
    SplitDistinct(due, Fails(outcomes));
    SplitIds(r.ix.creators, p);
    assert r.Retire(p).ix.byId.Keys == r.ix.byId.Keys - Ids(due);
  }

  /** A source loses a reference for each due archiver whose reconnect failed. */
  lemma RotationRefs(r: Registry, p: Archiver -> bool, outcomes: map<nat, Outcome>, url: Url)
    ensures Ref(r.Rotate(p, outcomes).refs, url) ==
      Ref(r.refs, url) - CountOn(Taken(Taken(r.ix.creators, p), Unconnected(outcomes)), url)
  {
    var due := Taken(r.ix.creators, p);
    DereferencedCounts(r.refs, due, url);
    RelaunchRefs(r.Retire(p), due, outcomes, url);
    CountSplit(due, Unconnected(outcomes), url);
  }

  ghost predicate Conserved(r: Registry, r': Registry) {
    && Archivings(r'.ix.creators) == Archivings(r.ix.creators)
    && r'.ix.byId.Keys == r.ix.byId.Keys
    && forall url :: Ref(r'.refs, url) == Ref(r.refs, url)
  }

  lemma {:induction false} NoneTaken(list: seq<Archiver>, p: Archiver -> bool)
    requires forall a :: a in list ==> !p(a)
    ensures Taken(list, p) == []
  {
    if list != [] {
      NoneTaken(list[1..], p);
    }
  }

  lemma {:induction false} ArchivingsHas(list: seq<Archiver>, a: Archiver)
    requires a in list
    ensures |Archivings(list)| > 0
  {
  }

  ghost predicate AllSucceed(list: seq<Archiver>, p: Archiver -> bool, outcomes: map<nat, Outcome>) {
    forall a :: a in list && p(a) ==> OutcomeOf(outcomes, a).Succeeds()
  }

  lemma AllSucceedNoneFail(list: seq<Archiver>, p: Archiver -> bool, outcomes: map<nat, Outcome>)
    ensures AllSucceed(list, p, outcomes) ==> Taken(Taken(list, p), Fails(outcomes)) == []
    ensures AllSucceed(list, p, outcomes) ==> Taken(Taken(list, p), Unconnected(outcomes)) == []
    ensures !AllSucceed(list, p, outcomes) ==> |Archivings(Taken(Taken(list, p), Fails(outcomes)))| > 0
  {
    var due := Taken(list, p);
    SplitMembers(list, p);
    if AllSucceed(list, p, outcomes) {
      NoneTaken(due, Fails(outcomes));
      NoneTaken(due, Unconnected(outcomes));
    } else {
      var a :| a in list && p(a) && !OutcomeOf(outcomes, a).Succeeds();
      SplitMembers(due, Fails(outcomes));
      ArchivingsHas(Taken(due, Fails(outcomes)), a);
    }
  }

  lemma AllBack(r: Registry, p: Archiver -> bool, outcomes: map<nat, Outcome>)
    requires DistinctIds(r.ix.creators) && Ids(r.ix.creators) <= r.ix.byId.Keys && AllSucceed(r.ix.creators, p, outcomes)
    ensures Conserved(r, r.Rotate(p, outcomes))
  {
    AllSucceedNoneFail(r.ix.creators, p, outcomes);
    RotationArchivings(r, p, outcomes);
    RotationKeys(r, p, outcomes);
    forall url ensures Ref(r.Rotate(p, outcomes).refs, url) == Ref(r.refs, url) {
      RotationRefs(r, p, outcomes, url);
    }
  }

  lemma SomeLost(before: multiset<Archiving>, after: multiset<Archiving>, lost: multiset<Archiving>)
    requires after + lost == before && |lost| > 0
    ensures after != before
  {
  }

  /** Rotation preserves the recording set, the map's keys and every source's reference balance if
      and only if every due archiver reconnects and starts again. */
  lemma RotationConserves(r: Registry, p: Archiver -> bool, outcomes: map<nat, Outcome>)
    requires DistinctIds(r.ix.creators) && Ids(r.ix.creators) <= r.ix.byId.Keys
    ensures Conserved(r, r.Rotate(p, outcomes)) <==> AllSucceed(r.ix.creators, p, outcomes)
  {
    if AllSucceed(r.ix.creators, p, outcomes) {
      AllBack(r, p, outcomes);
    } else {
      AllSucceedNoneFail(r.ix.creators, p, outcomes);
      RotationArchivings(r, p, outcomes);
      SomeLost(Archivings(r.ix.creators), Archivings(r.Rotate(p, outcomes).ix.creators),
               Archivings(Taken(Taken(r.ix.creators, p), Fails(outcomes))));
    }
  }
}
