/** Which archivers a rotation leaves alone, and which come back, in every reachable state. */
module RecorderBlocks {
  import opened Common
  import opened RecorderModel
  import opened RecorderRotation
  import opened RecorderIndexes
  import opened RecorderRuns

  // Object numbers.

  /** The archivers of the vector are different objects, made earlier than any to come. */
  ghost predicate Numbered(list: seq<Archiver>, launches: nat) {
    && (forall a :: a in list ==> a.launch < launches)
    && (forall i, j :: 0 <= i < j < |list| ==> list[i].launch != list[j].launch)
  }

  lemma {:induction false} NumberedWithout(list: seq<Archiver>, launches: nat, p: Archiver -> bool)
    requires Numbered(list, launches)
    ensures Numbered(Without(list, p), launches)
  {
    if list != [] {
      NumberedWithout(list[1..], launches, p);
      SplitMembers(list[1..], p);
      forall a | a in list[1..] ensures a.launch != list[0].launch {}
    }
  }

  lemma NumberedAppended(list: seq<Archiver>, launches: nat, id: ArchivingId, source: Source)
    requires Numbered(list, launches)
    ensures Numbered(list + [Archiver(id, source, launches)], launches + 1)
  {
  }

  lemma NumberedErased(list: seq<Archiver>, launches: nat, k: nat)
    requires Numbered(list, launches) && k < |list|
    ensures Numbered(Erased(list, k), launches)
  {
  }

  lemma NumberedStep(c: Config, w: World, e: Event)
    requires Numbered(w.s.rec.ix.creators, w.s.rec.launches)
    ensures var w' := Apply(c, w, e); Numbered(w'.s.rec.ix.creators, w'.s.rec.launches)
  {
    var list, launches := w.s.rec.ix.creators, w.s.rec.launches;
    match e
    case FinishStart(i, o) =>
      if i < |w.s.futures| {
        NumberedAppended(list, launches, w.s.futures[i].id, w.s.futures[i].source);
      }
    case RelaunchNext(o) =>
      if w.t.restarts != [] {
        NumberedAppended(list, launches, w.t.restarts[0].id, w.t.restarts[0].source);
      }
    case StopRecording(id) =>
      var k := w.s.rec.ix.IndexOf(id, 0);
      if k < |list| { NumberedErased(list, launches, k); }
    case LoseSource(url) => NumberedWithout(list, launches, OnSource(url));
    case PruneDied(lost) => NumberedWithout(list, launches, ConnectionLost(lost));
    case RetireDue(readings) => NumberedWithout(list, launches, DueAt(c, readings));
    case StartRecording(_, _) =>
    case PublishRecord =>
    case CollectResult(_) =>
  }

  lemma {:induction false} NumberedHolds(c: Config, es: seq<Event>)
    ensures Numbered(After(c, es).s.rec.ix.creators, After(c, es).s.rec.launches)
  {
    if es != [] {
      NumberedHolds(c, es[..|es| - 1]);
      NumberedStep(c, After(c, es[..|es| - 1]), es[|es| - 1]);
    }
  }

  // The rotation.

  /** The block is not old enough: it has not begun, or is younger than the interval and five seconds;
      with a negative interval, not older than that and four seconds. */
  predicate Young(c: Config, r: Reading) {
    var age, seconds := r.nowMillisec - r.timeStartMillisec, c.newDataBlockIntervalMin * 60;
    || r.timeStartMillisec == 0
    || (if seconds >= 0 then age < (seconds + 5) * 1000 else age <= (seconds + 4) * 1000)
  }

  /** The archiver is left alone. */
  predicate Untouched(c: Config, readings: map<nat, Reading>, a: Archiver) {
    a.launch !in readings || Young(c, readings[a.launch])
  }

  /** The source of a retired archiver connects again and a new archiver starts. */
  predicate ComesBack(outcomes: map<nat, Outcome>, a: Archiver) {
    && a.source.sourceUrl != "" && a.launch in outcomes && outcomes[a.launch].connected && outcomes[a.launch].launched
  }

  lemma UntouchedIff(c: Config, readings: map<nat, Reading>, a: Archiver)
    ensures Untouched(c, readings, a) <==> !DueAt(c, readings)(a)
  {
    if a.launch in readings {
      DueExactly(c, readings[a.launch]);
    }
  }

  lemma RotatedMembers(r: Registry, p: Archiver -> bool, outcomes: map<nat, Outcome>, a: Archiver)
    requires Numbered(r.ix.creators, r.launches)
    ensures a in r.Rotate(p, outcomes).ix.creators <==>
      (a in r.ix.creators && !p(a)) ||
      (a.launch >= r.launches && a in Renumbered(Without(Taken(r.ix.creators, p), Fails(outcomes)), r.launches))
  {
    RotationReplacesDue(r, p, outcomes);
    SplitMembers(r.ix.creators, p);
    RenumberedSame(Without(Taken(r.ix.creators, p), Fails(outcomes)), r.launches);
  }

  /** In every reachable state the rotation leaves an archiver's object in the vector if and only if the
      archiver has no reading, no start, or a block that is not old enough. */
  lemma {:induction false} KeepsYoung(c: Config, es: seq<Event>, readings: map<nat, Reading>, outcomes: map<nat, Outcome>, a: Archiver)
    requires a in After(c, es).s.rec.ix.creators
    ensures a in After(c, es).s.rec.Rotate(DueAt(c, readings), outcomes).ix.creators <==> Untouched(c, readings, a)
  {
    NumberedHolds(c, es);
    RotatedMembers(After(c, es).s.rec, DueAt(c, readings), outcomes, a);
    UntouchedIff(c, readings, a);
  }

  lemma BackAt(back: seq<Archiver>, launches: nat, a: Archiver)
    requires a in back
    ensures exists b :: b in Renumbered(back, launches) && b.id == a.id && b.source == a.source && b.launch >= launches
  {
    RenumberedSame(back, launches);
    var i :| 0 <= i < |back| && back[i] == a;
    assert Renumbered(back, launches)[i] == a.(launch := launches + i);
  }

  lemma BackFrom(back: seq<Archiver>, launches: nat, b: Archiver) returns (a: Archiver)
    requires b in Renumbered(back, launches)
    ensures a in back && b.id == a.id && b.source == a.source
  {
    RenumberedSame(back, launches);
    var i :| 0 <= i < |back| && Renumbered(back, launches)[i] == b;
    a := back[i];
  }

  /** The archiving of `a` is recorded by an object made in the rotation. */
  ghost predicate OnNewObject(r: Registry, r': Registry, a: Archiver) {
    exists b :: b in r'.ix.creators && b.id == a.id && b.source == a.source && b.launch >= r.launches
  }

  lemma NewObjectIff(r: Registry, p: Archiver -> bool, outcomes: map<nat, Outcome>, a: Archiver)
    requires Numbered(r.ix.creators, r.launches) && DistinctIds(r.ix.creators) && a in r.ix.creators
    ensures OnNewObject(r, r.Rotate(p, outcomes), a) <==> p(a) && OutcomeOf(outcomes, a).Succeeds()
  {
    var back := Without(Taken(r.ix.creators, p), Fails(outcomes));
    SplitMembers(r.ix.creators, p);
    SplitMembers(Taken(r.ix.creators, p), Fails(outcomes));
    if OnNewObject(r, r.Rotate(p, outcomes), a) {
      var b :| b in r.Rotate(p, outcomes).ix.creators && b.id == a.id && b.source == a.source && b.launch >= r.launches;
      RotatedMembers(r, p, outcomes, b);
      var a' := BackFrom(back, r.launches, b);
      assert a' == a;
    }
    if a in back {
      BackAt(back, r.launches, a);
      var b :| b in Renumbered(back, r.launches) && b.id == a.id && b.source == a.source && b.launch >= r.launches;
      RotatedMembers(r, p, outcomes, b);
    }
  }

  /** The other archivings are recorded on if and only if their sources connect and their archivers start. */
  lemma {:induction false} ReplacesOld(c: Config, es: seq<Event>, readings: map<nat, Reading>, outcomes: map<nat, Outcome>, a: Archiver)
    requires LegalRun(c, es) && a in After(c, es).s.rec.ix.creators
    ensures var r := After(c, es).s.rec;
      OnNewObject(r, r.Rotate(DueAt(c, readings), outcomes), a) <==> !Untouched(c, readings, a) && ComesBack(outcomes, a)
  {
    NumberedHolds(c, es);
    assert es[..|es|] == es;
    InvHolds(c, es, |es|);
    NewObjectIff(After(c, es).s.rec, DueAt(c, readings), outcomes, a);
    UntouchedIff(c, readings, a);
  }
}
