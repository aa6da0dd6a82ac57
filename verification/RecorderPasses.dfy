/** Whole loops of the maintenance thread as runs of single events. */
module RecorderPasses {
  import opened Common
  import opened RecorderModel
  import opened RecorderRotation
  import opened RecorderIndexes
  import opened RecorderRuns

  lemma {:induction false} Extended(c: Config, es: seq<Event>, e: Event)
    requires LegalRun(c, es) && Legal(After(c, es), e)
    ensures LegalRun(c, es + [e]) && After(c, es + [e]) == Apply(c, After(c, es), e)
  {
    var es' := es + [e];
    assert es'[..|es|] == es;
    forall k | 0 <= k < |es'| ensures Legal(After(c, es'[..k]), es'[k]) {
      if k < |es| {
        assert es'[..k] == es[..k];
      }
    }
  }

  /** Events from a given world on. */
  function ApplyAll(c: Config, w: World, es: seq<Event>): World
    decreases |es|
  {
    if es == [] then w else ApplyAll(c, Apply(c, w, es[0]), es[1..])
  }

  predicate LegalFrom(c: Config, w: World, es: seq<Event>)
    decreases |es|
  {
    es != [] ==> Legal(w, es[0]) && LegalFrom(c, Apply(c, w, es[0]), es[1..])
  }

  /** They continue a run that leads to that world. */
  lemma {:induction false} Continued(c: Config, es: seq<Event>, w: World, more: seq<Event>)
    requires LegalRun(c, es) && After(c, es) == w && LegalFrom(c, w, more)
    ensures LegalRun(c, es + more) && After(c, es + more) == ApplyAll(c, w, more)
    decreases |more|
  {
    hide Apply, Legal, LegalRun;
    if more == [] {
      assert es + more == es;
    } else {
      Extended(c, es, more[0]);
      Continued(c, es + [more[0]], Apply(c, w, more[0]), more[1..]);
      assert es + more == es + [more[0]] + more[1..];
    }
  }

  lemma FirstEvent(c: Config, w: World, e: Event, rest: seq<Event>)
    ensures ApplyAll(c, w, [e] + rest) == ApplyAll(c, Apply(c, w, e), rest)
    ensures LegalFrom(c, w, [e] + rest) <==> Legal(w, e) && LegalFrom(c, Apply(c, w, e), rest)
  {
    assert ([e] + rest)[1..] == rest;
  }

  // The collecting pass.

  /** The futures whose threads have not returned, in order. */
  function Unready(fs: seq<Future>): seq<Future> {
    if fs == [] then [] else (if fs[0].result.Some? then [] else [fs[0]]) + Unready(fs[1..])
  }

  function ReadyIds(fs: seq<Future>): seq<ArchivingId> {
    if fs == [] then [] else (if fs[0].result.Some? then [fs[0].id] else []) + ReadyIds(fs[1..])
  }

  function EventIds(sent: seq<StateEvent>): seq<ArchivingId> {
    seq(|sent|, i requires 0 <= i < |sent| => sent[i].archivingId)
  }

  lemma Regrouped<T>(a: seq<T>, x: T, b: seq<T>)
    ensures (a + [x]) + b == a + ([x] + b)
  {
  }

  /** After a pass exactly the unfinished futures are left, in order. */
  lemma {:induction false} PassCollectsReady(s: State, i: nat)
    requires i <= |s.futures|
    ensures s.CollectFrom(i).futures == s.futures[..i] + Unready(s.futures[i..])
    decreases |s.futures| - i
  {
    var fs := s.futures;
    if i < |fs| {
      assert fs[i..][1..] == fs[i + 1..];
      if s.Ready(i) {
        PassCollectsReady(s.Collect(i), i);
        assert Erased(fs, i)[..i] == fs[..i] && Erased(fs, i)[i..] == fs[i + 1..];
      } else {
        PassCollectsReady(s, i + 1);
        assert fs[..i + 1] == fs[..i] + [fs[i]];
        Regrouped(fs[..i], fs[i], Unready(fs[i + 1..]));
      }
    } else {
      assert fs[..i] + [] == fs;
    }
  }

  /** The pass sends one event for each finished future, in order. */
  lemma {:induction false} PassReports(s: State, i: nat)
    requires i <= |s.futures| && forall id :: id in s.rec.ix.byId ==> s.rec.ix.byId[id].id == id
    ensures EventIds(s.CollectFrom(i).sent) == EventIds(s.sent) + ReadyIds(s.futures[i..])
    decreases |s.futures| - i
  {
    var fs := s.futures;
    if i < |fs| {
      assert fs[i..][1..] == fs[i + 1..];
      if s.Ready(i) {
        PassReports(s.Collect(i), i);
        assert Erased(fs, i)[i..] == fs[i + 1..];
        assert EventIds(s.Collect(i).sent) == EventIds(s.sent) + [fs[i].id];
        assert EventIds(s.sent) + [fs[i].id] + ReadyIds(fs[i + 1..]) == EventIds(s.sent) + ([fs[i].id] + ReadyIds(fs[i + 1..]));
      } else {
        PassReports(s, i + 1);
        assert [] + ReadyIds(fs[i + 1..]) == ReadyIds(fs[i + 1..]);
      }
    } else {
      assert EventIds(s.sent) + [] == EventIds(s.sent);
    }
  }

  lemma {:induction false} PassFrom(c: Config, w: World, i: nat) returns (more: seq<Event>)
    requires w.t.restarts == [] && i <= |w.s.futures|
    ensures LegalFrom(c, w, more) && forall e :: e in more ==> e.CollectResult?
    ensures ApplyAll(c, w, more).s == w.s.CollectFrom(i)
    decreases |w.s.futures| - i
  {
    if i == |w.s.futures| {
      more := [];
    } else if w.s.Ready(i) {
      var rest := PassFrom(c, ApplyCollect(w, i), i);
      FirstEvent(c, w, CollectResult(i), rest);
      more := [CollectResult(i)] + rest;
    } else {
      more := PassFrom(c, w, i + 1);
    }
  }

  /** A pass is a legal run of single collections. */
  lemma PassIsRun(c: Config, es: seq<Event>) returns (more: seq<Event>)
    requires LegalRun(c, es) && After(c, es).t.restarts == []
    ensures LegalRun(c, es + more) && forall e :: e in more ==> e.CollectResult?
    ensures After(c, es + more).s == After(c, es).s.CollectFrom(0)
  {
    var w := After(c, es);
    more := PassFrom(c, w, 0);
    Continued(c, es, w, more);
  }

  // The rotation.

  /** What the environment answers to each relaunch. */
  function Relaunches(retired: seq<Archiver>, outcomes: map<nat, Outcome>): seq<Event> {
    if retired == [] then [] else [RelaunchNext(OutcomeOf(outcomes, retired[0]))] + Relaunches(retired[1..], outcomes)
  }

  /** The second phase, undisturbed: one relaunch after another. */
  lemma {:induction false} RelaunchesFrom(c: Config, w: World, outcomes: map<nat, Outcome>)
    ensures var more := Relaunches(w.t.restarts, outcomes);
      && LegalFrom(c, w, more)
      && ApplyAll(c, w, more) == w.(s := w.s.(rec := w.s.rec.Relaunch(w.t.restarts, outcomes)), t := w.t.(restarts := []))
    decreases |w.t.restarts|
  {
    if w.t.restarts != [] {
      var e := RelaunchNext(OutcomeOf(outcomes, w.t.restarts[0]));
      RelaunchesFrom(c, Apply(c, w, e), outcomes);
      FirstEvent(c, w, e, Relaunches(w.t.restarts[1..], outcomes));
    }
  }

  /** The rotation as the maintenance thread performs it, undisturbed: a retirement and the relaunches
      of what it retired are a legal run, with the effect of the two loops. */
  lemma RotationIsRun(c: Config, es: seq<Event>, readings: map<nat, Reading>, outcomes: map<nat, Outcome>) returns (more: seq<Event>)
    requires LegalRun(c, es) && After(c, es).t.restarts == []
    ensures LegalRun(c, es + more)
    ensures After(c, es + more).s == After(c, es).s.(rec := After(c, es).s.rec.Rotate(DueAt(c, readings), outcomes))
  {
    var w, e := After(c, es), RetireDue(readings);
    RelaunchesFrom(c, Apply(c, w, e), outcomes);
    var rest := Relaunches(Apply(c, w, e).t.restarts, outcomes);
    FirstEvent(c, w, e, rest);
    more := [e] + rest;
    Continued(c, es, w, more);
  }

  ghost predicate ConservedAfter(c: Config, es: seq<Event>, readings: map<nat, Reading>, outcomes: map<nat, Outcome>) {
    var r := After(c, es).s.rec;
    Conserved(r, r.Rotate(DueAt(c, readings), outcomes))
  }

  ghost predicate AllComeBack(c: Config, es: seq<Event>, readings: map<nat, Reading>, outcomes: map<nat, Outcome>) {
    AllSucceed(After(c, es).s.rec.ix.creators, DueAt(c, readings), outcomes)
  }

  /** In every reachable state an undisturbed rotation conserves if and only if all due archivers come back. */
  lemma {:induction false} RotationsConserve(c: Config, es: seq<Event>, readings: map<nat, Reading>, outcomes: map<nat, Outcome>)
    requires LegalRun(c, es)
    ensures ConservedAfter(c, es, readings, outcomes) <==> AllComeBack(c, es, readings, outcomes)
  {
    assert es[..|es|] == es;
    InvHolds(c, es, |es|);
    var w := After(c, es);
    IndexKeys(w.s.rec.ix, w.h.pruned);
    RotationConserves(w.s.rec, DueAt(c, readings), outcomes);
  }

  // Between the two phases.

  /** A stop of a retired archiving finds nothing to remove: whether the archiving is back afterwards
      depends on the relaunch alone. */
  lemma StopInGap(c: Config, w: World, o: Outcome)
    requires Inv(w) && w.t.restarts != [] && w.t.command.Idle?
    ensures var a := w.t.restarts[0];
      var w1 := Apply(c, w, StopRecording(a.id)); var w2 := Apply(c, w1, RelaunchNext(o));
      && Legal(w, StopRecording(a.id)) && Legal(w1, RelaunchNext(o))
      && w1.s.rec.ix == w.s.rec.ix && w1.t == w.t
      && (w.s.StopRecording(a.id).1 <==> a.id in w.s.records)
      && (a.source.Answer(o).Succeeds() <==> a.id in w2.s.rec.ix.byId && w2.s.rec.ix.byId[a.id] in w2.s.rec.ix.creators)
  {
    var a := w.t.restarts[0];
    RestartIds(w.t.restarts);
  }
}
