/** Retries are bounded, and every registered observer hears the signal alternate. */
module VideoSourceRuns {
  import opened Common
  import opened VideoSourceModel

  // Retries.

  /** The attempt gets no stream-start event but reads the stream's capabilities. */
  predicate CapsOnly(s: Signal, a: Attempt, recordEnable: bool) {
    && !s.present && a.capsKnown && !a.arrival.BeforeWait?
    && (a.arrival.DuringWait? ==> !recordEnable || s.streamStartArrived)
  }

  lemma CapsOnlyMeans(s: Signal, a: Attempt, recordEnable: bool)
    ensures s.Wait(a, recordEnable).1 && !s.Wait(a, recordEnable).0.present <==> CapsOnly(s, a, recordEnable)
  {
  }

  /** At most one attempt a second fits before the deadline. */
  lemma {:induction false} LoopBound(s: Source, r: Retries, k: nat)
    requires r.Timely()
    requires r.clock(k) >= r.begin + 1000 * k
    ensures k <= s.Loop(r, k).1 <= MaxInt(k, s.settings.connectRetriesTimeoutSec + 1)
    decreases MaxInt(0, r.begin + s.settings.connectRetriesTimeoutSec * 1000 + 1 - r.clock(k))
  {
    if s.Guard(r, k) && !s.Try(r.attempts(k)).1 {
      assert r.clock(k + 1) >= r.clock(k) + 1000;
      LoopBound(s.Try(r.attempts(k)).0, r, k + 1);
    }
  }

  /** The number of attempts is at most the timeout in seconds plus one. */
  lemma BoundedRetries(s: Source, r: Retries)
    requires r.Timely() && s.settings.connectRetriesTimeoutSec >= 0
    ensures s.Loop(r, 0).1 <= s.settings.connectRetriesTimeoutSec + 1
  {
    LoopBound(s, r, 0);
  }

  /** The source before the last attempt of the loop. */
  ghost function BeforeLast(s: Source, r: Retries, k: nat): Source
    requires r.Timely()
    decreases MaxInt(0, r.begin + s.settings.connectRetriesTimeoutSec * 1000 + 1 - r.clock(k))
  {
    if !s.Guard(r, k) || s.Try(r.attempts(k)).1 then s
    else
      assert r.clock(k + 1) >= r.clock(k) + 1000;
      BeforeLast(s.Try(r.attempts(k)).0, r, k + 1)
  }

  /** The loop ends either with a successful attempt or because its guard failed. */
  lemma {:induction false} LoopEnds(s: Source, r: Retries, k: nat)
    requires r.Timely()
    ensures var (s', n, ok) := s.Loop(r, k);
      if ok then n > k && BeforeLast(s, r, k).Try(r.attempts(n - 1)) == (s', true) else !s'.Guard(r, n)
    ensures var s' := s.Loop(r, k).0;
      s'.settings == s.settings && s'.flags.exhausted == s.flags.exhausted && s'.refs == s.refs
    decreases MaxInt(0, r.begin + s.settings.connectRetriesTimeoutSec * 1000 + 1 - r.clock(k))
  {
    if s.Guard(r, k) && !s.Try(r.attempts(k)).1 {
      assert r.clock(k + 1) >= r.clock(k) + 1000;
      LoopEnds(s.Try(r.attempts(k)).0, r, k + 1);
    }
  }

  /** The waiting `connect` hangs if and only if the last attempt reached the receiver but saw only
      the stream's capabilities, in time and undisturbed. */
  lemma WaitReleased(s: Source, r: Retries)
    requires r.Timely()
    ensures var (s', n, ok) := s.Loop(r, 0);
      s'.Settle(s.TimedOut(r, n)).WaitOver() <==>
        !(&& !s.flags.exhausted && ok && n > 0 && CapsOnly(BeforeLast(s, r, 0).signal, r.attempts(n - 1), BeforeLast(s, r, 0).recordEnable)
          && !s'.flags.shutdown && !s'.flags.interrupt && !s.TimedOut(r, n))
  {
    var (s', n, ok) := s.Loop(r, 0);
    LoopEnds(s, r, 0);
    assert r.finish(n) >= r.clock(n);
    if ok {
      var before := BeforeLast(s, r, 0);
      CapsOnlyMeans(before.signal, r.attempts(n - 1), before.recordEnable);
      TryReached(before, r.attempts(n - 1));
    }
  }

  /** `connect` waits for ever, after a failed synchronous attempt, in exactly that case. */
  lemma ConnectHangs(s: Source, r: Retries)
    requires r.Timely() && s.settings.connectRetriesTimeoutSec != CONNECT_RETRIES_IMMEDIATELY
    ensures var s0 := s.(flags := s.flags.(interrupt := false, cycleActive := true));
      var (s', n, ok) := s0.Loop(r, 0);
      s.ConnectWithRetries(r).1 == Hangs <==>
        (&& !s.flags.exhausted && ok && n > 0 && CapsOnly(BeforeLast(s0, r, 0).signal, r.attempts(n - 1), BeforeLast(s0, r, 0).recordEnable)
         && !s'.flags.shutdown && !s'.flags.interrupt && !s0.TimedOut(r, n))
  {
    var s0 := s.(flags := s.flags.(interrupt := false, cycleActive := true));
    LoopEnds(s0, r, 0);
    WaitReleased(s0, r);
  }

  lemma TryReached(s: Source, a: Attempt)
    requires s.Try(a).1
    ensures s.Try(a).0.signal == s.signal.Wait(a, s.recordEnable).0 && s.signal.Wait(a, s.recordEnable).1
  {
  }

  // Notifications.

  function Received(heard: seq<Notice>, o: ObserverId): seq<bool> {
    if heard == [] then []
    else
      var n := heard[|heard| - 1];
      Received(heard[..|heard| - 1], o) + if n.observer == o then [n.established] else []
  }

  ghost predicate Alternating(values: seq<bool>) {
    forall i :: 0 <= i < |values| - 1 ==> values[i] != values[i + 1]
  }

  function Count(observers: seq<ObserverId>, o: ObserverId): nat {
    if observers == [] then 0
    else Count(observers[..|observers| - 1], o) + if observers[|observers| - 1] == o then 1 else 0
  }

  /** The step told every registered observer about a change of the signal, and nobody anything else. */
  ghost predicate Tells(s: Signal, s': Signal) {
    s'.heard == s.heard + if s'.present != s.present then Notices(s.observers, s'.present) else []
  }

  /** Connect attempts can only bring the signal up. */
  ghost predicate Rises(s: Signal, s': Signal) {
    Tells(s, s') && s'.observers == s.observers && (s.present ==> s'.present)
  }

  lemma RisesCompose(s: Signal, s1: Signal, s2: Signal)
    requires Rises(s, s1) && Rises(s1, s2)
    ensures Rises(s, s2)
  {
  }

  lemma RisesWait(s: Signal, a: Attempt, recordEnable: bool)
    ensures Rises(s, s.Wait(a, recordEnable).0) && Rises(s, s)
  {
  }

  lemma RisesTry(s: Source, a: Attempt)
    ensures Rises(s.signal, s.Try(a).0.signal)
  {
    RisesWait(s.signal, a, s.recordEnable);
  }

  lemma {:induction false} RisesLoop(s: Source, r: Retries, k: nat)
    requires r.Timely()
    ensures Rises(s.signal, s.Loop(r, k).0.signal)
    decreases MaxInt(0, r.begin + s.settings.connectRetriesTimeoutSec * 1000 + 1 - r.clock(k))
  {
    RisesTry(s, r.attempts(k));
    RisesWait(s.signal, r.attempts(k), s.recordEnable);
    if s.Guard(r, k) && !s.Try(r.attempts(k)).1 {
      assert r.clock(k + 1) >= r.clock(k) + 1000;
      RisesLoop(s.Try(r.attempts(k)).0, r, k + 1);
      RisesCompose(s.signal, s.Try(r.attempts(k)).0.signal, s.Loop(r, k).0.signal);
    }
  }

  lemma RisesRetries(s: Source, r: Retries)
    requires r.Timely()
    ensures Rises(s.signal, s.ConnectWithRetries(r).0.signal)
  {
    RisesLoop(s.(flags := s.flags.(interrupt := false).(cycleActive := true)), r, 0);
    assert s.signal.heard + [] == s.signal.heard;
  }

  lemma RisesConnect(s: Source, st: Settings, direct: Attempt, r: Retries)
    requires r.Timely()
    ensures Rises(s.signal, s.Connect(st, direct, r).0.signal)
  {
    var tried := s.(settings := st).Try(direct);
    RisesTry(s.(settings := st), direct);
    RisesRetries(tried.0, r);
    RisesCompose(s.signal, tried.0.signal, tried.0.ConnectWithRetries(r).0.signal);
    assert s.signal.heard + [] == s.signal.heard;
  }

  datatype Event =
    | StreamStarts
    | StreamStops
    | Crashes
    | Registers(o: ObserverId)
    | Connects(st: Settings, direct: Attempt, r: Retries)
    | Disconnects
    | Retried(a: Attempt)

  /** The clock is monotone and attempts take their second; nothing else is asked of the environment. */
  ghost predicate Legal(e: Event) {
    e.Connects? ==> e.r.Timely()
  }

  ghost function Apply(s: Source, e: Event): Source {
    if !Legal(e) then s else
    match e
    case StreamStarts => s.(signal := s.signal.StreamStart())
    case StreamStops => s.(signal := s.signal.Set(false))
    case Crashes => s.Crash()
    case Registers(o) => s.(signal := s.signal.(observers := s.signal.observers + [o]))
    case Connects(st, direct, r) => s.Connect(st, direct, r).0
    case Disconnects => s.Disconnect()
    case Retried(a) => s.Try(a).0
  }

  lemma TellsStep(s: Source, e: Event)
    ensures Tells(s.signal, Apply(s, e).signal)
    ensures Apply(s, e).signal.observers == if e.Registers? then s.signal.observers + [e.o] else s.signal.observers
  {
    assert s.signal.heard + [] == s.signal.heard;
    match e
    case Connects(st, direct, r) => if r.Timely() { RisesConnect(s, st, direct, r); }
    case Retried(a) => RisesTry(s, a);
    case StreamStarts =>
    case StreamStops =>
    case Crashes =>
    case Registers(_) =>
    case Disconnects =>
  }

  // One observer's view.

  lemma {:induction false} ReceivedNotices(heard: seq<Notice>, observers: seq<ObserverId>, v: bool, o: ObserverId)
    ensures Received(heard + Notices(observers, v), o) == Received(heard, o) + seq(Count(observers, o), _ => v)
  {
    if observers == [] {
      assert heard + Notices(observers, v) == heard;
    } else {
      var n := |observers| - 1;
      var all := heard + Notices(observers, v);
      assert Notices(observers, v) == Notices(observers[..n], v) + [Notice(observers[n], v)];
      assert all[..|all| - 1] == heard + Notices(observers[..n], v);
      ReceivedNotices(heard, observers[..n], v, o);
    }
  }

  /** The last value heard is the current signal. */
  ghost predicate UpToDate(s: Signal, o: ObserverId) {
    var got := Received(s.heard, o);
    && (Count(s.observers, o) == 0 ==> got == [])
    && (got != [] ==> got[|got| - 1] == s.present)
  }

  /** The step does not tell an observer that is registered more than once. */
  ghost predicate ToldOnce(s: Signal, s': Signal, o: ObserverId) {
    s'.present != s.present ==> Count(s.observers, o) <= 1
  }

  lemma CountAppended(observers: seq<ObserverId>, x: ObserverId, o: ObserverId)
    ensures Count(observers + [x], o) == Count(observers, o) + if x == o then 1 else 0
  {
  }

  lemma SignalStep(s: Signal, s': Signal, o: ObserverId)
    requires UpToDate(s, o) && Tells(s, s')
    requires s'.observers == s.observers || exists x :: s'.observers == s.observers + [x]
    ensures UpToDate(s', o)
    ensures Alternating(Received(s.heard, o)) ==> (Alternating(Received(s'.heard, o)) <==> ToldOnce(s, s', o))
  {
    if s'.observers != s.observers {
      var x :| s'.observers == s.observers + [x];
      CountAppended(s.observers, x, o);
    }
    var got := Received(s.heard, o);
    if s'.present != s.present {
      ReceivedNotices(s.heard, s.observers, s'.present, o);
      AppendedValues(got, s'.present, Count(s.observers, o));
    } else {
      assert s.heard + [] == s.heard;
    }
  }

  lemma AppendedValues(got: seq<bool>, v: bool, n: nat)
    requires got != [] ==> got[|got| - 1] != v
    ensures var got' := got + seq(n, _ => v);
      && (Alternating(got) ==> (Alternating(got') <==> n <= 1))
      && (got' != [] && (n > 0 || got == []) ==> got'[|got'| - 1] == v)
  {
    var got' := got + seq(n, _ => v);
    if n >= 2 {
      assert got'[|got|] == got'[|got| + 1];
    }
  }

  ghost function After(s0: Source, es: seq<Event>): Source {
    if es == [] then s0 else Apply(After(s0, es[..|es| - 1]), es[|es| - 1])
  }

  lemma AfterStep(s0: Source, es: seq<Event>, k: nat)
    requires k < |es|
    ensures After(s0, es[..k + 1]) == Apply(After(s0, es[..k]), es[k])
  {
    assert es[..k + 1][..k] == es[..k];
  }

  lemma {:induction false} UpToDateHolds(s0: Source, es: seq<Event>, k: nat, o: ObserverId)
    requires k <= |es| && UpToDate(s0.signal, o)
    ensures UpToDate(After(s0, es[..k]).signal, o)
  {
    if k > 0 {
      UpToDateHolds(s0, es, k - 1, o);
      AfterStep(s0, es, k - 1);
      TellsStep(After(s0, es[..k - 1]), es[k - 1]);
      SignalStep(After(s0, es[..k - 1]).signal, After(s0, es[..k]).signal, o);
    }
  }

  ghost function SignalAfter(recordEnable: bool, es: seq<Event>): Signal {
    After(NewSource(recordEnable), es).signal
  }

  /** What `o` has heard after k steps alternates. */
  ghost predicate AlternatesAt(recordEnable: bool, es: seq<Event>, k: nat, o: ObserverId) {
    k <= |es| && Alternating(Received(SignalAfter(recordEnable, es[..k]).heard, o))
  }

  /** If step k changes the signal, it finds `o` registered at most once. */
  ghost predicate ToldOnceAt(recordEnable: bool, es: seq<Event>, k: nat, o: ObserverId) {
    k < |es| && ToldOnce(SignalAfter(recordEnable, es[..k]), SignalAfter(recordEnable, es[..k + 1]), o)
  }

  lemma AlternatingStep(recordEnable: bool, es: seq<Event>, k: nat, o: ObserverId)
    requires k < |es| && AlternatesAt(recordEnable, es, k, o)
    ensures AlternatesAt(recordEnable, es, k + 1, o) <==> ToldOnceAt(recordEnable, es, k, o)
  {
    var s0 := NewSource(recordEnable);
    UpToDateHolds(s0, es, k, o);
    AfterStep(s0, es, k);
    TellsStep(After(s0, es[..k]), es[k]);
    SignalStep(After(s0, es[..k]).signal, After(s0, es[..k + 1]).signal, o);
  }

  /** Over a whole run, what an observer hears alternates strictly if and only if no change of the
      signal finds it registered twice. */
  lemma NotificationsAlternate(recordEnable: bool, es: seq<Event>, o: ObserverId)
    ensures (forall k: nat :: k <= |es| ==> AlternatesAt(recordEnable, es, k, o)) <==>
      (forall k: nat :: k < |es| ==> ToldOnceAt(recordEnable, es, k, o))
  {
    forall k: nat | k < |es| && AlternatesAt(recordEnable, es, k, o)
      ensures AlternatesAt(recordEnable, es, k + 1, o) <==> ToldOnceAt(recordEnable, es, k, o)
    {
      AlternatingStep(recordEnable, es, k, o);
    }
    var alternates := (k: nat) => AlternatesAt(recordEnable, es, k, o);
    var once := (k: nat) => ToldOnceAt(recordEnable, es, k, o);
    assert After(NewSource(recordEnable), es[..0]) == NewSource(recordEnable);
    HoldsThroughout(alternates, once, |es|);
    assert forall k: nat :: alternates(k) <==> AlternatesAt(recordEnable, es, k, o);
    assert forall k: nat :: once(k) <==> ToldOnceAt(recordEnable, es, k, o);
  }

  /** The last value an observer heard is the current signal. */
  lemma LastHeardIsSignal(recordEnable: bool, es: seq<Event>, o: ObserverId)
    ensures var s := SignalAfter(recordEnable, es);
      var got := Received(s.heard, o);
      got != [] ==> got[|got| - 1] == s.present
  {
    assert es[..|es|] == es;
    UpToDateHolds(NewSource(recordEnable), es, |es|, o);
  }

  /** An observer registered late first hears the negation of the signal it found. */
  lemma {:induction false} FirstHeardIsNegation(s: Source, es: seq<Event>, o: ObserverId)
    requires Count(s.signal.observers, o) > 0 && Received(s.signal.heard, o) == []
    ensures var s' := After(s, es).signal;
      var got := Received(s'.heard, o);
      Count(s'.observers, o) > 0 && if got == [] then s'.present == s.signal.present else got[0] == !s.signal.present
  {
    if es != [] {
      var n := |es| - 1;
      FirstHeardIsNegation(s, es[..n], o);
      var before := After(s, es[..n]);
      TellsStep(before, es[n]);
      FirstHeardStep(before.signal, Apply(before, es[n]).signal, o);
    }
  }

  lemma FirstHeardStep(s: Signal, s': Signal, o: ObserverId)
    requires Tells(s, s') && Count(s.observers, o) > 0
    requires s'.observers == s.observers || exists x :: s'.observers == s.observers + [x]
    ensures Count(s'.observers, o) > 0
    ensures Received(s.heard, o) != [] ==> Received(s'.heard, o) != [] && Received(s'.heard, o)[0] == Received(s.heard, o)[0]
    ensures Received(s.heard, o) == [] ==>
      if s'.present == s.present then Received(s'.heard, o) == []
      else Received(s'.heard, o) != [] && Received(s'.heard, o)[0] == s'.present
  {
    if s'.observers != s.observers {
      var x :| s'.observers == s.observers + [x];
      CountAppended(s.observers, x, o);
    }
    if s'.present != s.present {
      ReceivedNotices(s.heard, s.observers, s'.present, o);
    } else {
      assert s.heard + [] == s.heard;
    }
  }
}
