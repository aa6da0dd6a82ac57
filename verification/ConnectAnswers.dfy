/** What `connect` answers, and what it leaves behind. */
module ConnectAnswers {
  import opened Common
  import opened VideoSourceModel
  import opened VideoSourceRuns

  // One attempt.

  /** The attempt reaches the receiver process and its connection. */
  predicate Reached(s: Source, a: Attempt) {
    (s.receiver.process || a.launches) && (s.receiver.communicator || a.link == Linked)
  }

  /** The stream reports its start, before the wait or in it; only a recording source waits. */
  predicate Starts(s: Source, a: Attempt) {
    a.arrival == BeforeWait || (a.arrival == DuringWait && s.recordEnable && !s.signal.streamStartArrived)
  }

  /** The attempt succeeds: with a signal, or without one on the stream's capabilities. */
  predicate Succeeds(s: Source, a: Attempt) {
    Reached(s, a) && (s.signal.present || Starts(s, a) || a.capsKnown)
  }

  lemma TryMeans(s: Source, a: Attempt)
    ensures var (s', ok) := s.Try(a);
      && (ok <==> Succeeds(s, a))
      && (s'.signal.present <==> s.signal.present || (Reached(s, a) && Starts(s, a)))
      && (s'.signal.streamStartArrived <==> s.signal.streamStartArrived || (Reached(s, a) && a.arrival == BeforeWait))
      && (s'.receiver.process <==> s.receiver.process || a.launches)
      && (s'.receiver.communicator <==>
            s.receiver.communicator || ((s.receiver.process || a.launches) && a.link != Unreachable))
      && s'.refs == s.refs && s'.settings == s.settings && s'.recordEnable == s.recordEnable
  {
  }

  lemma TryFlags(s: Source, a: Attempt)
    ensures var flags := s.Try(a).0.flags;
      && (flags.shutdown <==> s.flags.shutdown || a.shutDown)
      && (flags.interrupt <==> s.flags.interrupt || (a.interrupted && s.flags.cycleActive))
      && flags.exhausted == s.flags.exhausted && flags.cycleActive == s.flags.cycleActive
  {
  }

  // The loop.

  /** Another thread ends the loop during attempt `i`. */
  predicate Disturbs(s: Source, a: Attempt) {
    a.shutDown || (a.interrupted && s.flags.cycleActive)
  }

  /** The loop goes on exactly while the time, the signal and the other threads let it, and no attempt
      succeeds. */
  lemma {:induction false} LoopMeans(s: Source, r: Retries, k: nat)
    requires r.Timely()
    ensures var (s', n, ok) := s.Loop(r, k); var timeout := s.settings.connectRetriesTimeoutSec * 1000;
      && n >= k && (ok ==> n > k)
      && (forall i :: k <= i < n ==> r.clock(i) - r.begin <= timeout)
      && (n > k ==> !s.signal.present && !s.flags.shutdown && !s.flags.interrupt)
      && (forall i :: k <= i < n - 1 ==> !Disturbs(s, r.attempts(i)))
      && (!ok ==> r.clock(n) - r.begin > timeout || s'.signal.present || s'.flags.shutdown || s'.flags.interrupt)
      && (!ok ==> s'.signal.present == s.signal.present)
    decreases MaxInt(0, r.begin + s.settings.connectRetriesTimeoutSec * 1000 + 1 - r.clock(k))
  {
    if s.Guard(r, k) {
      var a := r.attempts(k);
      TryMeans(s, a);
      TryFlags(s, a);
      if !Succeeds(s, a) {
        assert r.clock(k + 1) >= r.clock(k) + 1000;
        LoopMeans(s.Try(a).0, r, k + 1);
        LoopNext(s, r, k);
      }
    }
  }

  lemma LoopNext(s: Source, r: Retries, k: nat)
    requires r.Timely() && s.Guard(r, k) && !s.Try(r.attempts(k)).1
    ensures s.Loop(r, k) == s.Try(r.attempts(k)).0.Loop(r, k + 1)
  {
  }

  /** What other threads raised during the attempts stays raised, and nothing else is. */
  lemma {:induction false} LoopFlags(s: Source, r: Retries, k: nat)
    requires r.Timely()
    ensures var (s', n, ok) := s.Loop(r, k);
      && n >= k && s'.flags.exhausted == s.flags.exhausted && s'.flags.cycleActive == s.flags.cycleActive
      && (s'.flags.shutdown <==> s.flags.shutdown || exists i :: k <= i < n && r.attempts(i).shutDown)
      && (s'.flags.interrupt <==> s.flags.interrupt || (s.flags.cycleActive && exists i :: k <= i < n && r.attempts(i).interrupted))
    decreases MaxInt(0, r.begin + s.settings.connectRetriesTimeoutSec * 1000 + 1 - r.clock(k))
  {
    if s.Guard(r, k) {
      TryFlags(s, r.attempts(k));
      if !s.Try(r.attempts(k)).1 {
        assert r.clock(k + 1) >= r.clock(k) + 1000;
        LoopFlags(s.Try(r.attempts(k)).0, r, k + 1);
        LoopNext(s, r, k);
      }
    }
  }

  // The answers.

  /** Retries, where there are any, answer success exactly if the signal is there afterwards; without it
      no receiver and no connection is left, and the answer comes only with a flag raised. */
  lemma RetriesAnswer(s: Source, r: Retries)
    requires r.Timely() && s.settings.connectRetriesTimeoutSec != CONNECT_RETRIES_IMMEDIATELY
    ensures var (s', result) := s.ConnectWithRetries(r);
      && (result == Connected <==> s'.signal.present)
      && (result == Refused <==> !s'.signal.present && (s'.flags.exhausted || s'.flags.shutdown || s'.flags.interrupt))
      && (!s'.signal.present ==> !s'.receiver.process && !s'.receiver.communicator)
      && s'.refs == s.refs && s'.settings == s.settings && !s'.flags.cycleActive
  {
    LoopEnds(s.(flags := s.flags.(interrupt := false, cycleActive := true)), r, 0);
  }

  /** The cycle is marked exhausted exactly if its time was over when the loop had ended. */
  lemma RetriesExhausted(s: Source, r: Retries)
    requires r.Timely() && s.settings.connectRetriesTimeoutSec != CONNECT_RETRIES_IMMEDIATELY
    ensures var n := s.(flags := s.flags.(interrupt := false, cycleActive := true)).Loop(r, 0).1;
      s.ConnectWithRetries(r).0.flags.exhausted <==>
        s.flags.exhausted || r.finish(n) - r.begin > s.settings.connectRetriesTimeoutSec * 1000
  {
    LoopEnds(s.(flags := s.flags.(interrupt := false, cycleActive := true)), r, 0);
  }

  /** Attempts that all fail end in a refusal, whatever ends the loop, and leave no receiver. */
  lemma FailedRetriesRefused(s: Source, r: Retries)
    requires r.Timely() && s.settings.connectRetriesTimeoutSec != CONNECT_RETRIES_IMMEDIATELY && !s.signal.present
    requires !s.(flags := s.flags.(interrupt := false, cycleActive := true)).Loop(r, 0).2
    ensures s.ConnectWithRetries(r).1 == Refused && !s.ConnectWithRetries(r).0.receiver.process
  {
    var s0 := s.(flags := s.flags.(interrupt := false, cycleActive := true));
    var (s', n, ok) := s0.Loop(r, 0);
    LoopEnds(s0, r, 0);
    LoopMeans(s0, r, 0);
    assert r.finish(n) >= r.clock(n);
    RetriesAnswer(s, r);
    RetriesExhausted(s, r);
  }

  lemma {:induction false} NeverLaunchedFails(s: Source, r: Retries, k: nat)
    requires r.Timely() && !s.receiver.process && forall i: nat :: !r.attempts(i).launches
    ensures !s.Loop(r, k).2
    decreases MaxInt(0, r.begin + s.settings.connectRetriesTimeoutSec * 1000 + 1 - r.clock(k))
  {
    if s.Guard(r, k) {
      TryMeans(s, r.attempts(k));
      assert r.clock(k + 1) >= r.clock(k) + 1000;
      NeverLaunchedFails(s.Try(r.attempts(k)).0, r, k + 1);
      LoopNext(s, r, k);
    }
  }

  /** A source whose receiver never launches is refused. */
  lemma NeverLaunchedRefused(s: Source, st: Settings, direct: Attempt, r: Retries)
    requires r.Timely() && !s.receiver.process && !s.signal.present
    requires !direct.launches && forall i: nat :: !r.attempts(i).launches
    ensures s.Connect(st, direct, r).1 == Refused && !s.Connect(st, direct, r).0.receiver.process
  {
    var s1 := s.(settings := st).Try(direct).0;
    TryMeans(s.(settings := st), direct);
    if UrlValid(st.url) && st.connectRetriesTimeoutSec != CONNECT_RETRIES_IMMEDIATELY {
      NeverLaunchedFails(s1.(flags := s1.flags.(interrupt := false, cycleActive := true)), r, 0);
      FailedRetriesRefused(s1, r);
    }
  }

  /** The address can be connected to. */
  ghost predicate Addressable(url: Url) {
    url != "" && (Contains(url, "http://") || Contains(url, "rtsp://"))
  }

  /** `connect` answers success exactly for an address it accepts with a running receiver, a synchronous
      success, or a signal after its retries; it counts a reference in the first two cases only. */
  lemma ConnectAnswer(s: Source, st: Settings, direct: Attempt, r: Retries)
    requires r.Timely()
    ensures var (s', result) := s.Connect(st, direct, r); var first := s.receiver.process || Succeeds(s, direct);
      && (result == Connected <==>
            Addressable(st.url) && (first || (st.connectRetriesTimeoutSec != CONNECT_RETRIES_IMMEDIATELY && s'.signal.present)))
      && s'.refs == s.refs + (if Addressable(st.url) && first then 1 else 0)
      && s'.settings == (if Addressable(st.url) && !s.receiver.process then st else s.settings)
      && (!Addressable(st.url) ==> s' == s && result == Refused)
  {
    TryMeans(s.(settings := st), direct);
    var s1 := s.(settings := st).Try(direct).0;
    if Addressable(st.url) && !s.receiver.process && !Succeeds(s, direct) && st.connectRetriesTimeoutSec != CONNECT_RETRIES_IMMEDIATELY {
      RetriesAnswer(s1, r);
    }
  }

  // Disconnects and crashes.

  /** A disconnect ends the retries in progress; it takes a reference off a running receiver, and the last
      one, or any during the shutdown, takes the receiver. */
  lemma DisconnectLeaves(s: Source)
    ensures var s' := s.Disconnect();
      && s'.refs == (if s.receiver.process && s.refs != 0 then s.refs - 1 else s.refs)
      && (s'.receiver.process <==> s.receiver.process && (s.refs == 0 || (s.refs > 1 && !s.flags.shutdown)))
      && (s'.receiver == s.receiver || (!s'.receiver.process && !s'.receiver.communicator))
      && s'.signal == s.signal && s'.settings == s.settings
    ensures s.flags.cycleActive ==> forall r: Retries, k: nat :: !s.Disconnect().Guard(r, k)
    ensures !s.flags.cycleActive ==> s.Disconnect().flags == s.flags
  {
  }

  /** A crashed receiver is not running and its signal is gone, so the next connect that succeeds at once
      has launched a new one. */
  lemma CrashedLaunchesAgain(s: Source, st: Settings, direct: Attempt, r: Retries)
    requires r.Timely() && Addressable(st.url) && Succeeds(s.Crash(), direct)
    ensures !s.Crash().receiver.process && !s.Crash().receiver.communicator && !s.Crash().signal.present
    ensures var (s', result) := s.Crash().Connect(st, direct, r);
      result == Connected && s'.receiver == Receiver(true, true, s.receiver.ops + [Crashed] + [Launched])
  {
    TryMeans(s.Crash().(settings := st), direct);
  }

  // The receiver's history.

  /** The receiver runs exactly after a launch, and is launched only when it does not. */
  ghost predicate OpsOk(receiver: Receiver) {
    var ops := receiver.ops;
    && (receiver.process <==> ops != [] && ops[|ops| - 1] == Launched)
    && (receiver.communicator ==> receiver.process)
    && forall i :: 0 < i < |ops| && ops[i] == Launched ==> ops[i - 1] != Launched
  }

  lemma OpsTry(s: Source, a: Attempt)
    requires OpsOk(s.receiver)
    ensures OpsOk(s.Try(a).0.receiver)
  {
  }

  lemma {:induction false} OpsLoop(s: Source, r: Retries, k: nat)
    requires r.Timely() && OpsOk(s.receiver)
    ensures OpsOk(s.Loop(r, k).0.receiver)
    decreases MaxInt(0, r.begin + s.settings.connectRetriesTimeoutSec * 1000 + 1 - r.clock(k))
  {
    OpsTry(s, r.attempts(k));
    if s.Guard(r, k) && !s.Try(r.attempts(k)).1 {
      assert r.clock(k + 1) >= r.clock(k) + 1000;
      OpsLoop(s.Try(r.attempts(k)).0, r, k + 1);
    }
  }

  lemma OpsConnect(s: Source, st: Settings, direct: Attempt, r: Retries)
    requires r.Timely() && OpsOk(s.receiver)
    ensures OpsOk(s.Connect(st, direct, r).0.receiver)
  {
    OpsTry(s.(settings := st), direct);
    var s1 := s.(settings := st).Try(direct).0;
    OpsLoop(s1.(flags := s1.flags.(interrupt := false).(cycleActive := true)), r, 0);
  }

  lemma OpsStep(s: Source, e: Event)
    requires OpsOk(s.receiver)
    ensures OpsOk(Apply(s, e).receiver)
  {
    match e
    case Connects(st, direct, r) => if r.Timely() { OpsConnect(s, st, direct, r); }
    case Retried(a) => OpsTry(s, a);
    case StreamStarts =>
    case StreamStops =>
    case Crashes =>
    case Registers(_) =>
    case Disconnects =>
  }

  /** Over every run the receiver runs exactly if it was launched last, every launch finds it not
      running, and only a running one has a connection. */
  lemma {:induction false} ReceiverHistory(recordEnable: bool, es: seq<Event>)
    ensures OpsOk(After(NewSource(recordEnable), es).receiver)
  {
    if es != [] {
      ReceiverHistory(recordEnable, es[..|es| - 1]);
      OpsStep(After(NewSource(recordEnable), es[..|es| - 1]), es[|es| - 1]);
    }
  }
}
