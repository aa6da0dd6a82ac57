/** The shared source as an object: one field for each that the connect logic reads or writes. */
module VideoSource {
  import opened Common
  import opened VideoSourceModel

  class VideoSourceRemote2 {
    const recordEnable: bool
    var settings: Settings
    var referenceCounter: int
    var processRunning: bool
    var communicatorPresent: bool
    var streamStartEventArrived: bool
    var signalExist: bool
    var shutdownCalled: bool
    var attemptsExhausted: bool
    var attemptsCycleActive: bool
    var interruptAttempts: bool
    var observers: seq<ObserverId>
    var receiverOps: seq<ReceiverOp>
    ghost var heard: seq<Notice>

    ghost function Model(): Source
      reads this
    {
      Source(recordEnable, settings, referenceCounter,
             Receiver(processRunning, communicatorPresent, receiverOps),
             Signal(streamStartEventArrived, signalExist, observers, heard),
             Flags(shutdownCalled, attemptsExhausted, attemptsCycleActive, interruptAttempts))
    }

    constructor (recordEnable: bool)
      ensures Model() == NewSource(recordEnable)
    {
      this.recordEnable := recordEnable;
      settings := Settings("", CONNECT_RETRIES_IMMEDIATELY);
      referenceCounter := 0;
      processRunning, communicatorPresent := false, false;
      streamStartEventArrived, signalExist := false, false;
      shutdownCalled, attemptsExhausted, attemptsCycleActive, interruptAttempts := false, false, false, false;
      observers, receiverOps, heard := [], [], [];
    }

    method AddObserver(o: ObserverId)
      modifies `observers
      ensures observers == old(observers) + [o]
    {
      observers := observers + [o];
    }

    /** The notification loop of the three callbacks that change the signal. */
    method SetSignal(value: bool)
      modifies `signalExist, `heard
      ensures Model() == old(Model()).(signal := old(Model()).signal.Set(value))
    {
      if signalExist == value {
        return;
      }
      signalExist := value;
      for i := 0 to |observers|
        invariant heard == old(heard) + Notices(observers[..i], value)
      {
        heard := heard + [Notice(observers[i], value)];
        assert Notices(observers[..i + 1], value) == Notices(observers[..i], value) + [Notice(observers[i], value)];
      }
      assert observers[..|observers|] == observers;
    }

    method OnStreamStart()
      modifies this
      ensures Model() == old(Model()).(signal := old(Model()).signal.StreamStart())
    {
      streamStartEventArrived := true;
      SetSignal(true);
    }

    method OnStreamStop()
      modifies `signalExist, `heard
      ensures Model() == old(Model()).(signal := old(Model()).signal.Set(false))
    {
      SetSignal(false);
    }

    /** A crash of another source's process is ignored. */
    method CallbackProcessCrashed(sourceUrl: Url) returns (retry: bool)
      modifies this
      ensures var mine := sourceUrl != "" && sourceUrl == old(settings).url;
        && Model() == (if mine then old(Model()).Crash() else old(Model()))
        && retry == (mine && !shutdownCalled && !attemptsCycleActive
                     && settings.connectRetriesTimeoutSec != CONNECT_RETRIES_IMMEDIATELY)
    {
      if sourceUrl == "" || sourceUrl != settings.url {
        return false;
      }
      communicatorPresent := false;
      processRunning := false;
      receiverOps := receiverOps + [Crashed];
      SetSignal(false);
      return !shutdownCalled && !attemptsCycleActive && settings.connectRetriesTimeoutSec != CONNECT_RETRIES_IMMEDIATELY;
    }

    method LaunchSourceProcess(launches: bool) returns (ok: bool)
      modifies `processRunning, `receiverOps
      ensures ok <==> old(processRunning) || launches
      ensures Model().receiver == if ok then old(Model()).receiver.Launch() else old(Model()).receiver
      ensures Model() == old(Model()).(receiver := Model().receiver)
    {
      if processRunning {
        return true;
      }
      if !launches {
        return false;
      }
      processRunning := true;
      receiverOps := receiverOps + [Launched];
      return true;
    }

    method EstablishCommunicationWithProcess(link: Link) returns (ok: bool)
      modifies `communicatorPresent
      ensures communicatorPresent == (old(communicatorPresent) || !link.Unreachable?)
      ensures ok <==> old(communicatorPresent) || link.Linked?
    {
      if communicatorPresent {
        return true;
      }
      if link.Unreachable? {
        return false;
      }
      communicatorPresent := true;
      return link.Linked?;
    }

    method WaitForStreamStartEvent(a: Attempt) returns (ok: bool)
      modifies this
      ensures var (signal', ok') := old(Model()).signal.Wait(a, recordEnable);
        Model() == old(Model()).(signal := signal') && ok == ok'
    {
      if a.arrival.BeforeWait? {
        OnStreamStart();
      }
      if signalExist {
        return true;
      }
      if recordEnable && !streamStartEventArrived {
        if a.arrival.DuringWait? {
          OnStreamStart();
          streamStartEventArrived := false;
          return true;
        }
      }
      return a.capsKnown;
    }

    method ReachReceiver(a: Attempt) returns (ok: bool)
      modifies `processRunning, `receiverOps, `communicatorPresent
      ensures var (receiver', ok') := old(Model()).receiver.Reach(a);
        Model() == old(Model()).(receiver := receiver') && ok == ok'
    {
      ok := LaunchSourceProcess(a.launches);
      if ok {
        ok := EstablishCommunicationWithProcess(a.link);
      }
    }

    /** The effect of other threads during an attempt. */
    method Interfere(a: Attempt)
      modifies `interruptAttempts, `shutdownCalled
      ensures Model() == old(Model()).(flags := old(Model()).flags.Interfered(a))
    {
      interruptAttempts := interruptAttempts || (a.interrupted && attemptsCycleActive);
      shutdownCalled := shutdownCalled || a.shutDown;
    }

    method MakeConnectAttempt(a: Attempt) returns (ok: bool)
      modifies this
      ensures (Model(), ok) == old(Model()).Try(a)
    {
      ok := ReachReceiver(a);
      if ok {
        ok := WaitForStreamStartEvent(a);
      }
      Interfere(a);
    }

    method AttemptsCycle(r: Retries)
      requires r.Timely()
      modifies this
      ensures Model() == old(Model()).Cycle(r)
    {
      attemptsCycleActive := true;
      var k := RepeatAttempts(r);
      if r.finish(k) - r.begin > settings.connectRetriesTimeoutSec * 1000 {
        attemptsExhausted := true;
      }
      if !signalExist {
        DestroyResources();
      }
      attemptsCycleActive := false;
    }

    /** The timed loop; `k` is the number of attempts made. */
    method RepeatAttempts(r: Retries) returns (k: nat)
      requires r.Timely()
      modifies this
      ensures Model() == old(Model()).Loop(r, 0).0 && k == old(Model()).Loop(r, 0).1
      ensures settings == old(settings)
    {
      ghost var m := Model();
      k := 0;
      var timeout := settings.connectRetriesTimeoutSec * 1000;
      while r.clock(k) - r.begin <= timeout && !signalExist && !shutdownCalled && !interruptAttempts
        invariant Model().settings == m.settings
        invariant m.Loop(r, 0) == Model().Loop(r, k)
        decreases MaxInt(0, r.begin + timeout + 1 - r.clock(k))
      {
        LoopTurn(Model(), r, k);
        var ok := MakeConnectAttempt(r.attempts(k));
        k := k + 1;
        if ok {
          return;
        }
      }
    }

    /** The busy wait for the retries becomes the answer `Hangs` when no flag can end it. */
    method Connect(st: Settings, direct: Attempt, r: Retries) returns (result: ConnectResult)
      requires r.Timely()
      modifies this
      ensures (Model(), result) == old(Model()).Connect(st, direct, r)
    {
      if !UrlValid(st.url) {
        return Refused;
      }
      if processRunning {
        referenceCounter := referenceCounter + 1;
        return Connected;
      }
      settings := st;
      var ok := MakeConnectAttempt(direct);
      if ok {
        referenceCounter := referenceCounter + 1;
        return Connected;
      }
      result := ConnectWithRetries(r);
    }

    method ConnectWithRetries(r: Retries) returns (result: ConnectResult)
      requires r.Timely()
      modifies this
      ensures (Model(), result) == old(Model()).ConnectWithRetries(r)
    {
      if settings.connectRetriesTimeoutSec == CONNECT_RETRIES_IMMEDIATELY {
        return Refused;
      }
      interruptAttempts := false;
      AttemptsCycle(r);
      if signalExist {
        return Connected;
      }
      if attemptsExhausted || shutdownCalled || interruptAttempts {
        return Refused;
      }
      return Hangs;
    }

    method Disconnect()
      modifies this
      ensures Model() == old(Model()).Disconnect()
    {
      if attemptsCycleActive {
        interruptAttempts := true;
      }
      if !processRunning || referenceCounter == 0 {
        return;
      }
      referenceCounter := referenceCounter - 1;
      if !shutdownCalled && referenceCounter > 0 {
        return;
      }
      DestroyResources();
    }

    method DestroyResources()
      modifies `communicatorPresent, `processRunning, `receiverOps
      ensures Model() == old(Model()).(receiver := old(Model()).receiver.Destroy())
    {
      communicatorPresent := false;
      if processRunning {
        receiverOps := receiverOps + [TornDown];
      }
      processRunning := false;
    }
  }

  /** One turn of the attempts loop. */
  lemma LoopTurn(s: Source, r: Retries, k: nat)
    requires r.Timely() && s.Guard(r, k)
    ensures var (s', ok) := s.Try(r.attempts(k));
      && s'.settings == s.settings && r.clock(k + 1) >= r.clock(k) + 1000
      && s.Loop(r, k) == if ok then (s', k + 1, true) else s'.Loop(r, k + 1)
  {
  }
}
