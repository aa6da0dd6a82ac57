/** One shared video source: its receiver process, reference count, retries and signal. */
module VideoSourceModel {
  import opened Common

  type ObserverId = nat

  const CONNECT_RETRIES_IMMEDIATELY := -1

  datatype Settings = Settings(url: Url, connectRetriesTimeoutSec: int)

  datatype ReceiverOp = Launched | TornDown | Crashed

  datatype Notice = Notice(observer: ObserverId, established: bool)

  datatype Link = Linked | SplitterFailed | Unreachable

  /** When the receiver's stream-start event comes, if it comes during the attempt. */
  datatype Arrival = BeforeWait | DuringWait | Never

  /** What the environment does during one connect attempt. */
  datatype Attempt = Attempt(
    launches: bool,
    link: Link,
    arrival: Arrival,
    capsKnown: bool,
    interrupted: bool,
    shutDown: bool)

  predicate UrlValid(url: Url) {
    url != "" && (Contains(url, "http://") || Contains(url, "rtsp://"))
  }

  function Notices(observers: seq<ObserverId>, established: bool): seq<Notice> {
    seq(|observers|, i requires 0 <= i < |observers| => Notice(observers[i], established))
  }

  datatype ConnectResult = Connected | Refused | Hangs

  /** The retry environment: `begin` is the clock when the cycle starts, `clock(k)` when the guard of
      attempt k is (or would be) read, `finish(k)` the reading after a loop of k attempts. */
  datatype Retries = Retries(attempts: nat -> Attempt, begin: int, clock: nat -> int, finish: nat -> int)
  {
    /** A monotone clock, and attempts that sleep at least a second. */
    ghost predicate Timely() {
      && clock(0) >= begin
      && (forall k: nat :: clock(k + 1) >= clock(k) + 1000)
      && (forall k: nat :: finish(k) >= clock(k))
    }
  }

  /** The receiver process and the connection to it; `ops` is its history. */
  datatype Receiver = Receiver(process: bool, communicator: bool, ops: seq<ReceiverOp>)
  {
    function Launch(): Receiver {
      if process then this else Receiver(true, communicator, ops + [Launched])
    }

    /** `launchSourceProcess` and `establishCommunicationWithProcess`. */
    function Reach(a: Attempt): (Receiver, bool) {
      if !process && !a.launches then (this, false)
      else if communicator then (Launch(), true)
      else (Launch().(communicator := !a.link.Unreachable?), a.link.Linked?)
    }

    function Destroy(): Receiver {
      Receiver(false, false, if process then ops + [TornDown] else ops)
    }

    function Crash(): Receiver {
      Receiver(false, false, ops + [Crashed])
    }
  }

  /** The signal of the stream and those who are told about it; `heard` is what they were told. */
  datatype Signal = Signal(streamStartArrived: bool, present: bool, observers: seq<ObserverId>, heard: seq<Notice>)
  {
    function Set(value: bool): Signal {
      if present == value then this
      else this.(present := value, heard := heard + Notices(observers, value))
    }

    function StreamStart(): Signal {
      this.(streamStartArrived := true).Set(true)
    }

    /** The wait for the stream-start event, with the stream's capabilities as a fallback. */
    function Wait(a: Attempt, recordEnable: bool): (Signal, bool) {
      var s := if a.arrival.BeforeWait? then StreamStart() else this;
      if s.present then (s, true)
      else if recordEnable && !s.streamStartArrived && a.arrival.DuringWait? then
        (s.StreamStart().(streamStartArrived := false), true)
      else (s, a.capsKnown)
    }
  }

  datatype Flags = Flags(shutdown: bool, exhausted: bool, cycleActive: bool, interrupt: bool)
  {
    /** What other threads do during an attempt. */
    function Interfered(a: Attempt): Flags {
      this.(interrupt := interrupt || (a.interrupted && cycleActive), shutdown := shutdown || a.shutDown)
    }

    predicate Raised() {
      exhausted || shutdown || interrupt
    }
  }

  datatype Source = Source(
    recordEnable: bool,
    settings: Settings,
    refs: int,
    receiver: Receiver,
    signal: Signal,
    flags: Flags)
  {
    function Try(a: Attempt): (Source, bool) {
      var (receiver', reached) := receiver.Reach(a);
      var (signal', ok) := if reached then signal.Wait(a, recordEnable) else (signal, false);
      (Source(recordEnable, settings, refs, receiver', signal', flags.Interfered(a)), ok)
    }

    predicate Guard(r: Retries, k: nat) {
      && r.clock(k) - r.begin <= settings.connectRetriesTimeoutSec * 1000
      && !signal.present && !flags.shutdown && !flags.interrupt
    }

    /** The attempts loop from attempt k on: the source, the number of attempts, the last one's answer. */
    ghost function Loop(r: Retries, k: nat): (Source, nat, bool)
      requires r.Timely()
      decreases MaxInt(0, r.begin + settings.connectRetriesTimeoutSec * 1000 + 1 - r.clock(k))
    {
      if !Guard(r, k) then (this, k, false)
      else
        var (s, ok) := Try(r.attempts(k));
        if ok then (s, k + 1, true)
        else
          assert r.clock(k + 1) >= r.clock(k) + 1000;
          s.Loop(r, k + 1)
    }

    predicate TimedOut(r: Retries, k: nat) {
      r.finish(k) - r.begin > settings.connectRetriesTimeoutSec * 1000
    }

    /** The end of the cycle: without a signal the receiver is torn down. */
    function Settle(timedOut: bool): Source {
      this.(receiver := if signal.present then receiver else receiver.Destroy(),
            flags := flags.(exhausted := flags.exhausted || timedOut, cycleActive := false))
    }

    ghost function Cycle(r: Retries): Source
      requires r.Timely()
    {
      var (s, k, _) := this.(flags := flags.(cycleActive := true)).Loop(r, 0);
      s.Settle(TimedOut(r, k))
    }

    predicate WaitOver() {
      signal.present || flags.Raised()
    }

    /** The retries of a failed synchronous attempt; they leave the reference count alone. */
    ghost function ConnectWithRetries(r: Retries): (Source, ConnectResult)
      requires r.Timely()
    {
      if settings.connectRetriesTimeoutSec == CONNECT_RETRIES_IMMEDIATELY then (this, Refused)
      else
        var s := this.(flags := flags.(interrupt := false)).Cycle(r);
        (s, if s.signal.present then Connected else if s.WaitOver() then Refused else Hangs)
    }

    ghost function Connect(st: Settings, direct: Attempt, r: Retries): (Source, ConnectResult)
      requires r.Timely()
    {
      if !UrlValid(st.url) then (this, Refused)
      else if receiver.process then (this.(refs := refs + 1), Connected)
      else
        var (s, ok) := this.(settings := st).Try(direct);
        if ok then (s.(refs := s.refs + 1), Connected) else s.ConnectWithRetries(r)
    }

    function Disconnect(): Source {
      var s := this.(flags := flags.(interrupt := flags.interrupt || flags.cycleActive));
      if !receiver.process || refs == 0 then s
      else if !flags.shutdown && refs - 1 > 0 then s.(refs := refs - 1)
      else s.(refs := refs - 1, receiver := receiver.Destroy())
    }

    function Crash(): Source {
      this.(receiver := receiver.Crash(), signal := signal.Set(false))
    }
  }

  function NewSource(recordEnable: bool): Source {
    Source(recordEnable, Settings("", CONNECT_RETRIES_IMMEDIATELY), 0, Receiver(false, false, []),
           Signal(false, false, [], []), Flags(false, false, false, false))
  }
}
