/** Runs that show the exceptions of the shared sources can be reached. */
module SourcesCounterexamples {
  import opened Common
  import opened VideoSourceModel
  import VideoSourceRuns
  import opened SourcesModel
  import opened SourcesRuns

  /** An observer registered twice hears the first signal twice. */
  lemma TwiceRegistered(recordEnable: bool, o: ObserverId)
    ensures var es := [VideoSourceRuns.Registers(o), VideoSourceRuns.Registers(o), VideoSourceRuns.StreamStarts];
      var got := VideoSourceRuns.Received(VideoSourceRuns.SignalAfter(recordEnable, es).heard, o);
      got == [true, true] && !VideoSourceRuns.Alternating(got)
  {
    var s := NewSource(recordEnable);
    var e := VideoSourceRuns.Registers(o);
    var es := [e, e, VideoSourceRuns.StreamStarts];
    VideoSourceRuns.AfterStep(s, es, 0);
    VideoSourceRuns.AfterStep(s, es, 1);
    VideoSourceRuns.AfterStep(s, es, 2);
    assert es[..0] == [] && es[..3] == es;
    assert VideoSourceRuns.After(s, es[..2]).signal.observers == [o, o];
    var n := Notice(o, true);
    assert VideoSourceRuns.SignalAfter(recordEnable, es).heard == [n, n];
    assert [n][..0] == [] && [n, n][..1] == [n];
    assert VideoSourceRuns.Received([n], o) == [true] && VideoSourceRuns.Received([n, n], o) == [true, true];
    assert [true, true][0] == [true, true][0 + 1];
  }

  /** Every attempt of the cycle meets the same environment, one a second. */
  function Steady(a: Attempt): Retries {
    Retries((k: nat) => a, 0, (k: nat) => 1000 * k, (k: nat) => 1000 * k)
  }

  /** The receiver starts and reports its stream at once. */
  const GOOD := Attempt(true, Linked, BeforeWait, false, false, false)

  /** It starts but never reports; only the capabilities of its stream can be read. */
  const SILENT := Attempt(true, Linked, Never, true, false, false)

  const FAILING := Attempt(false, Linked, Never, false, false, false)

  lemma FirstAttempt(s: Source, a: Attempt)
    requires s.Try(a).1 && s.settings.connectRetriesTimeoutSec >= 0
    requires !s.signal.present && !s.flags.shutdown && !s.flags.interrupt
    ensures Steady(a).Timely() && s.Loop(Steady(a), 0) == (s.Try(a).0, 1, true)
  {
    assert s.Guard(Steady(a), 0);
  }

  /** A connect that waits for ever: the receiver never reports its stream. */
  lemma SilentReceiverHangs(recordEnable: bool, url: Url, timeoutSec: nat)
    requires timeoutSec >= 1
    ensures var s := NewSource(recordEnable).(settings := VideoSourceModel.Settings(url, timeoutSec));
      Steady(SILENT).Timely() && s.ConnectWithRetries(Steady(SILENT)).1 == Hangs
  {
    var s := NewSource(recordEnable).(settings := VideoSourceModel.Settings(url, timeoutSec));
    var s0 := s.(flags := s.flags.(interrupt := false, cycleActive := true));
    FirstAttempt(s0, SILENT);
  }

  lemma RetriesConnect(recordEnable: bool, st: Settings)
    requires UrlValid(st.url) && st.connectRetriesTimeoutSec >= 0
    ensures Steady(GOOD).Timely()
    ensures NewSource(recordEnable).Connect(st, FAILING, Steady(GOOD)).1.Connected?
    ensures !NewSource(recordEnable).(settings := st).Try(FAILING).1
  {
    var s := NewSource(recordEnable).(settings := st);
    var s1 := s.Try(FAILING).0;
    FirstAttempt(s1.(flags := s1.flags.(interrupt := false, cycleActive := true)), GOOD);
  }

  /** A source whose synchronous attempt fails and whose first retry succeeds has no reference: one
      connect is enough to leave the balance. */
  lemma RetriedSource(c: Config, url: Url)
    requires UrlValid(url) && c.retryTimeoutSec >= 0
    ensures var es := [Connect(url, FAILING, Steady(GOOD))];
      Steady(GOOD).Timely() && !DirectAt(c, es, 0) && !BalancedAt(c, es, 1)
  {
    var es := [Connect(url, FAILING, Steady(GOOD))];
    RetriesConnect(c.recordEnable, VideoSourceModel.Settings(url, c.retryTimeoutSec));
    var w := World(Sources([], map[]), map[], []);
    assert es[..0] == [] && es[..1] == es && es[..1][..0] == [];
    assert After(c, es[..0]) == w;
    BalancedStep(c, w, es[0]);
    assert After(c, es) == Apply(c, w, es[0]);
  }
}
