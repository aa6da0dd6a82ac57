/** The source manager's shared sources: one entry a source address, counted by its consumers. */
module SourcesModel {
  import opened Common
  import opened VideoSourceModel

  /** `transition` keeps the sources whose connect has not succeeded. */
  datatype Sources = Sources(list: seq<Source>, transition: map<Url, Source>)
  {
    function IndexOf(url: Url, i: nat): nat
      requires i <= |list|
      ensures i <= IndexOf(url, i) <= |list|
      decreases |list| - i
    {
      if i == |list| || list[i].settings.url == url then i else IndexOf(url, i + 1)
    }

    predicate Has(url: Url) {
      IndexOf(url, 0) < |list|
    }

    /** An existing entry is asked to connect again, and its answer is ignored. */
    ghost function Reconnect(url: Url, direct: Attempt, r: Retries): Sources
      requires r.Timely() && Has(url)
    {
      var i := IndexOf(url, 0);
      this.(list := list[i := list[i].Connect(list[i].settings, direct, r).0])
    }

    ghost function ConnectSource(recordEnable: bool, st: Settings, direct: Attempt, r: Retries): (Sources, bool)
      requires r.Timely()
    {
      if st.url == "" then (this, false)
      else if Has(st.url) then (Reconnect(st.url, direct, r), true)
      else
        var (s, result) := NewSource(recordEnable).Connect(st, direct, r);
        (Stored(st.url, s, result.Connected?), result.Connected?)
    }

    /** A connected source joins the list, another stays in transition. */
    function Stored(url: Url, s: Source, connected: bool): Sources {
      if connected then Sources(list + [s], transition - {url}) else this.(transition := Inserted(transition, url, s))
    }

    /** Connects the source and watches it, if it connects. */
    ghost function ConnectWatched(recordEnable: bool, st: Settings, o: ObserverId, direct: Attempt, r: Retries): (Sources, bool)
      requires r.Timely()
    {
      var (m, ok) := ConnectSource(recordEnable, st, direct, r);
      (if ok then m.(list := AllWatched(m.list, st.url, o)) else m, ok)
    }

    function DisconnectSource(url: Url): (Sources, bool) {
      if url == "" then (this, false)
      else (Sources(Kept(list, url), transition - {url}), true)
    }
  }

  /** The loop of `disconnectSource`: entries of the address lose a reference, and go when it was the last. */
  function Kept(list: seq<Source>, url: Url): seq<Source> {
    if list == [] then []
    else
      var s := list[0];
      var rest := Kept(list[1..], url);
      if s.settings.url != url then [s] + rest
      else if s.Disconnect().refs == 0 then rest
      else [s.Disconnect()] + rest
  }

  function Dropped(list: seq<Source>, url: Url): seq<Source> {
    if list == [] then []
    else
      var s := list[0];
      (if s.settings.url == url && s.Disconnect().refs == 0 then [s.Disconnect()] else []) + Dropped(list[1..], url)
  }

  /** `addSourceObserver`: every entry of the address tells the observer, too. */
  function Watched(s: Source, url: Url, o: ObserverId): Source {
    if s.settings.url == url then s.(signal := s.signal.(observers := s.signal.observers + [o])) else s
  }

  function AllWatched(list: seq<Source>, url: Url, o: ObserverId): seq<Source> {
    seq(|list|, i requires 0 <= i < |list| => Watched(list[i], url, o))
  }

  /** `gone` are the entries that left the list; `balance` is connects minus effective disconnects. */
  datatype World = World(m: Sources, balance: map<Url, int>, gone: seq<Source>)

  function Balance(w: World, url: Url): int {
    if url in w.balance then w.balance[url] else 0
  }

  datatype Event =
    | Connect(url: Url, direct: Attempt, r: Retries)
    | Disconnect(url: Url)

  /** The configuration: is recording on, and for how long are connects retried. */
  datatype Config = Config(recordEnable: bool, retryTimeoutSec: int)

  /** A source is not shut down while it is being connected. */
  ghost predicate Legal(e: Event) {
    e.Connect? ==> e.r.Timely() && !e.direct.shutDown
  }

  ghost function Apply(c: Config, w: World, e: Event): World {
    if !Legal(e) then w else
    match e
    case Connect(url, direct, r) =>
      var (m, ok) := w.m.ConnectSource(c.recordEnable, VideoSourceModel.Settings(url, c.retryTimeoutSec), direct, r);
      World(m, if ok then w.balance[url := Balance(w, url) + 1] else w.balance, w.gone)
    case Disconnect(url) =>
      if url == "" then w
      else
        World(w.m.DisconnectSource(url).0,
              if w.m.Has(url) then w.balance[url := Balance(w, url) - 1] else w.balance,
              w.gone + Dropped(w.m.list, url))
  }

  ghost function After(c: Config, es: seq<Event>): World {
    if es == [] then World(Sources([], map[]), map[], []) else Apply(c, After(c, es[..|es| - 1]), es[|es| - 1])
  }

  /** An entry made by this step was connected by the synchronous attempt, not through retries. */
  ghost predicate FirstConnectDirect(c: Config, w: World, e: Event) {
    Legal(e) && e.Connect? && e.url != "" && !w.m.Has(e.url) ==>
      var st := VideoSourceModel.Settings(e.url, c.retryTimeoutSec);
      NewSource(c.recordEnable).Connect(st, e.direct, e.r).1.Connected? ==> NewSource(c.recordEnable).(settings := st).Try(e.direct).1
  }

  ghost predicate EntryOk(s: Source, balance: int) {
    s.refs == balance && balance > 0 && s.receiver == Receiver(true, true, [Launched]) && !s.flags.shutdown
    && UrlValid(s.settings.url)
  }

  /** One entry for each address in use, counting its consumers; one launch and one teardown an episode. */
  ghost predicate Balanced(w: World) {
    && (forall i :: 0 <= i < |w.m.list| ==> EntryOk(w.m.list[i], Balance(w, w.m.list[i].settings.url)))
    && (forall i, j :: 0 <= i < j < |w.m.list| ==> w.m.list[i].settings.url != w.m.list[j].settings.url)
    && (forall url :: Balance(w, url) != 0 ==> w.m.Has(url))
    && (forall s :: s in w.gone ==> s.receiver.ops == [Launched, TornDown])
  }
}
