/** The retranslators of the source manager: groups of RTSP servers, one group a source address. */
module RetranslationModel {
  import opened Common

  datatype SourceParameters = SourceParameters(sourceUrl: Url, sensorId: SensorId)

  /** What `operator[]` makes of a missing key. */
  const DEFAULT_SOURCE := SourceParameters("", 0)

  datatype Retranslator = Retranslator(
    sourceUrl: Url,
    listenIp: string,
    serverPort: int,
    udpBegin: int,
    udpEnd: int,
    copyOfSourceParameters: SourceParameters)

  datatype Config = Config(udpRangeBegin: int, udpRangeEnd: int, interfaces: seq<string>)
  {
    /** How many ports of the form begin + 2k the range holds. */
    function Slots(): int {
      if udpRangeEnd < udpRangeBegin then 0 else (udpRangeEnd - udpRangeBegin) / 2 + 1
    }
  }

  /** `died` are the parameters kept for sources that lost their signal. */
  datatype State = State(list: seq<Retranslator>, died: map<Url, SourceParameters>, portCounter: int)
  {
    function Urls(): set<Url> {
      set x | x in list :: x.sourceUrl
    }

    function UdpBegins(): set<int> {
      set x | x in list :: x.udpBegin
    }

    /** The port search: the first of `port`, `port` + 2, ... not in use, or the first beyond the range. */
    function Search(end: int, port: int): int
      decreases MaxInt(0, end + 1 - port)
    {
      if port > end || port !in UdpBegins() then port else Search(end, port + 2)
    }

    /** One server an interface; every one takes a server port, those that start join the list. */
    function Group(c: Config, source: SourceParameters, port: int, starts: seq<bool>, n: nat): seq<Retranslator>
      requires n <= |c.interfaces| == |starts|
    {
      if n == 0 then []
      else
        Group(c, source, port, starts, n - 1) +
        if starts[n - 1]
        then [Retranslator(source.sourceUrl, c.interfaces[n - 1], portCounter + n - 1, port, port + 1, source)]
        else []
    }

    function Create(c: Config, source: SourceParameters, starts: seq<bool>): (State, bool)
      requires |starts| == |c.interfaces|
    {
      if source.sourceUrl in Urls() then (this, false)
      else
        var port := Search(c.udpRangeEnd, c.udpRangeBegin);
        (this.(list := list + Group(c, source, port, starts, |c.interfaces|), portCounter := portCounter + |c.interfaces|), true)
    }

    function Without(url: Url): seq<Retranslator> {
      Dropping(list, url)
    }

    function Stop(url: Url): (State, bool) {
      (this.(list := Without(url)), url in Urls())
    }

    /** The first retranslator of the address is the one whose parameters are kept, if none were. */
    function Lose(url: Url): State {
      if url in Urls() then this.(list := Without(url), died := Inserted(died, url, FirstOf(list, url).copyOfSourceParameters))
      else this
    }

    function Kept(url: Url): SourceParameters {
      if url in died then died[url] else DEFAULT_SOURCE
    }

    function Restore(c: Config, url: Url, starts: seq<bool>): State
      requires |starts| == |c.interfaces|
    {
      if url in Urls() then this
      else this.(died := Inserted(died, url, DEFAULT_SOURCE)).Create(c, Kept(url), starts).0
    }
  }

  function Dropping(list: seq<Retranslator>, url: Url): seq<Retranslator> {
    if list == [] then []
    else (if list[0].sourceUrl == url then [] else [list[0]]) + Dropping(list[1..], url)
  }

  function FirstOf(list: seq<Retranslator>, url: Url): Retranslator
    requires exists x :: x in list && x.sourceUrl == url
  {
    if list[0].sourceUrl == url then list[0] else FirstOf(list[1..], url)
  }

  /** `launched` are the addresses retranslation was asked for and not stopped; `lost` those that lost
      their signal since they were last launched or connected. */
  datatype World = World(s: State, launched: set<Url>, lost: set<Url>)

  datatype Event =
    | Launch(source: SourceParameters, starts: seq<bool>)
    | StopRetranslation(url: Url)
    | SourceLost(url: Url)
    | SourceConnected(url: Url, starts: seq<bool>)

  /** Launches and stops of an empty address are refused. */
  function Apply(c: Config, w: World, e: Event): World {
    match e
    case Launch(source, starts) =>
      if |starts| != |c.interfaces| || source.sourceUrl == "" then w
      else World(w.s.Create(c, source, starts).0, w.launched + {source.sourceUrl}, w.lost - {source.sourceUrl})
    case StopRetranslation(url) => if url == "" then w else World(w.s.Stop(url).0, w.launched - {url}, w.lost)
    case SourceLost(url) => World(w.s.Lose(url), w.launched, w.lost + {url})
    case SourceConnected(url, starts) =>
      if |starts| != |c.interfaces| then w
      else World(w.s.Restore(c, url, starts), w.launched, w.lost - {url})
  }

  function After(c: Config, firstServerPort: int, es: seq<Event>): World {
    if es == [] then World(State([], map[], firstServerPort), {}, {})
    else Apply(c, After(c, firstServerPort, es[..|es| - 1]), es[|es| - 1])
  }

  /** At least one server of a new group starts. */
  predicate SomeStart(c: Config, starts: seq<bool>) {
    |starts| == |c.interfaces| && exists k :: 0 <= k < |starts| && starts[k]
  }

  /** The address for which the step starts servers. */
  function Creates(c: Config, w: World, e: Event): Option<Url> {
    match e
    case Launch(source, starts) =>
      if source.sourceUrl == "" || source.sourceUrl in w.s.Urls() || !SomeStart(c, starts) then None
      else Some(source.sourceUrl)
    case SourceConnected(url, starts) =>
      if url in w.s.Urls() || w.s.Kept(url).sourceUrl in w.s.Urls() || !SomeStart(c, starts) then None
      else Some(w.s.Kept(url).sourceUrl)
    case _ => None
  }
}
