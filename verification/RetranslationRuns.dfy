/** Ports of the retranslators, and the composition of loss and restore. */
module RetranslationRuns {
  import opened Common
  import opened RetranslationModel

  // The port search.

  lemma {:induction false} SearchFinds(s: State, end: int, port: int)
    ensures var p := s.Search(end, port);
      && p >= port && (p - port) % 2 == 0
      && (p <= end ==> p !in s.UdpBegins())
      && (forall q :: port <= q < p && (q - port) % 2 == 0 ==> q in s.UdpBegins() && q <= end)
      && p <= MaxInt(port, end + 2)
    decreases MaxInt(0, end + 1 - port)
  {
    if port <= end && port in s.UdpBegins() {
      SearchFinds(s, end, port + 2);
      forall q | port <= q < s.Search(end, port) && (q - port) % 2 == 0 ensures q in s.UdpBegins() && q <= end {
        assert q == port || (q >= port + 2 && (q - (port + 2)) % 2 == 0);
      }
    }
  }

  /** The n ports begin, begin + 2, ... */
  function Ports(begin: int, n: nat): set<int> {
    if n == 0 then {} else Ports(begin, n - 1) + {begin + 2 * (n - 1)}
  }

  lemma {:induction false} PortsMember(begin: int, n: nat, p: int)
    requires begin <= p < begin + 2 * n && (p - begin) % 2 == 0
    ensures p in Ports(begin, n)
  {
    if p != begin + 2 * (n - 1) {
      PortsMember(begin, n - 1, p);
    }
  }

  lemma {:induction false} PortsCount(begin: int, n: nat)
    ensures |Ports(begin, n)| == n
    ensures forall p :: p in Ports(begin, n) ==> begin <= p < begin + 2 * n && (p - begin) % 2 == 0
  {
    if n > 0 {
      PortsCount(begin, n - 1);
      assert begin + 2 * (n - 1) !in Ports(begin, n - 1);
    }
  }

  lemma SubsetSize<T>(a: set<T>, b: set<T>)
    requires a <= b
    ensures |a| <= |b|
  {
    assert b == a + (b - a);
  }

  /** Two retranslators share a port pair exactly when they serve the same address. */
  ghost predicate PortsByUrl(list: seq<Retranslator>) {
    forall x, y :: x in list && y in list ==> (x.udpBegin == y.udpBegin <==> x.sourceUrl == y.sourceUrl)
  }

  ghost predicate PairsInRange(c: Config, list: seq<Retranslator>) {
    forall x :: x in list ==>
      && c.udpRangeBegin <= x.udpBegin <= c.udpRangeEnd && (x.udpBegin - c.udpRangeBegin) % 2 == 0
      && x.udpEnd == x.udpBegin + 1 && x.copyOfSourceParameters.sourceUrl == x.sourceUrl
  }

  ghost predicate ServerPortsOk(list: seq<Retranslator>, counter: int) {
    && (forall i :: 0 <= i < |list| ==> list[i].serverPort < counter)
    && (forall i, j :: 0 <= i < j < |list| ==> list[i].serverPort < list[j].serverPort)
  }

  /** A port for each address. */
  function PortOf(list: seq<Retranslator>, url: Url): int {
    if list == [] then 0 else if list[0].sourceUrl == url then list[0].udpBegin else PortOf(list[1..], url)
  }

  lemma {:induction false} PortOfIn(list: seq<Retranslator>, url: Url)
    requires exists x :: x in list && x.sourceUrl == url
    ensures exists x :: x in list && x.sourceUrl == url && x.udpBegin == PortOf(list, url)
  {
    if list[0].sourceUrl != url {
      assert list == [list[0]] + list[1..];
      PortOfIn(list[1..], url);
    }
  }

  /** The distinct ports in use are as many as the addresses. */
  lemma UsedPortsCount(s: State)
    requires PortsByUrl(s.list)
    ensures |s.UdpBegins()| == |s.Urls()|
  {
    forall p | p in s.UdpBegins() ensures p in ImageOf(s, s.Urls()) {
      var x :| x in s.list && x.udpBegin == p;
      PortOfIn(s.list, x.sourceUrl);
      assert x.sourceUrl in s.Urls();
    }
    forall u | u in s.Urls() ensures PortOf(s.list, u) in s.UdpBegins() {
      PortOfIn(s.list, u);
    }
    assert s.UdpBegins() == ImageOf(s, s.Urls());
    ImageSize(s, s.Urls());
  }

  function ImageOf(s: State, urls: set<Url>): set<int> {
    set u | u in urls :: PortOf(s.list, u)
  }

  lemma PortOfInjective(s: State, u: Url, v: Url)
    requires PortsByUrl(s.list) && u in s.Urls() && v in s.Urls() && PortOf(s.list, u) == PortOf(s.list, v)
    ensures u == v
  {
    PortOfIn(s.list, u);
    PortOfIn(s.list, v);
  }

  lemma {:induction false} ImageSize(s: State, urls: set<Url>)
    requires PortsByUrl(s.list) && urls <= s.Urls()
    ensures |ImageOf(s, urls)| == |urls|
    decreases urls
  {
    if u :| u in urls {
      ImageSize(s, urls - {u});
      forall v | v in urls - {u} ensures PortOf(s.list, v) != PortOf(s.list, u) {
        if PortOf(s.list, v) == PortOf(s.list, u) {
          PortOfInjective(s, u, v);
        }
      }
      assert PortOf(s.list, u) !in ImageOf(s, urls - {u});
      assert ImageOf(s, urls) == ImageOf(s, urls - {u}) + {PortOf(s.list, u)};
    }
  }

  /** The search ends inside the range if and only if fewer addresses than slots are retranslated; then
      it ends at the least free port of the form begin + 2k. */
  lemma SearchInRange(c: Config, s: State)
    requires PortsByUrl(s.list) && PairsInRange(c, s.list)
    ensures var p := s.Search(c.udpRangeEnd, c.udpRangeBegin);
      && (p <= c.udpRangeEnd <==> |s.Urls()| < c.Slots())
      && c.udpRangeBegin <= p && (p - c.udpRangeBegin) % 2 == 0 && (p <= c.udpRangeEnd ==> p !in s.UdpBegins())
      && forall q :: c.udpRangeBegin <= q < p && (q - c.udpRangeBegin) % 2 == 0 ==> q in s.UdpBegins()
  {
    SearchFinds(s, c.udpRangeEnd, c.udpRangeBegin);
    UsedPortsCount(s);
    PortsCount(c.udpRangeBegin, c.Slots());
    var p := s.Search(c.udpRangeEnd, c.udpRangeBegin);
    if p > c.udpRangeEnd {
      AllSlotsUsed(c, s, p);
    } else {
      FreeSlot(c, s, p);
    }
  }

  lemma AllSlotsUsed(c: Config, s: State, p: int)
    requires p > c.udpRangeEnd
    requires forall q :: c.udpRangeBegin <= q < p && (q - c.udpRangeBegin) % 2 == 0 ==> q in s.UdpBegins()
    ensures c.Slots() <= |s.UdpBegins()|
  {
    var n := c.Slots();
    PortsCount(c.udpRangeBegin, n);
    forall q | q in Ports(c.udpRangeBegin, n) ensures q in s.UdpBegins() {
      assert q < p;
    }
    SubsetSize(Ports(c.udpRangeBegin, n), s.UdpBegins());
  }

  lemma FreeSlot(c: Config, s: State, p: int)
    requires PairsInRange(c, s.list) && c.udpRangeBegin <= p <= c.udpRangeEnd && (p - c.udpRangeBegin) % 2 == 0
    requires p !in s.UdpBegins()
    ensures |s.UdpBegins()| < c.Slots()
  {
    var n := c.Slots();
    PortsCount(c.udpRangeBegin, n);
    PortsMember(c.udpRangeBegin, n, p);
    forall q | q in s.UdpBegins() ensures q in Ports(c.udpRangeBegin, n) - {p} {
      PortsMember(c.udpRangeBegin, n, q);
    }
    SubsetSize(s.UdpBegins(), Ports(c.udpRangeBegin, n) - {p});
  }

  // Membership in the edited lists.

  lemma {:induction false} DroppingMembers(list: seq<Retranslator>, url: Url)
    ensures forall x :: x in Dropping(list, url) ==> x in list && x.sourceUrl != url
    ensures forall x :: x in list && x.sourceUrl != url ==> x in Dropping(list, url)
  {
    if list != [] {
      DroppingMembers(list[1..], url);
      assert list == [list[0]] + list[1..];
    }
  }

  lemma {:induction false} DroppingServerPorts(list: seq<Retranslator>, url: Url, counter: int)
    requires ServerPortsOk(list, counter)
    ensures ServerPortsOk(Dropping(list, url), counter)
    ensures forall i :: 0 <= i < |Dropping(list, url)| ==> list != [] && list[0].serverPort <= Dropping(list, url)[i].serverPort
  {
    if list != [] {
      DroppingServerPorts(list[1..], url, counter);
      if |list| > 1 {
        assert list[1..][0].serverPort == list[1].serverPort > list[0].serverPort;
      }
    }
  }

  lemma {:induction false} GroupMembers(s: State, c: Config, source: SourceParameters, port: int, starts: seq<bool>, n: nat)
    requires n <= |c.interfaces| == |starts|
    ensures var g := s.Group(c, source, port, starts, n);
      && (forall x :: x in g ==> x.sourceUrl == source.sourceUrl && x.copyOfSourceParameters == source)
      && (forall x :: x in g ==> x.udpBegin == port && x.udpEnd == port + 1)
      && (forall i :: 0 <= i < |g| ==> s.portCounter <= g[i].serverPort < s.portCounter + n)
      && (forall i, j :: 0 <= i < j < |g| ==> g[i].serverPort < g[j].serverPort)
      && (g != [] <==> exists k :: 0 <= k < n && starts[k])
  {
    if n > 0 {
      GroupMembers(s, c, source, port, starts, n - 1);
    }
  }

  /** The interfaces whose servers started, in order. */
  function Started(starts: seq<bool>, n: nat): (out: seq<nat>)
    requires n <= |starts|
    ensures forall j :: 0 <= j < |out| ==> out[j] < n && starts[out[j]]
    ensures forall j, k :: 0 <= j < k < |out| ==> out[j] < out[k]
    ensures forall i :: 0 <= i < n && starts[i] ==> i in out
  {
    if n == 0 then [] else Started(starts, n - 1) + if starts[n - 1] then [n - 1] else []
  }

  /** Server j of the group is the one of interface started[j]. */
  ghost predicate ListenOn(g: seq<Retranslator>, interfaces: seq<string>, counter: int, started: seq<nat>) {
    && |g| == |started|
    && forall j :: 0 <= j < |g| ==>
         started[j] < |interfaces| && g[j].listenIp == interfaces[started[j]] && g[j].serverPort == counter + started[j]
  }

  lemma ListensNext(g: seq<Retranslator>, interfaces: seq<string>, counter: int, started: seq<nat>, x: Retranslator, i: nat)
    requires ListenOn(g, interfaces, counter, started)
    requires i < |interfaces| && x.listenIp == interfaces[i] && x.serverPort == counter + i
    ensures ListenOn(g + [x], interfaces, counter, started + [i])
  {
  }

  /** The servers of a group are on the interfaces whose servers started, one each and in order, and the
      server of interface i has the i-th port from the counter on. */
  lemma {:induction false} GroupListens(s: State, c: Config, source: SourceParameters, port: int, starts: seq<bool>, n: nat)
    requires n <= |c.interfaces| == |starts|
    ensures ListenOn(s.Group(c, source, port, starts, n), c.interfaces, s.portCounter, Started(starts, n))
  {
    if n > 0 {
      var i := n - 1;
      GroupListens(s, c, source, port, starts, i);
      var x := Retranslator(source.sourceUrl, c.interfaces[i], s.portCounter + i, port, port + 1, source);
      ListensNext(s.Group(c, source, port, starts, i), c.interfaces, s.portCounter, Started(starts, i), x, i);
      hide ListenOn;
      GroupNext(s, c, source, port, starts, i);
      assert Started(starts, n) == if starts[i] then Started(starts, i) + [i] else Started(starts, i);
    }
  }

  lemma GroupNext(s: State, c: Config, source: SourceParameters, port: int, starts: seq<bool>, i: nat)
    requires i < |c.interfaces| == |starts|
    ensures var x := Retranslator(source.sourceUrl, c.interfaces[i], s.portCounter + i, port, port + 1, source);
      s.Group(c, source, port, starts, i + 1) == s.Group(c, source, port, starts, i) + if starts[i] then [x] else []
  {
  }

  lemma CreateUrls(s: State, c: Config, source: SourceParameters, starts: seq<bool>)
    requires SomeStart(c, starts)
    ensures s.Create(c, source, starts).0.Urls() == s.Urls() + {source.sourceUrl}
  {
    if source.sourceUrl !in s.Urls() {
      var g := s.Group(c, source, s.Search(c.udpRangeEnd, c.udpRangeBegin), starts, |c.interfaces|);
      GroupMembers(s, c, source, s.Search(c.udpRangeEnd, c.udpRangeBegin), starts, |c.interfaces|);
      var s' := s.Create(c, source, starts).0;
      assert s'.list == s.list + g;
      assert g[0] in s'.list;
      forall u | u in s.Urls() ensures u in s'.Urls() {
        var x :| x in s.list && x.sourceUrl == u;
        assert x in s'.list;
      }
    }
  }

  lemma DroppingUrls(s: State, url: Url)
    ensures s.(list := s.Without(url)).Urls() == s.Urls() - {url}
  {
    DroppingMembers(s.list, url);
  }

  /** One turn of the erasing loop, at position i. */
  lemma DroppingVisit(list: seq<Retranslator>, url: Url, i: nat)
    requires i < |list|
    ensures list[i].sourceUrl == url ==>
      Erased(list, i)[..i] + Dropping(Erased(list, i)[i..], url) == list[..i] + Dropping(list[i..], url)
    ensures list[i].sourceUrl != url ==> list[..i + 1] + Dropping(list[i + 1..], url) == list[..i] + Dropping(list[i..], url)
  {
  }

  // Ports over whole runs.

  ghost predicate PortInv(c: Config, s: State) {
    PortsByUrl(s.list) && PairsInRange(c, s.list) && ServerPortsOk(s.list, s.portCounter)
  }

  /** A new group keeps the ports in order exactly if it has no server or there is a slot for it. */
  lemma CreatePorts(c: Config, s: State, source: SourceParameters, starts: seq<bool>)
    requires PortInv(c, s) && |starts| == |c.interfaces| && source.sourceUrl !in s.Urls()
    ensures PortInv(c, s.Create(c, source, starts).0) <==> (SomeStart(c, starts) ==> |s.Urls()| < c.Slots())
  {
    var port := s.Search(c.udpRangeEnd, c.udpRangeBegin);
    SearchInRange(c, s);
    GroupMembers(s, c, source, port, starts, |c.interfaces|);
    var g := s.Group(c, source, port, starts, |c.interfaces|);
    AppendedServerPorts(s.list, g, s.portCounter, |c.interfaces|);
    AppendedGroup(c, s, g, source, port);
    hide PortsByUrl, PairsInRange, ServerPortsOk;
    hide Started, ListenOn;
    assert s.Create(c, source, starts).0 == s.(list := s.list + g, portCounter := s.portCounter + |c.interfaces|);
  }

  lemma AppendedGroup(c: Config, s: State, g: seq<Retranslator>, source: SourceParameters, port: int)
    requires PortsByUrl(s.list) && PairsInRange(c, s.list) && source.sourceUrl !in s.Urls()
    requires c.udpRangeBegin <= port && (port - c.udpRangeBegin) % 2 == 0
    requires port <= c.udpRangeEnd ==> port !in s.UdpBegins()
    requires forall x :: x in g ==> x.sourceUrl == source.sourceUrl && x.copyOfSourceParameters == source
    requires forall x :: x in g ==> x.udpBegin == port && x.udpEnd == port + 1
    ensures PortsByUrl(s.list + g) && PairsInRange(c, s.list + g) <==> g == [] || port <= c.udpRangeEnd
  {
    if g == [] {
      assert s.list + g == s.list;
    } else if port > c.udpRangeEnd {
      assert g[0] in s.list + g && g[0] in g;
    } else {
      forall x | x in s.list ensures x.udpBegin != port && x.sourceUrl != source.sourceUrl {
        assert x.udpBegin in s.UdpBegins() && x.sourceUrl in s.Urls();
      }
      AppendedPairs(c, s.list, g, source, port);
    }
  }

  lemma AppendedPairs(c: Config, list: seq<Retranslator>, g: seq<Retranslator>, source: SourceParameters, port: int)
    requires PortsByUrl(list) && PairsInRange(c, list)
    requires c.udpRangeBegin <= port <= c.udpRangeEnd && (port - c.udpRangeBegin) % 2 == 0
    requires forall x :: x in list ==> x.udpBegin != port && x.sourceUrl != source.sourceUrl
    requires forall x :: x in g ==> x.sourceUrl == source.sourceUrl && x.copyOfSourceParameters == source
    requires forall x :: x in g ==> x.udpBegin == port && x.udpEnd == port + 1
    ensures PortsByUrl(list + g) && PairsInRange(c, list + g)
  {
    assert forall x :: x in list + g ==> x in list || x in g;
  }

  lemma AppendedServerPorts(list: seq<Retranslator>, g: seq<Retranslator>, counter: int, n: nat)
    requires ServerPortsOk(list, counter)
    requires forall i :: 0 <= i < |g| ==> counter <= g[i].serverPort < counter + n
    requires forall i, j :: 0 <= i < j < |g| ==> g[i].serverPort < g[j].serverPort
    ensures ServerPortsOk(list + g, counter + n)
  {
  }

  lemma DropPorts(c: Config, s: State, url: Url)
    requires PortInv(c, s)
    ensures PortInv(c, s.(list := s.Without(url)))
  {
    DroppingMembers(s.list, url);
    DroppingServerPorts(s.list, url, s.portCounter);
  }

  /** If the step starts servers for an address, a slot is left for it. */
  ghost predicate HasRoom(c: Config, w: World, e: Event) {
    Creates(c, w, e).Some? ==> |w.s.Urls()| < c.Slots()
  }

  lemma PortStep(c: Config, w: World, e: Event)
    requires PortInv(c, w.s)
    ensures PortInv(c, Apply(c, w, e).s) <==> HasRoom(c, w, e)
  {
    match e
    case Launch(source, starts) =>
      if |starts| == |c.interfaces| && source.sourceUrl !in w.s.Urls() {
        CreatePorts(c, w.s, source, starts);
      }
    case StopRetranslation(url) => DropPorts(c, w.s, url);
    case SourceLost(url) => DropPorts(c, w.s, url);
    case SourceConnected(url, starts) =>
      var s := w.s.(died := Inserted(w.s.died, url, DEFAULT_SOURCE));
      assert s.Urls() == w.s.Urls();
      if |starts| == |c.interfaces| && url !in w.s.Urls() && w.s.Kept(url).sourceUrl !in s.Urls() {
        CreatePorts(c, s, w.s.Kept(url), starts);
      }
  }

  ghost predicate PortsAt(c: Config, port0: int, es: seq<Event>, k: nat) {
    k <= |es| && PortInv(c, After(c, port0, es[..k]).s)
  }

  ghost predicate RoomAt(c: Config, port0: int, es: seq<Event>, k: nat) {
    k < |es| && HasRoom(c, After(c, port0, es[..k]), es[k])
  }

  /** Throughout a run the pairs begin in the range and two retranslators have the same pair exactly when
      they have the same address, if and only if every new group found a slot left. */
  lemma {:induction false} PortsThroughout(c: Config, port0: int, es: seq<Event>)
    ensures (forall k: nat :: k <= |es| ==> PortsAt(c, port0, es, k)) <==> (forall k: nat :: k < |es| ==> RoomAt(c, port0, es, k))
  {
    var ports := (k: nat) => PortsAt(c, port0, es, k);
    var room := (k: nat) => RoomAt(c, port0, es, k);
    forall k: nat | k < |es| && ports(k) ensures ports(k + 1) <==> room(k) {
      assert es[..k + 1][..k] == es[..k];
      PortStep(c, After(c, port0, es[..k]), es[k]);
    }
    assert After(c, port0, es[..0]) == World(State([], map[], port0), {}, {});
    HoldsThroughout(ports, room, |es|);
    assert forall k: nat :: ports(k) <==> PortsAt(c, port0, es, k);
    assert forall k: nat :: room(k) <==> RoomAt(c, port0, es, k);
  }

  /** Pairs that start at the same parity overlap only when they coincide. */
  lemma PairsOverlap(c: Config, x: Retranslator, y: Retranslator)
    requires PairsInRange(c, [x, y]) && x.udpBegin <= y.udpEnd && y.udpBegin <= x.udpEnd
    ensures x.udpBegin == y.udpBegin
  {
  }

  /** A pair ends beyond the range exactly if it begins at its last port, which takes an even range. */
  lemma PairEnds(c: Config, s: State)
    requires PairsInRange(c, s.list)
    ensures (forall x :: x in s.list ==> x.udpEnd <= c.udpRangeEnd) <==> c.udpRangeEnd !in s.UdpBegins()
    ensures c.udpRangeEnd in s.UdpBegins() ==> (c.udpRangeEnd - c.udpRangeBegin) % 2 == 0
  {
  }

  /** What that gives after any run of launches, stops, losses and restores: all pairs begin in the range, and end in it unless the last port of an even range is taken; two retranslators have the
      same pair exactly when they have the same address, overlapping pairs are the same pair, and no
      server port is used twice. */
  lemma PortAllocation(c: Config, port0: int, es: seq<Event>)
    requires forall k: nat :: k < |es| ==> RoomAt(c, port0, es, k)
    ensures var list := After(c, port0, es).s.list;
      && (forall x :: x in list ==> c.udpRangeBegin <= x.udpBegin <= c.udpRangeEnd && x.udpEnd == x.udpBegin + 1)
      && (forall x, y :: x in list && y in list ==> (x.sourceUrl == y.sourceUrl <==> (x.udpBegin, x.udpEnd) == (y.udpBegin, y.udpEnd)))
      && (forall x, y :: x in list && y in list && x.udpBegin <= y.udpEnd && y.udpBegin <= x.udpEnd ==> x.udpBegin == y.udpBegin)
      && (forall i, j :: 0 <= i < j < |list| ==> list[i].serverPort != list[j].serverPort)
    ensures var s := After(c, port0, es).s;
      && ((forall x :: x in s.list ==> x.udpEnd <= c.udpRangeEnd) <==> c.udpRangeEnd !in s.UdpBegins())
      && (c.udpRangeEnd in s.UdpBegins() ==> (c.udpRangeEnd - c.udpRangeBegin) % 2 == 0)
  {
    hide HasRoom, PortsByUrl, PairsInRange, ServerPortsOk;
    PortsThroughout(c, port0, es);
    assert es[..|es|] == es && PortsAt(c, port0, es, |es|);
    PairEnds(c, After(c, port0, es).s);
    PairsOf(c, After(c, port0, es).s);
  }

  lemma PairsOf(c: Config, s: State)
    requires PortInv(c, s)
    ensures forall x :: x in s.list ==> c.udpRangeBegin <= x.udpBegin <= c.udpRangeEnd && x.udpEnd == x.udpBegin + 1
    ensures forall x, y :: x in s.list && y in s.list ==> (x.sourceUrl == y.sourceUrl <==> (x.udpBegin, x.udpEnd) == (y.udpBegin, y.udpEnd))
    ensures forall x, y :: x in s.list && y in s.list && x.udpBegin <= y.udpEnd && y.udpBegin <= x.udpEnd ==> x.udpBegin == y.udpBegin
    ensures forall i, j :: 0 <= i < j < |s.list| ==> s.list[i].serverPort != s.list[j].serverPort
  {
    forall x, y | x in s.list && y in s.list && x.udpBegin <= y.udpEnd && y.udpBegin <= x.udpEnd ensures x.udpBegin == y.udpBegin {
      PairsOverlap(c, x, y);
    }
  }

  // One group an address.

  function Members(list: seq<Retranslator>, url: Url): seq<Retranslator> {
    if list == [] then [] else (if list[0].sourceUrl == url then [list[0]] else []) + Members(list[1..], url)
  }

  lemma {:induction false} MembersAppended(a: seq<Retranslator>, b: seq<Retranslator>, url: Url)
    ensures Members(a + b, url) == Members(a, url) + Members(b, url)
  {
    if a == [] {
      assert a + b == b;
    } else {
      hide Members;
      var rest := a[1..];
      MembersAppended(rest, b, url);
      MembersCons(a[0], rest, url);
      MembersCons(a[0], rest + b, url);
      assert a == [a[0]] + rest && a + b == [a[0]] + (rest + b);
    }
  }

  lemma MembersCons(x: Retranslator, list: seq<Retranslator>, url: Url)
    ensures Members([x] + list, url) == (if x.sourceUrl == url then [x] else []) + Members(list, url)
  {
    assert ([x] + list)[1..] == list;
  }

  lemma {:induction false} MembersBound(list: seq<Retranslator>, url: Url)
    ensures |Members(list, url)| <= |list|
    ensures (forall x :: x in list ==> x.sourceUrl != url) ==> Members(list, url) == []
  {
    if list != [] {
      MembersBound(list[1..], url);
      assert list == [list[0]] + list[1..];
    }
  }

  lemma {:induction false} MembersDropped(list: seq<Retranslator>, dropped: Url, url: Url)
    ensures Members(Dropping(list, dropped), url) == if url == dropped then [] else Members(list, url)
  {
    if list != [] {
      MembersDropped(list[1..], dropped, url);
      if list[0].sourceUrl != dropped {
        assert Dropping(list, dropped) == [list[0]] + Dropping(list[1..], dropped);
        assert Dropping(list, dropped)[1..] == Dropping(list[1..], dropped);
      } else {
        assert Dropping(list, dropped) == Dropping(list[1..], dropped);
        assert [] + Members(list[1..], url) == Members(list[1..], url);
      }
    }
  }

  lemma {:induction false} GroupSize(s: State, c: Config, source: SourceParameters, port: int, starts: seq<bool>, n: nat)
    requires n <= |c.interfaces| == |starts|
    ensures |s.Group(c, source, port, starts, n)| <= n
  {
    if n > 0 {
      GroupSize(s, c, source, port, starts, n - 1);
    }
  }

  ghost predicate OneGroup(c: Config, list: seq<Retranslator>) {
    forall url :: |Members(list, url)| <= |c.interfaces|
  }

  lemma CreateOneGroup(c: Config, s: State, source: SourceParameters, starts: seq<bool>)
    requires OneGroup(c, s.list) && |starts| == |c.interfaces|
    ensures OneGroup(c, s.Create(c, source, starts).0.list)
  {
    if source.sourceUrl !in s.Urls() {
      var port := s.Search(c.udpRangeEnd, c.udpRangeBegin);
      var g := s.Group(c, source, port, starts, |c.interfaces|);
      GroupMembers(s, c, source, port, starts, |c.interfaces|);
      GroupSize(s, c, source, port, starts, |c.interfaces|);
      forall url ensures |Members(s.list + g, url)| <= |c.interfaces| {
        MembersAppended(s.list, g, url);
        MembersBound(s.list, url);
        MembersBound(g, url);
        assert url == source.sourceUrl ==> forall x :: x in s.list ==> x.sourceUrl != url;
        assert url != source.sourceUrl ==> forall x :: x in g ==> x.sourceUrl != url;
      }
    }
  }

  /** No address ever has two groups: each has at most one server an interface. */
  lemma {:induction false} NoDuplicateGroup(c: Config, port0: int, es: seq<Event>)
    ensures OneGroup(c, After(c, port0, es).s.list)
  {
    if es != [] {
      var w := After(c, port0, es[..|es| - 1]);
      NoDuplicateGroup(c, port0, es[..|es| - 1]);
      match es[|es| - 1]
      case Launch(source, starts) => if |starts| == |c.interfaces| { CreateOneGroup(c, w.s, source, starts); }
      case StopRetranslation(url) => forall u { MembersDropped(w.s.list, url, u); }
      case SourceLost(url) => forall u { MembersDropped(w.s.list, url, u); }
      case SourceConnected(url, starts) =>
        if |starts| == |c.interfaces| {
          CreateOneGroup(c, w.s.(died := Inserted(w.s.died, url, DEFAULT_SOURCE)), w.s.Kept(url), starts);
        }
    }
  }

  /** Beyond the last slot the search leaves the range: that is the only way out of it. */
  lemma SearchLeavesRange(c: Config, s: State)
    requires c.udpRangeBegin <= c.udpRangeEnd
    ensures var p := s.Search(c.udpRangeEnd, c.udpRangeBegin);
      p > c.udpRangeEnd <==>
      forall q :: c.udpRangeBegin <= q <= c.udpRangeEnd && (q - c.udpRangeBegin) % 2 == 0 ==> q in s.UdpBegins()
  {
    SearchFinds(s, c.udpRangeEnd, c.udpRangeBegin);
  }

  // Loss and restore.

  ghost predicate CopiesOk(list: seq<Retranslator>) {
    forall x :: x in list ==> x.copyOfSourceParameters.sourceUrl == x.sourceUrl
  }

  lemma {:induction false} FirstOfIn(list: seq<Retranslator>, url: Url)
    requires exists x :: x in list && x.sourceUrl == url
    ensures FirstOf(list, url) in list && FirstOf(list, url).sourceUrl == url
  {
    if list[0].sourceUrl != url {
      assert list == [list[0]] + list[1..];
      FirstOfIn(list[1..], url);
    }
  }

  /** The address a restore after this loss would retranslate. */
  function RestoredUrl(s: State, url: Url): Url {
    if url in s.died then s.died[url].sourceUrl else if url in s.Urls() then url else ""
  }

  /** A loss and the next connection give back the same addresses if and only if the address was
      retranslated and its kept parameters are its own, or it was not and what the restore makes of
      that is retranslated already. */
  lemma LossThenRestore(c: Config, s: State, url: Url, starts: seq<bool>)
    requires SomeStart(c, starts) && CopiesOk(s.list)
    ensures s.Lose(url).Restore(c, url, starts).Urls() == s.Urls() <==>
      (if url in s.Urls() then RestoredUrl(s, url) == url else RestoredUrl(s, url) in s.Urls())
  {
    var s1 := s.Lose(url);
    if url in s.Urls() {
      FirstOfIn(s.list, url);
      DroppingUrls(s, url);
      assert s1.Urls() == s.Urls() - {url};
    }
    var s2 := s1.(died := Inserted(s1.died, url, DEFAULT_SOURCE));
    assert s2.Urls() == s1.Urls();
    CreateUrls(s2, c, s1.Kept(url), starts);
    assert s1.Kept(url).sourceUrl == RestoredUrl(s, url);
  }

  /** A server of every new group starts. Nothing else is asked: addresses are launched and stopped at
      any time, and notifications come for any address, as a source that others keep alive goes on
      telling its observers. */
  ghost predicate Legal(c: Config, e: Event) {
    match e
    case Launch(_, starts) => SomeStart(c, starts)
    case SourceConnected(_, starts) => SomeStart(c, starts)
    case _ => true
  }

  ghost predicate LegalRun(c: Config, es: seq<Event>) {
    forall k :: 0 <= k < |es| ==> Legal(c, es[k])
  }

  /** What is retranslated is what was launched and has its signal. */
  ghost predicate Addresses(w: World) {
    w.s.Urls() == w.launched - w.lost
  }

  /** Each group has its own parameters, and what is kept for an address is its own, too. */
  ghost predicate KeptOk(w: World) {
    && CopiesOk(w.s.list) && "" !in w.launched
    && (forall url :: url in w.s.died ==> w.s.died[url].sourceUrl == url)
    && w.launched * w.lost <= w.s.died.Keys
  }

  /** A connection is told for an address that is launched. */
  ghost predicate ForLaunched(w: World, e: Event) {
    e.SourceConnected? ==> e.url in w.launched
  }

  lemma CreateCopies(s: State, c: Config, source: SourceParameters, starts: seq<bool>)
    requires |starts| == |c.interfaces| && CopiesOk(s.list)
    ensures CopiesOk(s.Create(c, source, starts).0.list)
  {
    GroupMembers(s, c, source, s.Search(c.udpRangeEnd, c.udpRangeBegin), starts, |c.interfaces|);
  }

  lemma LostStep(w: World, url: Url)
    requires Addresses(w) && KeptOk(w)
    ensures var w' := World(w.s.Lose(url), w.launched, w.lost + {url}); Addresses(w') && KeptOk(w')
  {
    DroppingUrls(w.s, url);
    DroppingMembers(w.s.list, url);
    if url in w.s.Urls() {
      FirstOfIn(w.s.list, url);
      assert w.s.Lose(url).Urls() == w.s.Urls() - {url};
    }
  }

  lemma ConnectedStep(c: Config, w: World, url: Url, starts: seq<bool>)
    requires Addresses(w) && KeptOk(w) && SomeStart(c, starts)
    ensures var w' := World(w.s.Restore(c, url, starts), w.launched, w.lost - {url});
      (Addresses(w') <==> url in w.launched) && (url in w.launched ==> KeptOk(w'))
  {
    if url !in w.s.Urls() {
      var s := w.s.(died := Inserted(w.s.died, url, DEFAULT_SOURCE));
      assert s.Urls() == w.s.Urls();
      CreateUrls(s, c, w.s.Kept(url), starts);
      CreateCopies(s, c, w.s.Kept(url), starts);
      assert w.s.Kept(url).sourceUrl in w.s.Restore(c, url, starts).Urls();
    }
  }

  lemma RetranslatedStep(c: Config, w: World, e: Event)
    requires Addresses(w) && KeptOk(w) && Legal(c, e)
    ensures Addresses(Apply(c, w, e)) <==> ForLaunched(w, e)
    ensures ForLaunched(w, e) ==> KeptOk(Apply(c, w, e))
  {
    match e
    case Launch(source, starts) =>
      CreateUrls(w.s, c, source, starts);
      CreateCopies(w.s, c, source, starts);
    case StopRetranslation(url) =>
      DroppingUrls(w.s, url);
      DroppingMembers(w.s.list, url);
    case SourceLost(url) => LostStep(w, url);
    case SourceConnected(url, starts) => ConnectedStep(c, w, url, starts);
  }

  ghost predicate AddressesAt(c: Config, port0: int, es: seq<Event>, k: nat) {
    k <= |es| && Addresses(After(c, port0, es[..k]))
  }

  ghost predicate KeptAt(c: Config, port0: int, es: seq<Event>, k: nat) {
    k <= |es| && Addresses(After(c, port0, es[..k])) && KeptOk(After(c, port0, es[..k]))
  }

  ghost predicate ForLaunchedAt(c: Config, port0: int, es: seq<Event>, k: nat) {
    k < |es| && ForLaunched(After(c, port0, es[..k]), es[k])
  }

  lemma {:induction false} RetranslatedNext(c: Config, port0: int, es: seq<Event>, k: nat)
    requires LegalRun(c, es) && k < |es| && KeptAt(c, port0, es, k)
    ensures AddressesAt(c, port0, es, k + 1) <==> ForLaunchedAt(c, port0, es, k)
    ensures ForLaunchedAt(c, port0, es, k) ==> KeptAt(c, port0, es, k + 1)
  {
    assert es[..k + 1][..k] == es[..k];
    RetranslatedStep(c, After(c, port0, es[..k]), es[k]);
  }

  /** Loss and restore compose. Over every legal run, notifications for any address included, the
      retranslated addresses are after every step the launched ones that have their signal, if and only
      if no connection is told for an address that is not launched. */
  lemma {:induction false} LossAndRestoreCompose(c: Config, port0: int, es: seq<Event>)
    requires LegalRun(c, es)
    ensures (forall k: nat :: k <= |es| ==> AddressesAt(c, port0, es, k)) <==>
      (forall k: nat :: k < |es| ==> ForLaunchedAt(c, port0, es, k))
  {
    var kept := (k: nat) => KeptAt(c, port0, es, k);
    var addresses := (k: nat) => AddressesAt(c, port0, es, k);
    var launched := (k: nat) => ForLaunchedAt(c, port0, es, k);
    forall k: nat | k < |es| && kept(k) && addresses(k)
      ensures (addresses(k + 1) <==> launched(k)) && (launched(k) ==> kept(k + 1))
    {
      RetranslatedNext(c, port0, es, k);
    }
    assert After(c, port0, es[..0]) == World(State([], map[], port0), {}, {});
    HoldsThroughoutKeeping(kept, addresses, launched, |es|);
    assert forall k: nat :: addresses(k) <==> AddressesAt(c, port0, es, k);
    assert forall k: nat :: launched(k) <==> ForLaunchedAt(c, port0, es, k);
  }

  // The parameters.

  lemma {:induction false} FirstOfAppended(a: seq<Retranslator>, b: seq<Retranslator>, url: Url)
    requires (forall x :: x in a ==> x.sourceUrl != url) && b != [] && b[0].sourceUrl == url
    ensures b[0] in a + b && FirstOf(a + b, url) == b[0]
  {
    if a == [] {
      assert a + b == b;
    } else {
      FirstOfAppended(a[1..], b, url);
      assert (a + b)[1..] == a[1..] + b;
    }
  }

  /** A new group carries the parameters it was made from. */
  lemma CreatedFirst(s: State, c: Config, source: SourceParameters, starts: seq<bool>)
    requires SomeStart(c, starts) && source.sourceUrl !in s.Urls()
    ensures var s' := s.Create(c, source, starts).0;
      source.sourceUrl in s'.Urls() && FirstOf(s'.list, source.sourceUrl).copyOfSourceParameters == source
  {
    CreateUrls(s, c, source, starts);
    var port := s.Search(c.udpRangeEnd, c.udpRangeBegin);
    var g := s.Group(c, source, port, starts, |c.interfaces|);
    GroupMembers(s, c, source, port, starts, |c.interfaces|);
    assert g[0] in g;
    FirstOfAppended(s.list, g, source.sourceUrl);
  }

  /** The group of the address is there and has these parameters. */
  ghost predicate HasParameters(s: State, url: Url, source: SourceParameters) {
    url in s.Urls() && FirstOf(s.list, url).copyOfSourceParameters == source
  }

  /** A loss and the next connection bring back the group with its parameters if and only if nothing, or
      the same, was kept for its address before: what was kept first is never replaced. */
  lemma LossKeepsParameters(c: Config, s: State, url: Url, starts: seq<bool>)
    requires SomeStart(c, starts) && CopiesOk(s.list) && url in s.Urls()
    ensures var source := FirstOf(s.list, url).copyOfSourceParameters;
      HasParameters(s.Lose(url).Restore(c, url, starts), url, source) <==> (url in s.died ==> s.died[url] == source)
  {
    FirstOfIn(s.list, url);
    DroppingUrls(s, url);
    var s1 := s.Lose(url);
    assert s1.Urls() == s.Urls() - {url};
    var s2 := s1.(died := Inserted(s1.died, url, DEFAULT_SOURCE));
    assert s2.Urls() == s1.Urls();
    RestoreParameters(c, s2, s1.Kept(url), url, starts);
  }

  lemma RestoreParameters(c: Config, s: State, kept: SourceParameters, url: Url, starts: seq<bool>)
    requires SomeStart(c, starts) && url !in s.Urls()
    ensures forall source: SourceParameters :: source.sourceUrl == url ==>
      (HasParameters(s.Create(c, kept, starts).0, url, source) <==> kept == source)
  {
    CreateUrls(s, c, kept, starts);
    if kept.sourceUrl == url {
      CreatedFirst(s, c, kept, starts);
    }
  }
}
