/** Runs that show the exceptions of retranslation can be reached. */
module RetranslationCounterexamples {
  import opened Common
  import opened RetranslationModel
  import opened RetranslationRuns

  function ApplyAll(c: Config, w: World, es: seq<Event>): World
    decreases |es|
  {
    if es == [] then w else ApplyAll(c, Apply(c, w, es[0]), es[1..])
  }

  lemma FirstEvent(c: Config, w: World, e: Event, rest: seq<Event>)
    ensures ApplyAll(c, w, [e] + rest) == ApplyAll(c, Apply(c, w, e), rest)
  {
    assert ([e] + rest)[1..] == rest;
  }

  lemma Single(c: Config, w: World, e: Event)
    ensures ApplyAll(c, w, [e]) == Apply(c, w, e)
  {
    FirstEvent(c, w, e, []);
    assert [e] + [] == [e];
  }

  lemma {:induction false} Joined(c: Config, w: World, a: seq<Event>, b: seq<Event>)
    ensures ApplyAll(c, w, a + b) == ApplyAll(c, ApplyAll(c, w, a), b)
    decreases |a|
  {
    if a == [] {
      assert a + b == b;
    } else {
      Joined(c, Apply(c, w, a[0]), a[1..], b);
      assert (a + b)[1..] == a[1..] + b;
    }
  }

  function Start(port0: int): World {
    World(State([], map[], port0), {}, {})
  }

  lemma {:induction false} AfterAll(c: Config, port0: int, es: seq<Event>)
    ensures After(c, port0, es) == ApplyAll(c, Start(port0), es)
  {
    if es != [] {
      var n := |es| - 1;
      AfterAll(c, port0, es[..n]);
      Joined(c, Start(port0), es[..n], [es[n]]);
      Single(c, After(c, port0, es[..n]), es[n]);
      assert es == es[..n] + [es[n]];
    }
  }

  /** One launched address, its parameters and what is kept for it. */
  ghost predicate Active(w: World, source: SourceParameters, died: map<Url, SourceParameters>) {
    && w.launched == {source.sourceUrl} && w.s.died == died
    && w.s.Urls() == {source.sourceUrl} && HasParameters(w.s, source.sourceUrl, source) && CopiesOk(w.s.list)
  }

  ghost predicate Inactive(w: World, died: map<Url, SourceParameters>) {
    w.launched == {} && w.s.died == died && w.s.list == []
  }

  lemma NoUrls(s: State)
    ensures s.Urls() == {} ==> s.list == []
  {
    if s.list != [] {
      assert s.list[0] in s.list;
      assert s.list[0].sourceUrl in s.Urls();
    }
  }

  lemma LaunchOne(c: Config, w: World, source: SourceParameters, starts: seq<bool>, died: map<Url, SourceParameters>)
    requires Inactive(w, died) && SomeStart(c, starts) && source.sourceUrl != ""
    ensures Active(Apply(c, w, Launch(source, starts)), source, died)
  {
    CreateUrls(w.s, c, source, starts);
    CreatedFirst(w.s, c, source, starts);
    CreateCopies(w.s, c, source, starts);
  }

  lemma StopOne(c: Config, w: World, source: SourceParameters, died: map<Url, SourceParameters>)
    requires Active(w, source, died) && source.sourceUrl != ""
    ensures Inactive(Apply(c, w, StopRetranslation(source.sourceUrl)), died)
  {
    DroppingUrls(w.s, source.sourceUrl);
    NoUrls(w.s.Stop(source.sourceUrl).0);
  }

  /** The signal goes: the group is gone, its parameters are kept unless others were. */
  lemma LoseOne(c: Config, w: World, source: SourceParameters, died: map<Url, SourceParameters>)
    requires Active(w, source, died)
    ensures var w' := Apply(c, w, SourceLost(source.sourceUrl));
      w'.s.list == [] && w'.launched == w.launched && w'.s.died == Inserted(died, source.sourceUrl, source)
  {
    DroppingUrls(w.s, source.sourceUrl);
    assert w.s.(list := w.s.Without(source.sourceUrl)).Urls() == {};
    NoUrls(w.s.(list := w.s.Without(source.sourceUrl)));
  }

  /** The signal comes back while nothing is retranslated: a group is made from what was kept for the
      address, or else for the empty address. */
  lemma ConnectOne(c: Config, w: World, url: Url, starts: seq<bool>)
    requires w.s.list == [] && SomeStart(c, starts)
    ensures var w' := Apply(c, w, SourceConnected(url, starts)); var kept := w.s.Kept(url);
      && w'.launched == w.launched && w'.s.died == Inserted(w.s.died, url, DEFAULT_SOURCE)
      && w'.s.Urls() == {kept.sourceUrl} && HasParameters(w'.s, kept.sourceUrl, kept) && CopiesOk(w'.s.list)
  {
    var s := w.s.(died := Inserted(w.s.died, url, DEFAULT_SOURCE));
    CreateUrls(s, c, w.s.Kept(url), starts);
    CreatedFirst(s, c, w.s.Kept(url), starts);
    CreateCopies(s, c, w.s.Kept(url), starts);
  }

  function Blink(url: Url, starts: seq<bool>): seq<Event> {
    [SourceLost(url)] + [SourceConnected(url, starts)]
  }

  lemma Blinked(c: Config, w: World, url: Url, starts: seq<bool>)
    ensures ApplyAll(c, w, Blink(url, starts)) == Apply(c, Apply(c, w, SourceLost(url)), SourceConnected(url, starts))
  {
    Single(c, Apply(c, w, SourceLost(url)), SourceConnected(url, starts));
    FirstEvent(c, w, SourceLost(url), [SourceConnected(url, starts)]);
  }

  /** The signal goes and comes back: what was kept, or else the group's parameters, are restored. */
  lemma BlinkOne(c: Config, w: World, source: SourceParameters, starts: seq<bool>, died: map<Url, SourceParameters>)
    requires Active(w, source, died) && SomeStart(c, starts)
    requires source.sourceUrl in died ==> died[source.sourceUrl].sourceUrl == source.sourceUrl
    ensures var url := source.sourceUrl; var kept := if url in died then died[url] else source;
      Active(ApplyAll(c, w, Blink(url, starts)), kept, Inserted(died, url, source))
  {
    var url := source.sourceUrl;
    LoseOne(c, w, source, died);
    ConnectOne(c, Apply(c, w, SourceLost(url)), url, starts);
    Blinked(c, w, url, starts);
  }

  function LaunchedOnce(source: SourceParameters, starts: seq<bool>): seq<Event> {
    [Launch(source, starts)] + Blink(source.sourceUrl, starts) + [StopRetranslation(source.sourceUrl)]
  }

  /** Launch, loss, connection and stop leave nothing but what was kept. */
  lemma LaunchedOnceLeaves(c: Config, port0: int, source: SourceParameters, starts: seq<bool>)
    requires SomeStart(c, starts) && source.sourceUrl != ""
    ensures LegalRun(c, LaunchedOnce(source, starts))
    ensures Inactive(After(c, port0, LaunchedOnce(source, starts)), map[source.sourceUrl := source])
  {
    var url, w0 := source.sourceUrl, Start(port0);
    LaunchOne(c, w0, source, starts, map[]);
    var w1 := Apply(c, w0, Launch(source, starts));
    BlinkOne(c, w1, source, starts, map[]);
    var w2 := ApplyAll(c, w1, Blink(url, starts));
    StopOne(c, w2, source, map[url := source]);
    Single(c, w2, StopRetranslation(url));
    FirstEvent(c, w0, Launch(source, starts), Blink(url, starts));
    Joined(c, w0, [Launch(source, starts)] + Blink(url, starts), [StopRetranslation(url)]);
    AfterAll(c, port0, LaunchedOnce(source, starts));
  }

  lemma Later(c: Config, port0: int, es: seq<Event>, more: seq<Event>)
    ensures After(c, port0, es + more) == ApplyAll(c, After(c, port0, es), more)
  {
    AfterAll(c, port0, es);
    AfterAll(c, port0, es + more);
    Joined(c, Start(port0), es, more);
  }

  /** A stopped address whose source lives on: after launch, loss, connection and stop, the next loss
      and connection make its group again. */
  lemma StoppedComesBack(c: Config, port0: int, source: SourceParameters, starts: seq<bool>)
    returns (before: seq<Event>, es: seq<Event>)
    requires SomeStart(c, starts) && source.sourceUrl != ""
    ensures LegalRun(c, before) && |before| == 4 && After(c, port0, before).s.Urls() == {}
    ensures LegalRun(c, es) && es == before + Blink(source.sourceUrl, starts) && !Addresses(After(c, port0, es))
    ensures source.sourceUrl in After(c, port0, es).s.Urls() - After(c, port0, es).launched
  {
    var url := source.sourceUrl;
    before := LaunchedOnce(source, starts);
    es := before + Blink(url, starts);
    LaunchedOnceLeaves(c, port0, source, starts);
    var w := After(c, port0, before);
    assert Apply(c, w, SourceLost(url)).s == w.s;
    ConnectOne(c, Apply(c, w, SourceLost(url)), url, starts);
    Blinked(c, w, url, starts);
    Later(c, port0, before, Blink(url, starts));
  }

  /** Stopped while its signal is lost, the address is retranslated again by the next connection. */
  lemma StoppedWhileLostComesBack(c: Config, port0: int, source: SourceParameters, starts: seq<bool>) returns (es: seq<Event>)
    requires SomeStart(c, starts) && source.sourceUrl != ""
    ensures var url := source.sourceUrl;
      es == [Launch(source, starts), SourceLost(url), StopRetranslation(url), SourceConnected(url, starts)]
    ensures LegalRun(c, es) && !Addresses(After(c, port0, es))
    ensures source.sourceUrl in After(c, port0, es).s.Urls() - After(c, port0, es).launched
  {
    var url, w0 := source.sourceUrl, Start(port0);
    LaunchOne(c, w0, source, starts, map[]);
    var w1 := Apply(c, w0, Launch(source, starts));
    LoseOne(c, w1, source, map[]);
    var w2 := Apply(c, w1, SourceLost(url));
    var w3 := Apply(c, w2, StopRetranslation(url));
    assert w3.s.list == [] && w3.s.Kept(url) == source && w3.launched == {};
    ConnectOne(c, w3, url, starts);
    hide Apply, Active, CopiesOk, HasParameters;
    Single(c, w3, SourceConnected(url, starts));
    FirstEvent(c, w2, StopRetranslation(url), [SourceConnected(url, starts)]);
    FirstEvent(c, w1, SourceLost(url), [StopRetranslation(url)] + [SourceConnected(url, starts)]);
    FirstEvent(c, w0, Launch(source, starts), [SourceLost(url)] + ([StopRetranslation(url)] + [SourceConnected(url, starts)]));
    es := [Launch(source, starts)] + ([SourceLost(url)] + ([StopRetranslation(url)] + [SourceConnected(url, starts)]));
    AfterAll(c, port0, es);
  }

  /** Stopped before anything was kept for it, the address brings up a group for the empty one. */
  lemma EmptyAddressAppears(c: Config, port0: int, source: SourceParameters, starts: seq<bool>) returns (es: seq<Event>)
    requires SomeStart(c, starts) && source.sourceUrl != ""
    ensures LegalRun(c, es) && |es| == 4 && HasParameters(After(c, port0, es).s, "", SourceParameters("", 0))
  {
    var url, w0 := source.sourceUrl, Start(port0);
    LaunchOne(c, w0, source, starts, map[]);
    var w1 := Apply(c, w0, Launch(source, starts));
    StopOne(c, w1, source, map[]);
    var w2 := Apply(c, w1, StopRetranslation(url));
    assert Apply(c, w2, SourceLost(url)).s == w2.s;
    ConnectOne(c, Apply(c, w2, SourceLost(url)), url, starts);
    Blinked(c, w2, url, starts);
    FirstEvent(c, w1, StopRetranslation(url), Blink(url, starts));
    FirstEvent(c, w0, Launch(source, starts), [StopRetranslation(url)] + Blink(url, starts));
    es := [Launch(source, starts)] + ([StopRetranslation(url)] + Blink(url, starts));
    AfterAll(c, port0, es);
  }

  /** Launched again with other parameters, an address is restored with its first ones, although
      every notification is for a launched address. */
  lemma FirstParametersReturn(c: Config, port0: int, first: SourceParameters, second: SourceParameters, starts: seq<bool>) returns (es: seq<Event>)
    requires SomeStart(c, starts) && first.sourceUrl != "" && second.sourceUrl == first.sourceUrl && second != first
    ensures LegalRun(c, es) && |es| == 7 && es[4] == Launch(second, starts)
    ensures HasParameters(After(c, port0, es).s, first.sourceUrl, first)
  {
    var url, before := first.sourceUrl, LaunchedOnce(first, starts);
    LaunchedOnceLeaves(c, port0, first, starts);
    var w := After(c, port0, before);
    LaunchOne(c, w, second, starts, map[url := first]);
    BlinkOne(c, Apply(c, w, Launch(second, starts)), second, starts, map[url := first]);
    var tail := [Launch(second, starts)] + Blink(url, starts);
    FirstEvent(c, w, Launch(second, starts), Blink(url, starts));
    es := before + tail;
    Later(c, port0, before, tail);
  }

  // Ports.

  /** A new group begins where the search ends. */
  lemma LaunchedAt(c: Config, w: World, source: SourceParameters, starts: seq<bool>) returns (x: Retranslator)
    requires SomeStart(c, starts) && source.sourceUrl != "" && source.sourceUrl !in w.s.Urls()
    ensures var w' := Apply(c, w, Launch(source, starts)); var port := w.s.Search(c.udpRangeEnd, c.udpRangeBegin);
      && x in w'.s.list && x.sourceUrl == source.sourceUrl && x.udpBegin == port && x.udpEnd == port + 1
      && (forall y :: y in w.s.list ==> y in w'.s.list)
      && w'.s.Urls() == w.s.Urls() + {source.sourceUrl} && w'.s.UdpBegins() == w.s.UdpBegins() + {port}
  {
    var port := w.s.Search(c.udpRangeEnd, c.udpRangeBegin);
    var g := w.s.Group(c, source, port, starts, |c.interfaces|);
    GroupMembers(w.s, c, source, port, starts, |c.interfaces|);
    CreateUrls(w.s, c, source, starts);
    x := g[0];
    assert x in g;
    assert forall y :: y in w.s.list + g <==> y in w.s.list || y in g;
  }

  /** In a range of one port the only pair ends beyond it. */
  lemma PairBeyondRange(c: Config, port0: int, source: SourceParameters, starts: seq<bool>)
    requires SomeStart(c, starts) && source.sourceUrl != "" && c.udpRangeBegin == c.udpRangeEnd
    ensures var es := [Launch(source, starts)];
      RoomAt(c, port0, es, 0) && exists x :: x in After(c, port0, es).s.list && x.udpEnd > c.udpRangeEnd
  {
    var es := [Launch(source, starts)];
    assert es[..0] == [];
    var x := LaunchedAt(c, Start(port0), source, starts);
    assert x in After(c, port0, es).s.list;
  }

  lemma SearchOnePort(c: Config, s: State)
    requires c.udpRangeBegin == c.udpRangeEnd
    ensures s.Search(c.udpRangeEnd, c.udpRangeBegin) == if c.udpRangeBegin in s.UdpBegins() then c.udpRangeBegin + 2 else c.udpRangeBegin
  {
  }

  /** Once the only port is taken, every further address gets the pair after it. */
  lemma NextTwoShare(c: Config, w: World, two: SourceParameters, three: SourceParameters, starts: seq<bool>)
    returns (x: Retranslator, y: Retranslator)
    requires SomeStart(c, starts) && c.udpRangeBegin == c.udpRangeEnd && c.udpRangeBegin in w.s.UdpBegins()
    requires two.sourceUrl != "" && three.sourceUrl != "" && two.sourceUrl != three.sourceUrl
    requires two.sourceUrl !in w.s.Urls() && three.sourceUrl !in w.s.Urls()
    ensures var w' := Apply(c, Apply(c, w, Launch(two, starts)), Launch(three, starts));
      && x in w'.s.list && y in w'.s.list && x.sourceUrl != y.sourceUrl
      && (x.udpBegin, x.udpEnd) == (y.udpBegin, y.udpEnd)
  {
    var w1 := Apply(c, w, Launch(two, starts));
    SearchOnePort(c, w.s);
    x := LaunchedAt(c, w, two, starts);
    SearchOnePort(c, w1.s);
    y := LaunchedAt(c, w1, three, starts);
    hide Apply;
  }

  /** In a range of one port a third address gets the pair of the second. */
  lemma PairShared(c: Config, port0: int, one: SourceParameters, two: SourceParameters, three: SourceParameters, starts: seq<bool>)
    returns (es: seq<Event>, x: Retranslator, y: Retranslator)
    requires SomeStart(c, starts) && c.udpRangeBegin == c.udpRangeEnd
    requires one.sourceUrl != "" && two.sourceUrl !in {"", one.sourceUrl} && three.sourceUrl !in {"", one.sourceUrl, two.sourceUrl}
    ensures LegalRun(c, es) && |es| == 3 && x in After(c, port0, es).s.list && y in After(c, port0, es).s.list
    ensures x.sourceUrl != y.sourceUrl && (x.udpBegin, x.udpEnd) == (y.udpBegin, y.udpEnd)
  {
    hide Apply;
    es := [Launch(one, starts)] + ([Launch(two, starts)] + [Launch(three, starts)]);
    var w0 := Start(port0);
    SearchOnePort(c, w0.s);
    var first := LaunchedAt(c, w0, one, starts);
    var w1 := Apply(c, w0, Launch(one, starts));
    x, y := NextTwoShare(c, w1, two, three, starts);
    Single(c, Apply(c, w1, Launch(two, starts)), Launch(three, starts));
    FirstEvent(c, w1, Launch(two, starts), [Launch(three, starts)]);
    FirstEvent(c, w0, Launch(one, starts), [Launch(two, starts)] + [Launch(three, starts)]);
    AfterAll(c, port0, es);
  }
}
