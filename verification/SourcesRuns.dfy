/** Reference counts, entries and receivers of the shared sources over every run. */
module SourcesRuns {
  import opened Common
  import opened VideoSourceModel
  import VideoSourceRuns
  import ConnectAnswers
  import opened SourcesModel

  lemma {:induction false} IndexOfMeans(m: Sources, url: Url, i: nat)
    requires i <= |m.list|
    ensures var k := m.IndexOf(url, i);
      && (k < |m.list| ==> m.list[k].settings.url == url)
      && forall j :: i <= j < k ==> m.list[j].settings.url != url
    decreases |m.list| - i
  {
    if i < |m.list| && m.list[i].settings.url != url {
      IndexOfMeans(m, url, i + 1);
    }
  }

  lemma HasMeans(m: Sources, url: Url)
    ensures m.Has(url) <==> exists i :: 0 <= i < |m.list| && m.list[i].settings.url == url
    ensures !m.Has(url) ==> forall i :: 0 <= i < |m.list| ==> m.list[i].settings.url != url
    ensures m.Has(url) ==> m.list[m.IndexOf(url, 0)].settings.url == url
  {
    IndexOfMeans(m, url, 0);
  }

  lemma {:induction false} KeptWithout(list: seq<Source>, url: Url)
    requires forall i :: 0 <= i < |list| ==> list[i].settings.url != url
    ensures Kept(list, url) == list && Dropped(list, url) == []
  {
    if list != [] {
      KeptWithout(list[1..], url);
    }
  }

  /** With one entry for the address, the loop touches that entry alone. */
  lemma {:induction false} KeptAt(list: seq<Source>, url: Url, k: nat)
    requires k < |list| && list[k].settings.url == url
    requires forall i :: 0 <= i < |list| && i != k ==> list[i].settings.url != url
    ensures var s := list[k].Disconnect();
      if s.refs == 0 then Kept(list, url) == Erased(list, k) && Dropped(list, url) == [s]
      else Kept(list, url) == list[k := s] && Dropped(list, url) == []
  {
    var rest := list[1..];
    if k == 0 {
      KeptWithout(rest, url);
    } else {
      KeptAt(rest, url, k - 1);
      assert rest[k - 1] == list[k];
      assert [list[0]] + Erased(rest, k - 1) == Erased(list, k);
      assert [list[0]] + rest[k - 1 := list[k].Disconnect()] == list[k := list[k].Disconnect()];
    }
  }

  /** One turn of the disconnecting loop, at position k. */
  lemma {:induction false} KeptVisit(list: seq<Source>, url: Url, k: nat)
    requires k < |list|
    ensures var s := list[k];
      && (s.settings.url != url ==> list[..k] + Kept(list[k..], url) == list[..k + 1] + Kept(list[k + 1..], url))
      && (s.settings.url == url && s.Disconnect().refs == 0 ==>
            var list' := Erased(list, k);
            list[..k] + Kept(list[k..], url) == list'[..k] + Kept(list'[k..], url))
      && (s.settings.url == url && s.Disconnect().refs != 0 ==>
            var list' := list[k := s.Disconnect()];
            list[..k] + Kept(list[k..], url) == list'[..k + 1] + Kept(list'[k + 1..], url))
  {
  }

  /** A synchronous success leaves one reference and one launched receiver; retries leave none. */
  lemma NewEntry(recordEnable: bool, st: Settings, direct: Attempt, r: Retries)
    requires r.Timely() && !direct.shutDown
    requires NewSource(recordEnable).Connect(st, direct, r).1.Connected?
    ensures var s := NewSource(recordEnable).Connect(st, direct, r).0;
      && s.settings == st && UrlValid(st.url)
      && (if NewSource(recordEnable).(settings := st).Try(direct).1 then EntryOk(s, 1) else s.refs == 0)
  {
    var s0 := NewSource(recordEnable).(settings := st);
    var s1 := s0.Try(direct).0;
    if !s0.Try(direct).1 {
      VideoSourceRuns.LoopEnds(s1.(flags := s1.flags.(interrupt := false, cycleActive := true)), r, 0);
    } else {
      assert [] + [Launched] == [Launched];
    }
  }

  lemma BalancedConnectExisting(c: Config, w: World, e: Event)
    requires Balanced(w) && Legal(e) && e.Connect? && e.url != "" && w.m.Has(e.url)
    ensures Balanced(Apply(c, w, e))
  {
    var k := w.m.IndexOf(e.url, 0);
    HasMeans(w.m, e.url);
    var w' := Apply(c, w, e);
    var s := w.m.list[k];
    assert EntryOk(s, Balance(w, e.url));
    assert w'.m.list == w.m.list[k := s.(refs := s.refs + 1)];
    SameUrls(w.m, w'.m);
  }

  /** The addresses of two lists agree position by position. */
  lemma SameUrls(m: Sources, m': Sources)
    requires |m'.list| == |m.list| && forall i :: 0 <= i < |m.list| ==> m'.list[i].settings.url == m.list[i].settings.url
    ensures forall url :: m'.Has(url) <==> m.Has(url)
  {
    forall url ensures m'.Has(url) <==> m.Has(url) {
      HasMeans(m, url);
      HasMeans(m', url);
    }
  }

  lemma BalancedConnectNew(c: Config, w: World, e: Event)
    requires Balanced(w) && Legal(e) && e.Connect? && e.url != "" && !w.m.Has(e.url)
    ensures Balanced(Apply(c, w, e)) <==> FirstConnectDirect(c, w, e)
  {
    var st := VideoSourceModel.Settings(e.url, c.retryTimeoutSec);
    var (s, result) := NewSource(c.recordEnable).Connect(st, e.direct, e.r);
    var w' := Apply(c, w, e);
    HasMeans(w.m, e.url);
    if result.Connected? {
      NewEntry(c.recordEnable, st, e.direct, e.r);
      var direct := NewSource(c.recordEnable).(settings := st).Try(e.direct).1;
      assert w'.m.list == w.m.list + [s] && w'.gone == w.gone;
      assert w'.balance == w.balance[e.url := Balance(w, e.url) + 1];
      hide Apply, EntryOk;
      BalancedAppended(w, w', e.url, s);
    } else {
      assert w'.m.list == w.m.list;
      SameUrls(w.m, w'.m);
    }
  }

  /** A new entry joins: the balance holds exactly if it counts one consumer. */
  lemma BalancedAppended(w: World, w': World, url: Url, s: Source)
    requires Balanced(w) && !w.m.Has(url) && s.settings.url == url && (EntryOk(s, 1) || s.refs == 0)
    requires w'.m.list == w.m.list + [s] && w'.gone == w.gone && w'.balance == w.balance[url := Balance(w, url) + 1]
    ensures Balanced(w') <==> EntryOk(s, 1)
  {
    HasMeans(w.m, url);
    assert w'.m.list[|w.m.list|] == s && Balance(w', url) == 1;
    forall u ensures w'.m.Has(u) <==> w.m.Has(u) || u == url {
      HasMeans(w.m, u);
      HasMeans(w'.m, u);
      if w.m.Has(u) {
        assert w'.m.list[w.m.IndexOf(u, 0)].settings.url == u;
      }
    }
  }

  lemma BalancedDisconnect(c: Config, w: World, url: Url)
    requires Balanced(w) && url != ""
    ensures Balanced(Apply(c, w, Disconnect(url)))
  {
    var w' := Apply(c, w, Disconnect(url));
    HasMeans(w.m, url);
    if !w.m.Has(url) {
      KeptWithout(w.m.list, url);
      SameUrls(w.m, w'.m);
    } else {
      assert w'.m.list == Kept(w.m.list, url) && w'.gone == w.gone + Dropped(w.m.list, url);
      assert w'.balance == w.balance[url := Balance(w, url) - 1];
      hide Apply, Kept, Dropped;
      BalancedRelease(w, w', w.m.IndexOf(url, 0));
    }
  }

  /** The one entry of the address loses a reference. */
  lemma BalancedRelease(w: World, w': World, k: nat)
    requires Balanced(w) && k < |w.m.list|
    requires var url := w.m.list[k].settings.url;
      && w'.m.list == Kept(w.m.list, url) && w'.gone == w.gone + Dropped(w.m.list, url)
      && w'.balance == w.balance[url := Balance(w, url) - 1]
    ensures Balanced(w')
  {
    var s := w.m.list[k];
    KeptAt(w.m.list, s.settings.url, k);
    assert EntryOk(s, Balance(w, s.settings.url));
    hide Kept, Dropped;
    if s.refs == 1 {
      BalancedDrop(w, w', k);
    } else {
      assert w'.m.list == w.m.list[k := s.(refs := s.refs - 1, flags := s.Disconnect().flags)];
      BalancedKeep(w, w', k);
    }
  }

  lemma BalancedKeep(w: World, w': World, k: nat)
    requires Balanced(w) && k < |w.m.list| && w'.gone == w.gone
    requires var s := w.m.list[k];
      && w'.m.list == w.m.list[k := s.(refs := s.refs - 1, flags := s.Disconnect().flags)] && s.refs > 1
      && w'.balance == w.balance[s.settings.url := Balance(w, s.settings.url) - 1]
    ensures Balanced(w')
  {
    assert EntryOk(w.m.list[k], Balance(w, w.m.list[k].settings.url));
    SameUrls(w.m, w'.m);
  }

  lemma BalancedDrop(w: World, w': World, k: nat)
    requires Balanced(w) && k < |w.m.list| && w.m.list[k].refs == 1
    requires w'.m.list == Erased(w.m.list, k) && w'.balance == w.balance[w.m.list[k].settings.url := 0]
    requires w'.gone == w.gone + [w.m.list[k].Disconnect()]
    ensures Balanced(w')
  {
    var list, list' := w.m.list, w'.m.list;
    assert EntryOk(list[k], Balance(w, list[k].settings.url));
    assert list[k].Disconnect().receiver.ops == [Launched] + [TornDown];
    forall i | 0 <= i < |list'| ensures EntryOk(list'[i], Balance(w', list'[i].settings.url)) {
      var j := if i < k then i else i + 1;
      assert list'[i] == list[j] && EntryOk(list[j], Balance(w, list[j].settings.url));
    }
    forall url | Balance(w', url) != 0 ensures w'.m.Has(url) {
      HasMeans(w.m, url);
      HasMeans(w'.m, url);
      var j := w.m.IndexOf(url, 0);
      assert list'[if j < k then j else j - 1].settings.url == url;
    }
  }

  lemma BalancedStep(c: Config, w: World, e: Event)
    requires Balanced(w)
    ensures Balanced(Apply(c, w, e)) <==> FirstConnectDirect(c, w, e)
  {
    if Legal(e) && e.url != "" {
      if e.Disconnect? {
        BalancedDisconnect(c, w, e.url);
      } else if w.m.Has(e.url) {
        BalancedConnectExisting(c, w, e);
      } else {
        BalancedConnectNew(c, w, e);
      }
    }
  }

  ghost predicate BalancedAt(c: Config, es: seq<Event>, k: nat) {
    k <= |es| && Balanced(After(c, es[..k]))
  }

  ghost predicate DirectAt(c: Config, es: seq<Event>, k: nat) {
    k < |es| && FirstConnectDirect(c, After(c, es[..k]), es[k])
  }

  /** For every sequence of connects and disconnects: each address has exactly one entry, counting
      its consumers, exactly while its balance is positive, and each positive episode launches one
      receiver and tears it down once, if and only if every entry was connected synchronously. */
  lemma ReferenceCounts(c: Config, es: seq<Event>)
    ensures (forall k: nat :: k <= |es| ==> BalancedAt(c, es, k)) <==> (forall k: nat :: k < |es| ==> DirectAt(c, es, k))
  {
    var balanced := (k: nat) => BalancedAt(c, es, k);
    var direct := (k: nat) => DirectAt(c, es, k);
    forall k: nat | k < |es| && balanced(k) ensures balanced(k + 1) <==> direct(k) {
      assert es[..k + 1][..k] == es[..k];
      BalancedStep(c, After(c, es[..k]), es[k]);
    }
    assert After(c, es[..0]) == World(Sources([], map[]), map[], []);
    HoldsThroughout(balanced, direct, |es|);
    assert forall k: nat :: balanced(k) <==> BalancedAt(c, es, k);
    assert forall k: nat :: direct(k) <==> DirectAt(c, es, k);
  }

  /** What `Balanced` says of one address. */
  lemma EntryIffPositive(w: World, url: Url)
    requires Balanced(w)
    ensures w.m.Has(url) <==> Balance(w, url) > 0
    ensures w.m.Has(url) ==>
      var s := w.m.list[w.m.IndexOf(url, 0)];
      s.settings.url == url && s.refs == Balance(w, url) && s.receiver.ops == [Launched]
  {
    HasMeans(w.m, url);
    if w.m.Has(url) {
      assert EntryOk(w.m.list[w.m.IndexOf(url, 0)], Balance(w, url));
    }
  }

  /** The exception: a source connected through retries has no reference, so the disconnect of its
      only consumer drops the entry and leaves the receiver running. */
  lemma RetriedSourceLeaks(c: Config, w: World, url: Url, direct: Attempt, r: Retries)
    requires !w.m.Has(url) && url != "" && Legal(Connect(url, direct, r))
    requires !FirstConnectDirect(c, w, Connect(url, direct, r))
    ensures var w1 := Apply(c, w, Connect(url, direct, r));
      var w2 := Apply(c, w1, Disconnect(url));
      && w1.m.Has(url) && !w2.m.Has(url)
      && |w2.gone| == |w.gone| + 1 && w2.gone[|w.gone|].receiver == w1.m.list[|w.m.list|].receiver
  {
    var st := VideoSourceModel.Settings(url, c.retryTimeoutSec);
    var s := NewSource(c.recordEnable).Connect(st, direct, r).0;
    NewEntry(c.recordEnable, st, direct, r);
    var w1 := Apply(c, w, Connect(url, direct, r));
    var w2 := Apply(c, w1, Disconnect(url));
    assert w1.m.list == w.m.list + [s];
    HasMeans(w.m, url);
    HasMeans(w1.m, url);
    assert w1.m.list[|w.m.list|].settings.url == url;
    KeptAt(w1.m.list, url, |w.m.list|);
    assert w2.m.list == w.m.list;
    HasMeans(w2.m, url);
  }

  // Sources in transition.

  /** The addresses whose last connect failed and that nobody has disconnected or connected since. A
      connect to an address with an entry does not count. */
  ghost function FailedAddresses(c: Config, es: seq<Event>): set<Url> {
    if es == [] then {}
    else
      var n := |es| - 1;
      var e, w, before := es[n], After(c, es[..n]), FailedAddresses(c, es[..n]);
      if e.url == "" || !Legal(e) then before
      else if e.Disconnect? then before - {e.url}
      else if exists s :: s in w.m.list && s.settings.url == e.url then before
      else if Succeeds(c, e.url, e.direct, e.r) then before - {e.url}
      else before + {e.url}
  }

  /** A new source for the address connects. */
  ghost predicate Succeeds(c: Config, url: Url, direct: Attempt, r: Retries)
    requires r.Timely()
  {
    NewSource(c.recordEnable).Connect(VideoSourceModel.Settings(url, c.retryTimeoutSec), direct, r).1 == Connected
  }

  /** No source has an entry and is in transition. */
  ghost predicate Apart(m: Sources) {
    forall s :: s in m.list ==> s.settings.url !in m.transition
  }

  lemma {:induction false} KeptFrom(list: seq<Source>, url: Url)
    ensures forall s :: s in Kept(list, url) ==> exists t :: t in list && t.settings == s.settings
  {
    if list != [] {
      KeptFrom(list[1..], url);
      ConnectAnswers.DisconnectLeaves(list[0]);
      forall s | s in Kept(list, url) ensures exists t :: t in list && t.settings == s.settings {
        if s in Kept(list[1..], url) {
          var t :| t in list[1..] && t.settings == s.settings;
          assert t in list;
        } else {
          assert list[0] in list;
        }
      }
    }
  }

  lemma EntryExists(m: Sources, url: Url)
    ensures m.Has(url) <==> exists s :: s in m.list && s.settings.url == url
  {
    HasMeans(m, url);
  }

  lemma ApartReconnect(m: Sources, url: Url, direct: Attempt, r: Retries)
    requires Apart(m) && r.Timely() && m.Has(url)
    ensures Apart(m.Reconnect(url, direct, r))
  {
    var i := m.IndexOf(url, 0);
    ConnectAnswers.ConnectAnswer(m.list[i], m.list[i].settings, direct, r);
    var m' := m.Reconnect(url, direct, r);
    forall s | s in m'.list ensures s.settings.url !in m.transition {
      assert m.list[i] in m.list;
      assert s in m.list || s == m'.list[i];
    }
  }

  lemma TransitionConnectNew(c: Config, w: World, e: Event)
    requires Apart(w.m) && Legal(e) && e.Connect? && e.url != "" && !w.m.Has(e.url)
    ensures var w' := Apply(c, w, e); var connected := Succeeds(c, e.url, e.direct, e.r);
      && Apart(w'.m)
      && w'.m.transition.Keys == (if connected then w.m.transition.Keys - {e.url} else w.m.transition.Keys + {e.url})
      && forall url :: url in w.m.transition && url in w'.m.transition ==> w'.m.transition[url] == w.m.transition[url]
  {
    var st := VideoSourceModel.Settings(e.url, c.retryTimeoutSec);
    var w' := Apply(c, w, e);
    HasMeans(w.m, e.url);
    if Succeeds(c, e.url, e.direct, e.r) {
      NewEntry(c.recordEnable, st, e.direct, e.r);
      var s := NewSource(c.recordEnable).Connect(st, e.direct, e.r).0;
      assert w'.m.list == w.m.list + [s];
    }
  }

  lemma TransitionStep(c: Config, w: World, e: Event)
    requires Apart(w.m)
    ensures Apart(Apply(c, w, e).m)
    ensures Apply(c, w, e).m.transition.Keys ==
      if e.url == "" || !Legal(e) then w.m.transition.Keys
      else if e.Disconnect? then w.m.transition.Keys - {e.url}
      else if exists s :: s in w.m.list && s.settings.url == e.url then w.m.transition.Keys
      else if Succeeds(c, e.url, e.direct, e.r) then w.m.transition.Keys - {e.url}
      else w.m.transition.Keys + {e.url}
  {
    if Legal(e) && e.url != "" {
      EntryExists(w.m, e.url);
      if e.Disconnect? {
        KeptFrom(w.m.list, e.url);
      } else if w.m.Has(e.url) {
        ApartReconnect(w.m, e.url, e.direct, e.r);
      } else {
        TransitionConnectNew(c, w, e);
      }
    }
  }

  /** Over every run exactly the addresses whose last connect failed are in transition, and none of them
      has an entry. */
  lemma {:induction false} TransitionTracks(c: Config, es: seq<Event>)
    ensures After(c, es).m.transition.Keys == FailedAddresses(c, es) && Apart(After(c, es).m)
  {
    if es != [] {
      TransitionTracks(c, es[..|es| - 1]);
      TransitionStep(c, After(c, es[..|es| - 1]), es[|es| - 1]);
    }
  }

  // Observers.

  /** A source connected to be watched has an entry whose last registration is the observer's; entries of
      other addresses keep their observers, and nothing else changes. */
  lemma WatchesEntries(m: Sources, recordEnable: bool, st: Settings, o: ObserverId, direct: Attempt, r: Retries)
    requires r.Timely() && !direct.shutDown && m.ConnectSource(recordEnable, st, direct, r).1
    ensures var connected := m.ConnectSource(recordEnable, st, direct, r).0;
      var (m', ok) := m.ConnectWatched(recordEnable, st, o, direct, r);
      && ok && |m'.list| == |connected.list| && m'.transition == connected.transition
      && (forall i :: 0 <= i < |m'.list| ==>
            var observers := connected.list[i].signal.observers;
            && m'.list[i].signal.observers == (if connected.list[i].settings.url == st.url then observers + [o] else observers)
            && m'.list[i] == connected.list[i].(signal := connected.list[i].signal.(observers := m'.list[i].signal.observers)))
      && exists i :: 0 <= i < |m'.list| && m'.list[i].settings.url == st.url
  {
    var connected := m.ConnectSource(recordEnable, st, direct, r).0;
    HasMeans(m, st.url);
    if m.Has(st.url) {
      var i := m.IndexOf(st.url, 0);
      ConnectAnswers.ConnectAnswer(m.list[i], m.list[i].settings, direct, r);
      assert connected.list[i].settings.url == st.url;
    } else {
      NewEntry(recordEnable, st, direct, r);
      assert connected.list[|m.list|].settings == st;
    }
  }
}
