/** The source manager: shared sources and retranslators over heap objects. */
module SourceManager {
  import opened Common
  import VideoSourceModel
  import VideoSource
  import opened SourcesModel
  import opened SourcesRuns
  import RetranslationModel
  import opened RetranslationRuns

  type Remote = VideoSource.VideoSourceRemote2
  type Retranslator = RetranslationModel.Retranslator
  type SourceParameters = RetranslationModel.SourceParameters

  class SourceManagerFacade {
    const config: RetranslationModel.Config
    const connecting: Config
    var videoSources: seq<Remote>
    var videoSourcesInTransitionState: map<Url, Remote>
    var retranslators: seq<Retranslator>
    var sourceParametersFromDiedRetranslators: map<Url, SourceParameters>
    var rtspSourcePortCounter: int
    ghost var repr: set<Remote>

    static ghost function Models(list: seq<Remote>): (models: seq<VideoSourceModel.Source>)
      reads list
      ensures |models| == |list| && forall i :: 0 <= i < |list| ==> models[i] == list[i].Model()
    {
      if list == [] then [] else [list[0].Model()] + Models(list[1..])
    }

    ghost function List(): seq<VideoSourceModel.Source>
      reads this, videoSources
    {
      Models(videoSources)
    }

    ghost function Transition(): map<Url, VideoSourceModel.Source>
      reads this, videoSourcesInTransitionState.Values
    {
      map u | u in videoSourcesInTransitionState :: videoSourcesInTransitionState[u].Model()
    }

    ghost function SourcesModel(): Sources
      reads this, videoSources, videoSourcesInTransitionState.Values
    {
      Sources(List(), Transition())
    }

    ghost function RetranslationState(): RetranslationModel.State
      reads this
    {
      RetranslationModel.State(retranslators, sourceParametersFromDiedRetranslators, rtspSourcePortCounter)
    }

    /** The lists share no source, and no source is in either twice. */
    ghost predicate Valid()
      reads this
    {
      && Distinct(videoSources)
      && (forall s :: s in videoSources ==> s in repr)
      && (forall u :: u in videoSourcesInTransitionState ==>
            videoSourcesInTransitionState[u] in repr && videoSourcesInTransitionState[u] !in videoSources)
      && (forall u, v :: u in videoSourcesInTransitionState && v in videoSourcesInTransitionState && u != v ==>
            videoSourcesInTransitionState[u] != videoSourcesInTransitionState[v])
    }

    constructor (config: RetranslationModel.Config, connecting: Config, initialPort: int)
      ensures Valid() && this.config == config && this.connecting == connecting
      ensures SourcesModel() == Sources([], map[]) && RetranslationState() == RetranslationModel.State([], map[], initialPort)
    {
      this.config, this.connecting := config, connecting;
      videoSources, videoSourcesInTransitionState := [], map[];
      retranslators, sourceParametersFromDiedRetranslators, rtspSourcePortCounter := [], map[], initialPort;
      repr := {};
    }

    // Shared sources.

    method FindSource(url: Url) returns (i: nat)
      requires Valid()
      ensures i == SourcesModel().IndexOf(url, 0)
    {
      i := 0;
      while i < |videoSources| && videoSources[i].settings.url != url
        invariant i <= |videoSources| && SourcesModel().IndexOf(url, 0) == SourcesModel().IndexOf(url, i)
      {
        assert List()[i].settings.url == videoSources[i].settings.url;
        i := i + 1;
      }
      assert i < |videoSources| ==> List()[i].settings.url == videoSources[i].settings.url;
    }

    method ConnectSource(url: Url, direct: VideoSourceModel.Attempt, r: VideoSourceModel.Retries) returns (connected: bool)
      requires Valid() && r.Timely()
      modifies this, repr
      ensures Valid() && repr >= old(repr) && fresh(repr - old(repr))
      ensures RetranslationState() == old(RetranslationState())
      ensures (SourcesModel(), connected) ==
        old(SourcesModel()).ConnectSource(connecting.recordEnable, VideoSourceModel.Settings(url, connecting.retryTimeoutSec), direct, r)
    {
      if url == "" {
        return false;
      }
      var i := FindSource(url);
      if i < |videoSources| {
        Reconnect(i, direct, r);
        return true;
      }
      connected := ConnectNew(url, direct, r);
    }

    method Reconnect(i: nat, direct: VideoSourceModel.Attempt, r: VideoSourceModel.Retries)
      requires Valid() && r.Timely() && i < |videoSources|
      modifies repr
      ensures Valid()
      ensures var m := old(SourcesModel());
        SourcesModel() == m.(list := m.list[i := m.list[i].Connect(m.list[i].settings, direct, r).0])
    {
      hide Models;
      ghost var m := SourcesModel();
      var source := videoSources[i];
      assert source in videoSources;
      var ignored := source.Connect(source.settings, direct, r);
      assert List() == m.list[i := source.Model()];
      assert Transition() == m.transition;
    }

    method ConnectNew(url: Url, direct: VideoSourceModel.Attempt, r: VideoSourceModel.Retries) returns (connected: bool)
      requires Valid() && r.Timely()
      modifies this
      ensures Valid() && repr >= old(repr) && fresh(repr - old(repr))
      ensures RetranslationState() == old(RetranslationState())
      ensures var m := old(SourcesModel());
        var (s, result) := VideoSourceModel.NewSource(connecting.recordEnable).Connect(
          VideoSourceModel.Settings(url, connecting.retryTimeoutSec), direct, r);
        connected == result.Connected? && SourcesModel() == m.Stored(url, s, connected)
    {
      var source;
      source, connected := LaunchNew(url, direct, r);
      Store(url, source, connected);
    }

    method Store(url: Url, source: Remote, connected: bool)
      requires Valid() && source !in repr
      modifies `videoSources, `videoSourcesInTransitionState, `repr
      ensures Valid() && repr == old(repr) + {source}
      ensures SourcesModel() == old(SourcesModel()).Stored(url, source.Model(), connected)
    {
      if connected {
        Register(url, source);
      } else {
        KeepInTransition(url, source);
      }
    }

    method LaunchNew(url: Url, direct: VideoSourceModel.Attempt, r: VideoSourceModel.Retries) returns (source: Remote, connected: bool)
      requires r.Timely()
      ensures fresh(source)
      ensures var (s, result) := VideoSourceModel.NewSource(connecting.recordEnable).Connect(
          VideoSourceModel.Settings(url, connecting.retryTimeoutSec), direct, r);
        source.Model() == s && connected == result.Connected?
    {
      source := new VideoSource.VideoSourceRemote2(connecting.recordEnable);
      var result := source.Connect(VideoSourceModel.Settings(url, connecting.retryTimeoutSec), direct, r);
      connected := result.Connected?;
    }

    method Register(url: Url, source: Remote)
      requires Valid() && source !in repr
      modifies `videoSources, `videoSourcesInTransitionState, `repr
      ensures Valid() && repr == old(repr) + {source}
      ensures List() == old(List()) + [source.Model()] && Transition() == old(Transition()) - {url}
    {
      hide Models;
      ghost var list, transition := List(), Transition();
      videoSources := videoSources + [source];
      videoSourcesInTransitionState := videoSourcesInTransitionState - {url};
      repr := repr + {source};
      assert List() == list + [source.Model()];
      assert Transition() == transition - {url};
    }

    method KeepInTransition(url: Url, source: Remote)
      requires Valid() && source !in repr
      modifies `videoSourcesInTransitionState, `repr
      ensures Valid() && repr == old(repr) + {source}
      ensures List() == old(List()) && Transition() == Inserted(old(Transition()), url, source.Model())
    {
      hide Models;
      ghost var transition := Transition();
      videoSourcesInTransitionState := Inserted(videoSourcesInTransitionState, url, source);
      repr := repr + {source};
      assert Transition() == Inserted(transition, url, source.Model());
    }

    method DisconnectSource(url: Url) returns (ok: bool)
      requires Valid()
      modifies this, repr
      ensures Valid() && repr == old(repr)
      ensures RetranslationState() == old(RetranslationState())
      ensures (SourcesModel(), ok) == old(SourcesModel()).DisconnectSource(url)
    {
      if url == "" {
        return false;
      }
      VisitSources(url);
      AbortTransition(url);
      return true;
    }

    method VisitSources(url: Url)
      requires Valid()
      modifies `videoSources, repr
      ensures Valid() && List() == Kept(old(List()), url) && Transition() == old(Transition())
    {
      ghost var list := List();
      var i := 0;
      assert list[..0] + Kept(list[0..], url) == Kept(list, url) by {
        assert list[0..] == list;
      }
      while i < |videoSources|
        invariant Valid() && i <= |videoSources|
        invariant Transition() == old(Transition())
        invariant List()[..i] + Kept(List()[i..], url) == Kept(list, url)
        decreases |videoSources| - i
      {
        KeptVisit(List(), url, i);
        var erased := VisitSource(i, url);
        i := if erased then i else i + 1;
      }
      assert List()[..i] + [] == List();
    }

    /** One entry loses a reference if it is of this address, and goes when that was its last. */
    method VisitSource(i: nat, url: Url) returns (erased: bool)
      requires Valid() && i < |videoSources|
      modifies `videoSources, repr
      ensures Valid() && |videoSources| == old(|videoSources|) - if erased then 1 else 0
      ensures Transition() == old(Transition())
      ensures var list := old(List()); var s := list[i];
        && erased == (s.settings.url == url && s.Disconnect().refs == 0)
        && List() == if s.settings.url != url then list else if erased then Erased(list, i) else list[i := s.Disconnect()]
    {
      var source := videoSources[i];
      assert List()[i] == source.Model();
      if source.settings.url != url {
        return false;
      }
      Release(i);
      if source.referenceCounter == 0 {
        EraseSource(i);
        return true;
      }
      return false;
    }

    method Release(i: nat)
      requires Valid() && i < |videoSources|
      modifies repr
      ensures Valid() && Transition() == old(Transition())
      ensures List() == old(List())[i := old(List())[i].Disconnect()] && videoSources[i].Model() == List()[i]
    {
      hide Models;
      ghost var list, transition := List(), Transition();
      var source := videoSources[i];
      assert source in videoSources && list[i] == source.Model();
      source.Disconnect();
      assert List() == list[i := source.Model()];
      assert Transition() == transition;
    }

    method EraseSource(i: nat)
      requires Valid() && i < |videoSources|
      modifies `videoSources
      ensures Valid() && |videoSources| == old(|videoSources|) - 1
      ensures List() == Erased(old(List()), i) && Transition() == old(Transition())
    {
      hide Models;
      ghost var list := List();
      videoSources := Erased(videoSources, i);
      assert List() == Erased(list, i);
    }

    method AbortTransition(url: Url)
      requires Valid()
      modifies `videoSourcesInTransitionState, repr
      ensures Valid()
      ensures List() == old(List()) && Transition() == old(Transition()) - {url}
    {
      ghost var transition := Transition();
      if url in videoSourcesInTransitionState {
        ReleaseInTransition(url);
        EraseTransition(url);
        assert transition[url := transition[url].Disconnect()] - {url} == transition - {url};
      } else {
        assert transition - {url} == transition;
      }
    }

    method EraseTransition(url: Url)
      requires Valid()
      modifies `videoSourcesInTransitionState
      ensures Valid()
      ensures List() == old(List()) && Transition() == old(Transition()) - {url}
    {
      ghost var transition := Transition();
      videoSourcesInTransitionState := videoSourcesInTransitionState - {url};
      assert Transition() == transition - {url};
    }

    method ReleaseInTransition(url: Url)
      requires Valid() && url in videoSourcesInTransitionState
      modifies repr
      ensures Valid() && List() == old(List())
      ensures Transition() == old(Transition())[url := old(Transition())[url].Disconnect()]
    {
      hide Models;
      ghost var list, transition := List(), Transition();
      var source := videoSourcesInTransitionState[url];
      assert source !in videoSources;
      source.Disconnect();
      assert List() == list;
      assert Transition() == transition[url := source.Model()];
    }

    // Retranslators.

    method GetRTSPSourcePort() returns (port: int)
      modifies `rtspSourcePortCounter
      ensures port == old(rtspSourcePortCounter) && rtspSourcePortCounter == port + 1
    {
      port := rtspSourcePortCounter;
      rtspSourcePortCounter := rtspSourcePortCounter + 1;
    }

    method FindFreeUdpPort() returns (port: int)
      ensures port == RetranslationState().Search(config.udpRangeEnd, config.udpRangeBegin)
    {
      port := config.udpRangeBegin;
      while port <= config.udpRangeEnd
        invariant RetranslationState().Search(config.udpRangeEnd, config.udpRangeBegin)
               == RetranslationState().Search(config.udpRangeEnd, port)
        decreases config.udpRangeEnd - port
      {
        var found := false;
        for i := 0 to |retranslators|
          invariant found <==> exists j :: 0 <= j < i && retranslators[j].udpBegin == port
        {
          if retranslators[i].udpBegin == port {
            found := true;
          }
        }
        assert found <==> port in RetranslationState().UdpBegins();
        if !found {
          return;
        }
        port := port + 2;
      }
    }

    method IsRetranslated(url: Url) returns (found: bool)
      ensures found <==> url in RetranslationState().Urls()
    {
      for i := 0 to |retranslators|
        invariant forall j :: 0 <= j < i ==> retranslators[j].sourceUrl != url
      {
        if retranslators[i].sourceUrl == url {
          assert retranslators[i] in retranslators;
          return true;
        }
      }
      return false;
    }

    /** `starts` says which of the interfaces' servers start. */
    method CreateRetranslator(source: SourceParameters, starts: seq<bool>) returns (created: bool)
      requires |starts| == |config.interfaces|
      modifies `retranslators, `rtspSourcePortCounter
      ensures (RetranslationState(), created) == old(RetranslationState()).Create(config, source, starts)
      ensures created <==> forall x :: x in old(retranslators) ==> x.sourceUrl != source.sourceUrl
    {
      ghost var s := RetranslationState();
      var port := FindFreeUdpPort();
      var exists' := IsRetranslated(source.sourceUrl);
      if exists' {
        return false;
      }
      for i := 0 to |config.interfaces|
        invariant rtspSourcePortCounter == s.portCounter + i
        invariant retranslators == s.list + s.Group(config, source, port, starts, i)
      {
        var serverPort := GetRTSPSourcePort();
        if starts[i] {
          retranslators := retranslators +
            [RetranslationModel.Retranslator(source.sourceUrl, config.interfaces[i], serverPort, port, port + 1, source)];
        }
      }
      return true;
    }

    method EraseRetranslators(url: Url) returns (found: bool)
      modifies `retranslators
      ensures (RetranslationState(), found) == old(RetranslationState()).Stop(url)
    {
      ghost var list := retranslators;
      found := false;
      var i := 0;
      assert list[0..] == list;
      while i < |retranslators|
        invariant i <= |retranslators|
        invariant retranslators[..i] + RetranslationModel.Dropping(retranslators[i..], url) == RetranslationModel.Dropping(list, url)
        invariant !found ==> retranslators == list && forall j :: 0 <= j < i ==> list[j].sourceUrl != url
        invariant found ==> exists x :: x in list && x.sourceUrl == url
        decreases |retranslators| - i
      {
        DroppingVisit(retranslators, url, i);
        if retranslators[i].sourceUrl == url {
          assert !found ==> list[i] in list;
          found := true;
          retranslators := Erased(retranslators, i);
        } else {
          i := i + 1;
        }
      }
      assert retranslators[..i] + [] == retranslators;
    }

    /** The group of a source that lost its signal goes; its first member's parameters are kept. */
    method LoseRetranslators(url: Url)
      modifies `retranslators, `sourceParametersFromDiedRetranslators
      ensures RetranslationState() == old(RetranslationState()).Lose(url)
    {
      ghost var s := RetranslationState();
      ghost var found := false;
      var i := 0;
      assert s.list[0..] == s.list;
      while i < |retranslators|
        invariant i <= |retranslators|
        invariant retranslators[..i] + RetranslationModel.Dropping(retranslators[i..], url) == RetranslationModel.Dropping(s.list, url)
        invariant !found ==> retranslators == s.list && sourceParametersFromDiedRetranslators == s.died
        invariant !found ==> forall j :: 0 <= j < i ==> s.list[j].sourceUrl != url
        invariant found ==> Remembered(s, url, sourceParametersFromDiedRetranslators)
        decreases |retranslators| - i
      {
        DroppingVisit(retranslators, url, i);
        var rtsp := retranslators[i];
        if rtsp.sourceUrl == url {
          if !found {
            FirstRemembered(s, url, i);
          }
          sourceParametersFromDiedRetranslators := Inserted(sourceParametersFromDiedRetranslators, url, rtsp.copyOfSourceParameters);
          found := true;
          retranslators := Erased(retranslators, i);
        } else {
          i := i + 1;
        }
      }
      assert retranslators[..i] + [] == retranslators;
      if !found {
        NothingDropped(s.list, url);
      }
    }

    /** `sensorUrl` is the address objrepr gives for the source's sensor. */
    method LaunchRetranslation(source: SourceParameters, sensorUrl: Url, starts: seq<bool>, observer: VideoSourceModel.ObserverId,
                               direct: VideoSourceModel.Attempt, r: VideoSourceModel.Retries) returns (launched: bool)
      requires Valid() && r.Timely() && |starts| == |config.interfaces|
      modifies this, repr
      ensures Valid() && repr >= old(repr) && fresh(repr - old(repr))
      ensures SourcesModel() == Watching(old(SourcesModel()), sensorUrl, observer, direct, r).0
      ensures RetranslationState() ==
        if Watching(old(SourcesModel()), sensorUrl, observer, direct, r).1
        then old(RetranslationState()).Create(config, source.(sourceUrl := sensorUrl), starts).0 else old(RetranslationState())
      ensures launched <==>
        Watching(old(SourcesModel()), sensorUrl, observer, direct, r).1 && sensorUrl !in old(RetranslationState()).Urls()
    {
      var connected := ConnectWatched(sensorUrl, observer, direct, r);
      if connected {
        launched := AddRetranslator(source.(sourceUrl := sensorUrl), starts);
      } else {
        launched := false;
      }
    }

    ghost function Watching(m: Sources, url: Url, o: VideoSourceModel.ObserverId,
                            direct: VideoSourceModel.Attempt, r: VideoSourceModel.Retries): (Sources, bool)
      requires r.Timely()
    {
      m.ConnectWatched(connecting.recordEnable, VideoSourceModel.Settings(url, connecting.retryTimeoutSec), o, direct, r)
    }

    method AddRetranslator(source: SourceParameters, starts: seq<bool>) returns (created: bool)
      requires Valid() && |starts| == |config.interfaces|
      modifies `retranslators, `rtspSourcePortCounter
      ensures Valid() && SourcesModel() == old(SourcesModel())
      ensures RetranslationState() == old(RetranslationState()).Create(config, source, starts).0
      ensures created <==> source.sourceUrl !in old(RetranslationState()).Urls()
    {
      created := CreateRetranslator(source, starts);
    }

    method ConnectWatched(url: Url, observer: VideoSourceModel.ObserverId,
                          direct: VideoSourceModel.Attempt, r: VideoSourceModel.Retries) returns (connected: bool)
      requires Valid() && r.Timely()
      modifies this, repr
      ensures Valid() && repr >= old(repr) && fresh(repr - old(repr))
      ensures RetranslationState() == old(RetranslationState())
      ensures (SourcesModel(), connected) == Watching(old(SourcesModel()), url, observer, direct, r)
    {
      connected := ConnectSource(url, direct, r);
      if connected {
        AddSourceObserver(url, observer);
      }
    }

    method AddSourceObserver(url: Url, observer: VideoSourceModel.ObserverId)
      requires Valid()
      modifies repr
      ensures Valid()
      ensures List() == AllWatched(old(List()), url, observer) && Transition() == old(Transition())
    {
      ghost var list := List();
      for i := 0 to |videoSources|
        invariant Transition() == old(Transition())
        invariant forall j :: 0 <= j < |list| ==> List()[j] == if j < i then Watched(list[j], url, observer) else list[j]
      {
        Watch(i, url, observer);
      }
    }

    method Watch(i: nat, url: Url, observer: VideoSourceModel.ObserverId)
      requires Valid() && i < |videoSources|
      modifies repr
      ensures Valid() && Transition() == old(Transition())
      ensures List() == old(List())[i := Watched(old(List())[i], url, observer)]
    {
      hide Models;
      ghost var list, transition := List(), Transition();
      var source := videoSources[i];
      assert source in videoSources && list[i] == source.Model();
      if source.settings.url == url {
        source.AddObserver(observer);
      }
      assert List() == list[i := source.Model()];
      assert Transition() == transition;
    }

    method StopRetranslation(sensorUrl: Url) returns (stopped: bool)
      requires Valid()
      modifies this, repr
      ensures Valid() && repr == old(repr)
      ensures SourcesModel() == old(SourcesModel()).DisconnectSource(sensorUrl).0
      ensures if sensorUrl == "" then !stopped && RetranslationState() == old(RetranslationState())
              else (RetranslationState(), stopped) == old(RetranslationState()).Stop(sensorUrl)
      ensures stopped <==> sensorUrl != "" && exists x :: x in old(retranslators) && x.sourceUrl == sensorUrl
    {
      var ok := DisconnectSource(sensorUrl);
      if !ok {
        return false;
      }
      ghost var m := SourcesModel();
      stopped := EraseRetranslators(sensorUrl);
      assert SourcesModel() == m;
    }

    method CallbackVideoSourceConnection(established: bool, url: Url, starts: seq<bool>)
      requires |starts| == |config.interfaces|
      modifies `retranslators, `sourceParametersFromDiedRetranslators, `rtspSourcePortCounter
      ensures RetranslationState() ==
        if established then old(RetranslationState()).Restore(config, url, starts) else old(RetranslationState()).Lose(url)
    {
      if !established {
        LoseRetranslators(url);
        return;
      }
      var active := IsRetranslated(url);
      if active {
        return;
      }
      sourceParametersFromDiedRetranslators := Inserted(sourceParametersFromDiedRetranslators, url, RetranslationModel.DEFAULT_SOURCE);
      var created := CreateRetranslator(sourceParametersFromDiedRetranslators[url], starts);
    }
  }

  lemma {:induction false} FirstAt(list: seq<Retranslator>, url: Url, i: nat)
    requires i < |list| && list[i].sourceUrl == url && forall j :: 0 <= j < i ==> list[j].sourceUrl != url
    ensures list[i] in list && RetranslationModel.FirstOf(list, url) == list[i]
  {
    if i > 0 {
      assert list[i] in list && list[1..][i - 1] == list[i];
      FirstAt(list[1..], url, i - 1);
    }
  }

  /** What is kept once the first member of the address has been met; later members add nothing. */
  ghost predicate Remembered(s: RetranslationModel.State, url: Url, died: map<Url, SourceParameters>) {
    url in s.Urls() && url in died && died == s.Lose(url).died
  }

  lemma FirstRemembered(s: RetranslationModel.State, url: Url, i: nat)
    requires i < |s.list| && s.list[i].sourceUrl == url && forall j :: 0 <= j < i ==> s.list[j].sourceUrl != url
    ensures Remembered(s, url, Inserted(s.died, url, s.list[i].copyOfSourceParameters))
  {
    FirstAt(s.list, url, i);
  }

  lemma {:induction false} NothingDropped(list: seq<Retranslator>, url: Url)
    requires forall x :: x in list ==> x.sourceUrl != url
    ensures RetranslationModel.Dropping(list, url) == list
  {
    if list != [] {
      NothingDropped(list[1..], url);
    }
  }
}
