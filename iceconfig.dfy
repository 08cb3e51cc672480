/** The client's ICE server configuration: fourteen public STUN servers, an
    (empty) list of custom TURN servers and three free TURN relays, assembled
    into the configuration a peer connection is created with. */
module IceConfig {
  import opened Optional

  /** One entry of `iceServers`: a url and, for a TURN relay, its credentials. */
  datatype IceServer = IceServer(urls: string, username: Option<string>, credential: Option<string>)

  datatype IceConfiguration = IceConfiguration(iceServers: seq<IceServer>, iceCandidatePoolSize: nat)

  function Stun(url: string): IceServer
  {
    IceServer(url, None, None)
  }

  const FreeRelayUser := "openrelayproject"

  function FreeRelay(url: string): IceServer
  {
    IceServer(url, Some(FreeRelayUser), Some(FreeRelayUser))
  }

  /** Custom TURN servers; the shipped configuration lists none. */
  const TurnServers: seq<IceServer> := []

  /** Free TURN relays, meant only as a fallback. */
  const FreeTurnServers: seq<IceServer> := [
    FreeRelay("turn:openrelay.metered.ca:80"),
    FreeRelay("turn:openrelay.metered.ca:443"),
    FreeRelay("turn:openrelay.metered.ca:443?transport=tcp")
  ]

  /** Public STUN servers. */
  const StunServers: seq<IceServer> := [
    Stun("stun:stun.l.google.com:19302"),
    Stun("stun:stun1.l.google.com:19302"),
    Stun("stun:stun2.l.google.com:19302"),
    Stun("stun:stun3.l.google.com:19302"),
    Stun("stun:stun4.l.google.com:19302"),
    Stun("stun:stun.ekiga.net"),
    Stun("stun:stun.ideasip.com"),
    Stun("stun:stun.schlund.de"),
    Stun("stun:stun.stunprotocol.org:3478"),
    Stun("stun:stun.voiparound.com"),
    Stun("stun:stun.voipbuster.com"),
    Stun("stun:stun.voipstunt.com"),
    Stun("stun:stun.voxgratia.org"),
    Stun("stun:stun.xten.com")
  ]

  const CandidatePoolSize: nat := 10

  /** The server list the configuration is specified to hold: the STUN
      servers, followed, when TURN is wanted, by the custom and then the free
      TURN servers. */
  function IceServerList(useTurnServers: bool): seq<IceServer>
  {
    if useTurnServers then StunServers + TurnServers + FreeTurnServers else StunServers
  }

  /** `servers.push(...items)`: append every item, in order. */
  method PushAll(servers: seq<IceServer>, items: seq<IceServer>) returns (r: seq<IceServer>)
    ensures r == servers + items
  {
    r := servers;
    for i := 0 to |items|
      invariant r == servers + items[..i]
    {
      r := r + [items[i]];
    }
    assert items[..|items|] == items;
  }

  /** `getIceServers`: copy the STUN list, extend the copy with the TURN
      lists when asked to, and fix the candidate pool size at 10. */
  method GetIceServers(useTurnServers: bool := false) returns (config: IceConfiguration)
    ensures config.iceServers == IceServerList(useTurnServers)
    ensures config.iceCandidatePoolSize == 10
  {
    var servers := StunServers;
    if useTurnServers {
      servers := PushAll(servers, TurnServers);
      servers := PushAll(servers, FreeTurnServers);
    }
    config := IceConfiguration(servers, CandidatePoolSize);
  }

  /** Fourteen servers without TURN, seventeen with it; the STUN servers
      always come first, unchanged. */
  lemma IceServerListShape(useTurnServers: bool)
    ensures |IceServerList(useTurnServers)| == if useTurnServers then 17 else 14
    ensures IceServerList(useTurnServers)[..|StunServers|] == StunServers
    ensures !useTurnServers ==> IceServerList(useTurnServers) == StunServers
  {
    var l := IceServerList(useTurnServers);
    assert |StunServers| == 14 && |FreeTurnServers| == 3;
    assert (StunServers + TurnServers + FreeTurnServers)[..14] == StunServers;
  }

  predicate HasPrefix(p: string, s: string)
  {
    |p| <= |s| && s[..|p|] == p
  }

  /** Every built-in STUN server is a credential-free `stun:` url. */
  lemma StunServersAreStun()
    ensures forall k :: 0 <= k < |StunServers| ==>
              HasPrefix("stun:", StunServers[k].urls)
              && StunServers[k].username == None && StunServers[k].credential == None
  {
    forall k | 0 <= k < |StunServers|
      ensures HasPrefix("stun:", StunServers[k].urls)
    {
      var u := StunServers[k].urls;
      assert u[..5] == "stun:";
    }
  }

  /** Every free relay is a `turn:` url carrying the shared open-relay
      username and credential. */
  lemma FreeTurnServersAreTurn()
    ensures forall k :: 0 <= k < |FreeTurnServers| ==>
              HasPrefix("turn:", FreeTurnServers[k].urls)
              && FreeTurnServers[k].username == Some("openrelayproject")
              && FreeTurnServers[k].credential == Some("openrelayproject")
  {
    forall k | 0 <= k < |FreeTurnServers|
      ensures HasPrefix("turn:", FreeTurnServers[k].urls)
    {
      var u := FreeTurnServers[k].urls;
      if k == 0 {
        assert u[..5] == "turn:";
      } else if k == 1 {
        assert u[..5] == "turn:";
      } else {
        assert u[..5] == "turn:";
      }
    }
  }

  /** In the assembled list, the first fourteen entries are credential-free
      STUN servers and every later one is a credentialed TURN relay. */
  lemma IceServerListSchemes(useTurnServers: bool)
    ensures forall k :: 0 <= k < |IceServerList(useTurnServers)| ==>
              (k < 14 ==> HasPrefix("stun:", IceServerList(useTurnServers)[k].urls)
                          && IceServerList(useTurnServers)[k].credential == None)
              && (k >= 14 ==> HasPrefix("turn:", IceServerList(useTurnServers)[k].urls)
                              && IceServerList(useTurnServers)[k].credential == Some(FreeRelayUser))
  {
    StunServersAreStun();
    FreeTurnServersAreTurn();
    var l := IceServerList(useTurnServers);
    IceServerListShape(useTurnServers);
    forall k | 0 <= k < |l|
      ensures (k < 14 ==> HasPrefix("stun:", l[k].urls) && l[k].credential == None)
              && (k >= 14 ==> HasPrefix("turn:", l[k].urls) && l[k].credential == Some(FreeRelayUser))
    {
      if k < 14 {
        assert l[k] == StunServers[k];
      } else {
        assert l[k] == FreeTurnServers[k - 14];
      }
    }
  }
}
