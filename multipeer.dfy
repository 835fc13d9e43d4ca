/** The transport manager's on/off logic: the advertiser and browser flags, the optional
    advertiser, browser and session handles, and the guards around them. The networking
    calls are recorded as effects in the order they are issued. */
module Multipeer {
  import opened Common

  datatype Advertiser = Advertiser(peer: string, discoveryInfo: Option<map<string, string>>)
  datatype Browser = Browser(peer: string)
  datatype Session = Session(peer: string)

  datatype SessionState = NotConnected | Connecting | Connected

  /** A call into the networking framework, or a callback to the delegate. */
  datatype Effect =
    | StartAdvertising(advertiser: Advertiser)
    | StopAdvertising(advertiser: Advertiser)
    | StartBrowsing(browser: Browser)
    | StopBrowsing(browser: Browser)
    | Disconnect(session: Session)
    | Invite(browser: Browser, peer: Peer, session: Session)
    | Send(session: Session, data: seq<int>, to: seq<Peer>)
    | PeerDisconnected(peer: Peer)

  datatype ManagerState = ManagerState(
    peerId: Option<string>,
    advertiser: Option<Advertiser>,
    browser: Option<Browser>,
    session: Option<Session>,
    advertiserOn: bool,
    browserOn: bool,
    effects: seq<Effect>)

  // ---- The transitions, on values ----

  /** `initAdvertiser`: a new advertiser for the peer id; the old one stays without an id. */
  function InitAdvertiser(s: ManagerState, info: Option<map<string, string>>): (r: ManagerState)
    ensures r == s.(advertiser := r.advertiser)
    ensures r.advertiser.Some? <==> s.peerId.Some? || s.advertiser.Some?
  {
    if s.peerId.None? then s else s.(advertiser := Some(Advertiser(s.peerId.value, info)))
  }

  function InitBrowser(s: ManagerState): (r: ManagerState)
    ensures r == s.(browser := r.browser)
    ensures r.browser.Some? <==> s.peerId.Some? || s.browser.Some?
  {
    if s.peerId.None? then s else s.(browser := Some(Browser(s.peerId.value)))
  }

  function StartAdvertiser(s: ManagerState, info: Option<map<string, string>>): (r: ManagerState)
    ensures r.advertiserOn && s.effects <= r.effects
    ensures r.peerId == s.peerId && r.browser == s.browser && r.session == s.session && r.browserOn == s.browserOn
  {
    if s.advertiserOn then s
    else
      var t := InitAdvertiser(s, info);
      t.(advertiserOn := true,
         effects := t.effects + if t.advertiser.Some? then [StartAdvertising(t.advertiser.value)] else [])
  }

  function StopAdvertiser(s: ManagerState): (r: ManagerState)
    ensures s.effects <= r.effects && r.advertiser == s.advertiser
    ensures r.peerId == s.peerId && r.browser == s.browser && r.session == s.session && r.browserOn == s.browserOn
  {
    if s.advertiser.None? || !s.advertiserOn then s
    else s.(advertiserOn := false, effects := s.effects + [StopAdvertising(s.advertiser.value)])
  }

  function StartBrowser(s: ManagerState): (r: ManagerState)
    ensures r.browserOn && s.effects <= r.effects
    ensures r.peerId == s.peerId && r.advertiser == s.advertiser && r.session == s.session && r.advertiserOn == s.advertiserOn
  {
    if s.browserOn then s
    else
      var t := InitBrowser(s);
      t.(browserOn := true,
         effects := t.effects + if t.browser.Some? then [StartBrowsing(t.browser.value)] else [])
  }

  function StopBrowser(s: ManagerState): (r: ManagerState)
    ensures s.effects <= r.effects && r.browser == s.browser
    ensures r.peerId == s.peerId && r.advertiser == s.advertiser && r.session == s.session && r.advertiserOn == s.advertiserOn
  {
    if s.browser.None? || !s.browserOn then s
    else s.(browserOn := false, effects := s.effects + [StopBrowsing(s.browser.value)])
  }

  function StartSession(s: ManagerState): (r: ManagerState)
    ensures r == s.(session := r.session)
    ensures r.session.Some? <==> s.peerId.Some? || s.session.Some?
  {
    if s.peerId.None? then s else s.(session := Some(Session(s.peerId.value)))
  }

  /** `stopSession` disconnects but keeps the session. */
  function StopSession(s: ManagerState): (r: ManagerState)
    ensures r == s.(effects := r.effects) && s.effects <= r.effects
  {
    if s.session.None? then s else s.(effects := s.effects + [Disconnect(s.session.value)])
  }

  function Terminate(s: ManagerState): (r: ManagerState)
    ensures s.effects <= r.effects
    ensures r.peerId == s.peerId && r.advertiser == s.advertiser && r.browser == s.browser && r.session == s.session
  {
    StopSession(StopBrowser(StopAdvertiser(s)))
  }

  /** `invitePeerToSession`; the session is force-unwrapped once there is a browser. */
  function InvitePeer(s: ManagerState, peer: Peer): (r: ManagerState)
    requires s.browser.Some? ==> s.session.Some?
    ensures r == s.(effects := r.effects) && s.effects <= r.effects && |r.effects| <= |s.effects| + 1
  {
    if s.browser.None? then s
    else s.(effects := s.effects + [Invite(s.browser.value, peer, s.session.value)])
  }

  /** `broadcastData` to the session's currently connected peers; a failed send is ignored. */
  function Broadcast(s: ManagerState, data: seq<int>, connected: seq<Peer>): (r: ManagerState)
    ensures r == s.(effects := r.effects) && s.effects <= r.effects && |r.effects| <= |s.effects| + 1
  {
    if s.session.None? || |connected| == 0 then s
    else s.(effects := s.effects + [Send(s.session.value, data, connected)])
  }

  /** The state-change callback: only a disconnection is passed on to the delegate. */
  function SessionStateChanged(s: ManagerState, peer: Peer, state: SessionState): (r: ManagerState)
    ensures r == s.(effects := r.effects) && s.effects <= r.effects
  {
    if state == NotConnected then s.(effects := s.effects + [PeerDisconnected(peer)]) else s
  }

  /** Flags and handles, leaving out the effect log. */
  function Switches(s: ManagerState): (bool, bool, Option<Advertiser>, Option<Browser>, Option<Session>) {
    (s.advertiserOn, s.browserOn, s.advertiser, s.browser, s.session)
  }

  // ---- Properties of the transitions ----

  /** Starting what is already on does nothing at all. */
  lemma StartWhenOnIsNoOp(s: ManagerState, info: Option<map<string, string>>)
    ensures s.advertiserOn ==> StartAdvertiser(s, info) == s
    ensures s.browserOn ==> StartBrowser(s) == s
  {
  }

  /** After a start the flag is on, even without a peer id. Without one nothing new is made:
      the handle is the old one, started again if there is one, and with none nothing is
      started. With a peer id a new handle is made and started. */
  lemma StartSetsFlag(s: ManagerState, info: Option<map<string, string>>)
    ensures StartAdvertiser(s, info).advertiserOn && StartBrowser(s).browserOn
    ensures !s.advertiserOn && s.peerId.None? ==>
      StartAdvertiser(s, info).advertiser == s.advertiser
    ensures !s.advertiserOn && s.peerId.Some? ==>
      StartAdvertiser(s, info).advertiser == Some(Advertiser(s.peerId.value, info)) &&
      StartAdvertiser(s, info).effects == s.effects + [StartAdvertising(Advertiser(s.peerId.value, info))]
    ensures !s.advertiserOn && s.peerId.None? && s.advertiser.None? ==>
      StartAdvertiser(s, info).effects == s.effects
    ensures !s.browserOn && s.peerId.None? ==> StartBrowser(s).browser == s.browser
    ensures !s.browserOn && s.peerId.None? && s.browser.None? ==> StartBrowser(s).effects == s.effects
  {
  }

  /** A stop does nothing without a handle or with the flag off, and otherwise turns the
      flag off and keeps the handle. */
  lemma StopGuards(s: ManagerState)
    ensures s.advertiser.None? || !s.advertiserOn ==> StopAdvertiser(s) == s
    ensures s.advertiser.Some? && s.advertiserOn ==>
      !StopAdvertiser(s).advertiserOn && StopAdvertiser(s).advertiser == s.advertiser
    ensures s.browser.None? || !s.browserOn ==> StopBrowser(s) == s
    ensures s.browser.Some? && s.browserOn ==>
      !StopBrowser(s).browserOn && StopBrowser(s).browser == s.browser
  {
  }

  /** `terminate` leaves a flag whose handle is missing as it was, turns the others off,
      and a second `terminate` changes no flag or handle. */
  lemma TerminateProperties(s: ManagerState)
    ensures s.advertiser.None? ==> Terminate(s).advertiserOn == s.advertiserOn
    ensures s.browser.None? ==> Terminate(s).browserOn == s.browserOn
    ensures s.advertiser.Some? ==> !Terminate(s).advertiserOn
    ensures s.browser.Some? ==> !Terminate(s).browserOn
    ensures Switches(Terminate(Terminate(s))) == Switches(Terminate(s))
    ensures Terminate(s).session == s.session
  {
  }

  lemma StartSessionNeedsPeerId(s: ManagerState)
    ensures s.peerId.None? ==> StartSession(s) == s
    ensures s.peerId.Some? ==> StartSession(s).session == Some(Session(s.peerId.value))
  {
  }

  /** Nothing is sent without a session or without a connected peer. */
  lemma BroadcastGuards(s: ManagerState, data: seq<int>, connected: seq<Peer>)
    ensures s.session.None? || |connected| == 0 ==> Broadcast(s, data, connected) == s
    ensures s.session.Some? && |connected| > 0 ==>
      Broadcast(s, data, connected).effects == s.effects + [Send(s.session.value, data, connected)]
    ensures Switches(Broadcast(s, data, connected)) == Switches(s)
  {
  }

  lemma InviteGuard(s: ManagerState, peer: Peer)
    requires s.browser.Some? ==> s.session.Some?
    ensures s.browser.None? ==> InvitePeer(s, peer) == s
    ensures s.browser.Some? ==>
      InvitePeer(s, peer).effects == s.effects + [Invite(s.browser.value, peer, s.session.value)]
  {
  }

  /** The delegate hears of a peer exactly when its state becomes `notConnected`. */
  lemma DisconnectCallbackIff(s: ManagerState, peer: Peer, state: SessionState)
    ensures SessionStateChanged(s, peer, state).effects == s.effects + [PeerDisconnected(peer)] <==>
      state == NotConnected
    ensures state != NotConnected ==> SessionStateChanged(s, peer, state) == s
  {
    if state != NotConnected {
      assert |SessionStateChanged(s, peer, state).effects| == |s.effects|;
    }
  }

  // ---- The manager ----

  class MultipeerManager {
    var peerId: Option<string>
    var advertiser: Option<Advertiser>
    var browser: Option<Browser>
    var session: Option<Session>
    var advertiserOn: bool
    var browserOn: bool
    var effects: seq<Effect>

    constructor ()
      ensures State() == ManagerState(None, None, None, None, false, false, [])
    {
      peerId, advertiser, browser, session := None, None, None, None;
      advertiserOn, browserOn := false, false;
      effects := [];
    }

    function State(): ManagerState
      reads this
    {
      ManagerState(peerId, advertiser, browser, session, advertiserOn, browserOn, effects)
    }

    /** `setPeerID`. */
    method SetPeerId(displayName: string)
      modifies this
      ensures State() == old(State()).(peerId := Some(displayName))
    {
      peerId := Some(displayName);
    }

    method InitAdvertiserStep(info: Option<map<string, string>>)
      modifies this
      ensures State() == InitAdvertiser(old(State()), info)
    {
      if peerId.None? {
        return;
      }
      advertiser := Some(Advertiser(peerId.value, info));
    }

    method InitBrowserStep()
      modifies this
      ensures State() == InitBrowser(old(State()))
    {
      if peerId.None? {
        return;
      }
      browser := Some(Browser(peerId.value));
    }

    /** `startAdvertiser`. */
    method StartAdvertiserStep(info: Option<map<string, string>>)
      modifies this
      ensures State() == StartAdvertiser(old(State()), info)
    {
      if advertiserOn {
        return;
      }
      InitAdvertiserStep(info);
      if advertiser.Some? {
        effects := effects + [StartAdvertising(advertiser.value)];
      }
      advertiserOn := true;
    }

    /** `stopAdvertiser`. */
    method StopAdvertiserStep()
      modifies this
      ensures State() == StopAdvertiser(old(State()))
    {
      if advertiser.None? {
        return;
      }
      if !advertiserOn {
        return;
      }
      effects := effects + [StopAdvertising(advertiser.value)];
      advertiserOn := false;
    }

    /** `startBrowser`. */
    method StartBrowserStep()
      modifies this
      ensures State() == StartBrowser(old(State()))
    {
      if browserOn {
        return;
      }
      InitBrowserStep();
      if browser.Some? {
        effects := effects + [StartBrowsing(browser.value)];
      }
      browserOn := true;
    }

    /** `stopBrowser`. */
    method StopBrowserStep()
      modifies this
      ensures State() == StopBrowser(old(State()))
    {
      if browser.None? {
        return;
      }
      if !browserOn {
        return;
      }
      effects := effects + [StopBrowsing(browser.value)];
      browserOn := false;
    }

    /** `startSession`. */
    method StartSessionStep()
      modifies this
      ensures State() == StartSession(old(State()))
    {
      if peerId.None? {
        return;
      }
      session := Some(Session(peerId.value));
    }

    /** `stopSession`. */
    method StopSessionStep()
      modifies this
      ensures State() == StopSession(old(State()))
    {
      if session.None? {
        return;
      }
      effects := effects + [Disconnect(session.value)];
    }

    /** `terminate`. */
    method TerminateStep()
      modifies this
      ensures State() == Terminate(old(State()))
    {
      StopAdvertiserStep();
      StopBrowserStep();
      StopSessionStep();
    }

    /** `invitePeerToSession`. */
    method InvitePeerToSession(peer: Peer)
      requires browser.Some? ==> session.Some?
      modifies this
      ensures State() == InvitePeer(old(State()), peer)
    {
      if browser.None? {
        return;
      }
      effects := effects + [Invite(browser.value, peer, session.value)];
    }

    /** `broadcastData`; `connected` is the session's list of connected peers. */
    method BroadcastData(data: seq<int>, connected: seq<Peer>)
      modifies this
      ensures State() == Broadcast(old(State()), data, connected)
    {
      if session.None? {
        return;
      }
      if |connected| > 0 {
        effects := effects + [Send(session.value, data, connected)];
      }
    }

    /** The advertiser's invitation callback: the handler is called, accepting with the
        session, only when there is a session; otherwise it is never called. */
    method DidReceiveInvitation(from: Peer) returns (reply: Option<Session>)
      ensures reply.Some? <==> session.Some?
      ensures reply == session
    {
      if session.None? {
        return None;
      }
      return session;
    }

    /** The session's state-change callback. */
    method DidChangeState(peer: Peer, state: SessionState)
      modifies this
      ensures State() == SessionStateChanged(old(State()), peer, state)
    {
      if state == NotConnected {
        effects := effects + [PeerDisconnected(peer)];
      }
    }
  }
}
