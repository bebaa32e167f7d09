/** The WebSocket signalling broker: the shared session, camera and viewer tables,
    the per-connection state, and one handler per socket event. Every ws.send and
    ws.close is appended to an outbox instead of being written to a socket. */
module Signalling {
  import opened Wire
  import opened Seqs
  import opened Sessions
  import opened Fanout
  import opened EnvUsers
  import Decimal

  /** 24 hours in milliseconds: the lifetime of a session issued by login. */
  const SessionLifetime: nat := 24 * 60 * 60 * 1000

  /** The closure variables of one connection: connectionId, authenticated,
      userSession, and whether the 10-second authentication timer is pending. */
  class Connection {
    const id: ConnId
    var authenticated: bool
    var session: Option<Session>
    var timerArmed: bool

    ghost predicate Valid()
      reads this
    {
      (authenticated <==> session.Some?) && (authenticated ==> !timerArmed)
    }

    /** A socket opens: unauthenticated, without a session, deadline armed. */
    constructor (id: ConnId)
      requires id != ""
      ensures Valid()
      ensures this.id == id && !authenticated && session == None && timerArmed
    {
      this.id := id;
      authenticated := false;
      session := None;
      timerArmed := true;
    }
  }

  predicate HasRole(session: Option<Session>, role: Role) {
    session.Some? && session.value.role == role
  }

  /** The name a camera registers under: data.name, or `Cámara ${size + 1}` when
      the field is absent or empty. */
  function CameraName(name: Option<string>, size: nat): string {
    if name.Some? && name.value != "" then name.value
    else "Cámara " + Decimal.NatToString(size + 1)
  }

  predicate Missing(field: Option<string>) {
    field.None? || field.value == ""
  }

  /** A session stored by login at time now validates, with the same user and role,
      at every instant up to and including now + 24 h, and at none after. */
  lemma IssuedSessionLifetime(sessions: map<Token, Session>, token: Token, user: UserId, role: Role,
                              now: nat, later: nat)
    ensures var issued := Session(user, role, now + SessionLifetime);
      Lookup(sessions[token := issued], Some(token), later)
        == if later <= now + SessionLifetime then Some(issued) else None
  {
  }

  function RoleNamed(name: string): Option<Role> {
    if name == "camera" then Some(CameraRole)
    else if name == "viewer" then Some(ViewerRole)
    else None
  }

  function AccountsFor(users: Users, role: Role): map<string, Digest> {
    if role == CameraRole then users.cameras else users.viewers
  }

  /** The replies of POST /api/login. */
  datatype LoginReply =
    | LoggedIn(token: Token, userId: UserId, role: Role, expiresAt: nat)
    | MissingFields    // 400 'Faltan datos'
    | InvalidRole      // 400 'Rol inválido'
    | BadCredentials   // 401 'Credenciales inválidas'

  class Broker {
    const hash: string -> Digest
    const users: Users
    var sessions: map<Token, Session>
    var cameras: map<ConnId, CameraRecord>
    var cameraOrder: seq<ConnId>
    var viewers: map<ConnId, ViewerRecord>
    var viewerOrder: seq<ConnId>
    var outbox: seq<Out>

    /** The orders list each key of their Map once; watcher Sets hold no duplicates. */
    ghost predicate Valid()
      reads this`cameras, this`cameraOrder, this`viewers, this`viewerOrder
    {
      && Distinct(cameraOrder) && (forall id :: id in cameraOrder <==> id in cameras)
      && Distinct(viewerOrder) && (forall id :: id in viewerOrder <==> id in viewers)
      && (forall id :: id in cameras ==> Distinct(cameras[id].watchers))
    }

    /** Start-up: USERS from the environment, every table empty. */
    constructor (env: map<string, string>, hash: string -> Digest)
      ensures Valid()
      ensures this.hash == hash && UsersFrom(env, hash, users)
      ensures sessions == map[] && cameras == map[] && viewers == map[]
      ensures cameraOrder == [] && viewerOrder == [] && outbox == []
    {
      var loaded;
      var cameraCount, viewerCount;
      loaded, cameraCount, viewerCount := LoadUsersFromEnv(env, hash);
      this.hash := hash;
      users := loaded;
      sessions := map[];
      cameras := map[];
      cameraOrder := [];
      viewers := map[];
      viewerOrder := [];
      outbox := [];
    }

    // ---------------------------------------------------------------- sessions

    /** POST /api/login; the fresh random token is a parameter. */
    method Login(username: Option<string>, password: Option<string>, role: Option<string>, token: Token, now: nat)
      returns (reply: LoginReply)
      modifies this`sessions
      ensures Missing(username) || Missing(password) || Missing(role) ==>
        reply == MissingFields && sessions == old(sessions)
      ensures !Missing(username) && !Missing(password) && !Missing(role) && RoleNamed(role.value).None? ==>
        reply == InvalidRole && sessions == old(sessions)
      ensures !Missing(username) && !Missing(password) && !Missing(role) && RoleNamed(role.value).Some? ==>
        var r := RoleNamed(role.value).value;
        var accounts := AccountsFor(users, r);
        var u := username.value;
        if u in accounts && accounts[u] != "" && accounts[u] == hash(password.value) then
          && reply == LoggedIn(token, u, r, now + SessionLifetime)
          && sessions == old(sessions)[token := Session(u, r, now + SessionLifetime)]
        else
          reply == BadCredentials && sessions == old(sessions)
    {
      if Missing(username) || Missing(password) || Missing(role) {
        return MissingFields;
      }
      var r := RoleNamed(role.value);
      if r.None? {
        return InvalidRole;
      }
      var accounts := AccountsFor(users, r.value);
      var hashed := hash(password.value);
      if username.value !in accounts || accounts[username.value] == "" || accounts[username.value] != hashed {
        return BadCredentials;
      }
      var expiresAt := now + SessionLifetime;
      sessions := sessions[token := Session(username.value, r.value, expiresAt)];
      reply := LoggedIn(token, username.value, r.value, expiresAt);
    }

    /** POST /api/logout: a truthy token is deleted. */
    method Logout(token: Option<Token>)
      modifies this`sessions
      ensures token.Some? && token.value != "" ==> sessions == old(sessions) - {token.value}
      ensures token.None? || token.value == "" ==> sessions == old(sessions)
    {
      if token.Some? && token.value != "" {
        sessions := sessions - {token.value};
      }
    }

    /** verifyToken: unknown tokens and expired tokens give null, and an expired
        entry is deleted; otherwise the stored session, and the map stays. */
    method VerifyToken(token: Option<Token>, now: nat) returns (session: Option<Session>)
      modifies this`sessions
      ensures session == Lookup(old(sessions), token, now)
      ensures sessions == AfterLookup(old(sessions), token, now)
      ensures token.None? || token.value !in old(sessions) ==>
        session == None && sessions == old(sessions)
      ensures token.Some? && token.value in old(sessions) && Expired(old(sessions)[token.value], now) ==>
        session == None && sessions == old(sessions) - {token.value}
      ensures token.Some? && token.value in old(sessions) && !Expired(old(sessions)[token.value], now) ==>
        session == Some(old(sessions)[token.value]) && sessions == old(sessions)
    {
      if token.None? || token.value !in sessions {
        return None;
      }
      var found := sessions[token.value];
      if now > found.expiresAt {
        sessions := sessions - {token.value};
        return None;
      }
      session := Some(found);
    }

    /** The hourly setInterval sweep: exactly the sessions with now > expiresAt go. */
    method SweepSessions(now: nat)
      modifies this`sessions
      ensures sessions == Live(old(sessions), now)
      ensures forall t :: t in sessions <==> t in old(sessions) && !Expired(old(sessions)[t], now)
      ensures forall t :: t in sessions ==> sessions[t] == old(sessions)[t]
    {
      var pending := sessions.Keys;
      while pending != {}
        invariant pending <= old(sessions).Keys
        invariant forall t :: t in sessions <==> t in old(sessions) && (t in pending || !Expired(old(sessions)[t], now))
        invariant forall t :: t in sessions ==> sessions[t] == old(sessions)[t]
        decreases pending
      {
        var t :| t in pending;
        if now > sessions[t].expiresAt {
          sessions := sessions - {t};
        }
        pending := pending - {t};
      }
    }

    // ---------------------------------------------------------------- fan-out

    /** Sends m to every registered viewer, in viewer insertion order. */
    method SendToViewers(m: Outbound)
      requires Valid()
      modifies this`outbox
      ensures outbox == old(outbox) + Broadcast(viewerOrder, m)
    {
      var i := 0;
      while i < |viewerOrder|
        invariant 0 <= i <= |viewerOrder|
        invariant outbox == old(outbox) + Broadcast(viewerOrder[..i], m)
      {
        assert viewerOrder[..i + 1][..i] == viewerOrder[..i];
        outbox := outbox + [Send(viewerOrder[i], m)];
        i := i + 1;
      }
      assert viewerOrder[..i] == viewerOrder;
    }

    /** Sends m to each listed id, in list order, skipping ids that are no longer registered viewers. */
    method NotifyRegistered(ids: seq<ConnId>, m: Outbound)
      modifies this`outbox
      ensures outbox == old(outbox) + ToRegistered(ids, viewers, m)
    {
      var i := 0;
      while i < |ids|
        invariant 0 <= i <= |ids|
        invariant outbox == old(outbox) + ToRegistered(ids[..i], viewers, m)
      {
        assert ids[..i + 1][..i] == ids[..i];
        if ids[i] in viewers {
          outbox := outbox + [Send(ids[i], m)];
        }
        i := i + 1;
      }
      assert ids[..i] == ids;
    }

    /** Sends the current camera list to one connection. */
    method SendCameraList(to: ConnId)
      modifies this`outbox
      ensures outbox == old(outbox) + [Send(to, CameraList(ListCameras(cameraOrder, cameras)))]
    {
      outbox := outbox + [Send(to, CameraList(ListCameras(cameraOrder, cameras)))];
    }

    /** Sends the current camera list to every registered viewer. */
    method BroadcastCameraList()
      requires Valid()
      modifies this`outbox
      ensures outbox == old(outbox) + Broadcast(viewerOrder, CameraList(ListCameras(cameraOrder, cameras)))
    {
      SendToViewers(CameraList(ListCameras(cameraOrder, cameras)));
    }

    // ---------------------------------------------------------------- effects

    twostate predicate TablesKept()
      reads this
    {
      && sessions == old(sessions) && cameras == old(cameras) && cameraOrder == old(cameraOrder)
      && viewers == old(viewers) && viewerOrder == old(viewerOrder)
    }

    /** authenticate: the timer is cleared; a bad token gets auth-failed and the
        socket is closed; a good one sets authenticated and userSession. */
    twostate predicate AuthenticateEffect(c: Connection, token: Option<Token>, now: nat)
      reads this, c
    {
      var result := Lookup(old(sessions), token, now);
      && sessions == AfterLookup(old(sessions), token, now)
      && cameras == old(cameras) && cameraOrder == old(cameraOrder)
      && viewers == old(viewers) && viewerOrder == old(viewerOrder)
      && !c.timerArmed
      && if result.None? then
           && c.authenticated == old(c.authenticated) && c.session == old(c.session)
           && outbox == old(outbox) + [Send(c.id, AuthFailed), CloseSocket(c.id)]
         else
           && c.authenticated && c.session == result
           && outbox == old(outbox) + [Send(c.id, Authenticated(result.value.userId, result.value.role))]
    }

    /** register-camera: refused unless the session role is camera; otherwise the
        record under the connection's own id is (re)set with no watchers, the
        sender gets registered, and every viewer gets the new list. */
    twostate predicate RegisterCameraEffect(c: Connection, name: Option<string>)
      reads this
    {
      && sessions == old(sessions) && viewers == old(viewers) && viewerOrder == old(viewerOrder)
      && if !HasRole(old(c.session), CameraRole) then
           && cameras == old(cameras) && cameraOrder == old(cameraOrder)
           && outbox == old(outbox) + [Send(c.id, Error(NotAllowedToStream))]
         else
           && cameras == old(cameras)[c.id := CameraRecord(CameraName(name, |old(cameras)|), old(c.session).value.userId, [])]
           && cameraOrder == Added(old(cameraOrder), c.id)
           && outbox == old(outbox) + [Send(c.id, Registered(c.id, CameraRole))]
                + Broadcast(viewerOrder, CameraList(ListCameras(cameraOrder, cameras)))
    }

    /** register-viewer: refused unless the session role is viewer; otherwise the
        record is (re)set watching nothing, and the sender alone gets registered
        and the current list. */
    twostate predicate RegisterViewerEffect(c: Connection)
      reads this
    {
      && sessions == old(sessions) && cameras == old(cameras) && cameraOrder == old(cameraOrder)
      && if !HasRole(old(c.session), ViewerRole) then
           && viewers == old(viewers) && viewerOrder == old(viewerOrder)
           && outbox == old(outbox) + [Send(c.id, Error(NotAllowedToView))]
         else
           && viewers == old(viewers)[c.id := ViewerRecord(old(c.session).value.userId, None)]
           && viewerOrder == Added(old(viewerOrder), c.id)
           && outbox == old(outbox) + [Send(c.id, Registered(c.id, ViewerRole)),
                                       Send(c.id, CameraList(ListCameras(cameraOrder, cameras)))]
    }

    /** request-camera: when the camera exists and the sender is a viewer, the
        viewer watches it, joins its watcher set, and the camera alone is told. */
    twostate predicate RequestCameraEffect(c: Connection, cameraId: Option<ConnId>)
      reads this
    {
      && sessions == old(sessions) && cameraOrder == old(cameraOrder) && viewerOrder == old(viewerOrder)
      && if cameraId.Some? && cameraId.value in old(cameras) && c.id in old(viewers) then
           var cam := cameraId.value;
           && viewers == old(viewers)[c.id := old(viewers)[c.id].(watching := cameraId)]
           && cameras == old(cameras)[cam := old(cameras)[cam].(watchers := Added(old(cameras)[cam].watchers, c.id))]
           && outbox == old(outbox) + [Send(cam, ViewerJoined(c.id))]
         else
           viewers == old(viewers) && cameras == old(cameras) && outbox == old(outbox)
    }

    /** motion-detected: from a camera session with a camera record, an alert to
        every viewer, then one more to each watcher that is still a viewer. */
    twostate predicate MotionEffect(c: Connection, now: nat)
      reads this
    {
      && TablesKept()
      && if HasRole(old(c.session), CameraRole) && c.id in cameras then
           outbox == old(outbox) + MotionAlerts(viewerOrder, viewers, cameras[c.id].watchers,
                                                MotionAlert(c.id, cameras[c.id].name, now))
         else
           outbox == old(outbox)
    }

    /** offer / answer / ice-candidate: forwarded with from set to the sender, to
        the target when it is a camera or a viewer; dropped silently otherwise. */
    twostate predicate RelayEffect(c: Connection, kind: RelayKind, target: Option<ConnId>, body: Payload)
      reads this
    {
      && TablesKept()
      && if target.Some? && (target.value in cameras || target.value in viewers) then
           outbox == old(outbox) + [Send(target.value, Relayed(kind, target, body, c.id))]
         else
           outbox == old(outbox)
    }

    /** close: a camera's still-registered watchers are told, the camera goes and
        the viewers get the new list; a viewer leaves its watched camera's set (if
        that camera still exists) and goes. */
    twostate predicate CloseEffect(c: Connection)
      reads this
    {
      var id := c.id;
      var cams := old(cameras) - {id};
      && sessions == old(sessions)
      && cameraOrder == (if id in old(cameras) then Without(old(cameraOrder), id) else old(cameraOrder))
      && (if id in old(cameras) then
            outbox == old(outbox)
              + ToRegistered(old(cameras)[id].watchers, old(viewers), CameraDisconnected(id))
              + Broadcast(old(viewerOrder), CameraList(ListCameras(cameraOrder, cams)))
          else outbox == old(outbox))
      && ViewerGone(c, cams)
    }

    /** The viewer branch of close, starting from the camera table cams. */
    twostate predicate ViewerGone(c: Connection, cams: map<ConnId, CameraRecord>)
      reads this
    {
      var id := c.id;
      if id in old(viewers) then
           var watching := old(viewers)[id].watching;
           && viewers == old(viewers) - {id}
           && viewerOrder == Without(old(viewerOrder), id)
           && cameras == (if watching.Some? && watching.value in cams
                          then cams[watching.value := cams[watching.value].(watchers := Without(cams[watching.value].watchers, id))]
                          else cams)
         else
           viewers == old(viewers) && viewerOrder == old(viewerOrder) && cameras == cams
    }

    // ---------------------------------------------------------------- events

    /** The authentication timer fires. */
    method OnTimeout(c: Connection)
      requires c.Valid()
      modifies c`timerArmed, this`outbox
      ensures c.Valid() && !c.timerArmed
      ensures old(c.timerArmed) && !c.authenticated ==>
        outbox == old(outbox) + [Send(c.id, Error(AuthTimeout)), CloseSocket(c.id)]
      ensures !(old(c.timerArmed) && !c.authenticated) ==> outbox == old(outbox)
    {
      if c.timerArmed {
        c.timerArmed := false;
        if !c.authenticated {
          outbox := outbox + [Send(c.id, Error(AuthTimeout)), CloseSocket(c.id)];
        }
      }
    }

    method OnAuthenticate(c: Connection, token: Option<Token>, now: nat)
      requires Valid() && c.Valid()
      modifies this`sessions, this`outbox, c
      ensures Valid() && c.Valid()
      ensures AuthenticateEffect(c, token, now)
    {
      c.timerArmed := false;
      var session := VerifyToken(token, now);
      if session.None? {
        outbox := outbox + [Send(c.id, AuthFailed), CloseSocket(c.id)];
        return;
      }
      c.authenticated := true;
      c.session := session;
      outbox := outbox + [Send(c.id, Authenticated(session.value.userId, session.value.role))];
    }

    method OnRegisterCamera(c: Connection, name: Option<string>)
      requires Valid() && c.Valid() && c.authenticated
      modifies this`cameras, this`cameraOrder, this`outbox
      ensures Valid()
      ensures RegisterCameraEffect(c, name)
      ensures HasRole(c.session, CameraRole) ==>
        CameraEntry(c.id, CameraName(name, |old(cameras)|), 0) in ListCameras(cameraOrder, cameras)
    {
      if c.session.value.role != CameraRole {
        outbox := outbox + [Send(c.id, Error(NotAllowedToStream))];
        return;
      }
      outbox := outbox + [Send(c.id, Registered(c.id, CameraRole))];
      StoreCamera(c.id, CameraRecord(CameraName(name, |cameras|), c.session.value.userId, []));
      ghost var before := outbox;
      BroadcastCameraList();
      assert outbox == before + Broadcast(viewerOrder, CameraList(ListCameras(cameraOrder, cameras)));
      ListCamerasHas(cameraOrder, cameras, c.id);
    }

    /** Stores a camera record under id, keeping the table and its insertion order in step. */
    method StoreCamera(id: ConnId, record: CameraRecord)
      requires Valid() && Distinct(record.watchers)
      modifies this`cameras, this`cameraOrder
      ensures Valid()
      ensures cameras == old(cameras)[id := record]
      ensures cameraOrder == Added(old(cameraOrder), id)
    {
      AddedFacts(cameraOrder, id);
      cameras := cameras[id := record];
      cameraOrder := Added(cameraOrder, id);
    }

    method OnRegisterViewer(c: Connection)
      requires Valid() && c.Valid() && c.authenticated
      modifies this
      ensures Valid()
      ensures RegisterViewerEffect(c)
    {
      if c.session.value.role != ViewerRole {
        outbox := outbox + [Send(c.id, Error(NotAllowedToView))];
        return;
      }
      AddedFacts(viewerOrder, c.id);
      viewers := viewers[c.id := ViewerRecord(c.session.value.userId, None)];
      viewerOrder := Added(viewerOrder, c.id);
      outbox := outbox + [Send(c.id, Registered(c.id, ViewerRole))];
      SendCameraList(c.id);
    }

    method OnRequestCamera(c: Connection, cameraId: Option<ConnId>)
      requires Valid()
      modifies this
      ensures Valid()
      ensures RequestCameraEffect(c, cameraId)
    {
      if cameraId.Some? && cameraId.value in cameras {
        if c.id in viewers {
          var cam := cameraId.value;
          AddedFacts(cameras[cam].watchers, c.id);
          viewers := viewers[c.id := viewers[c.id].(watching := cameraId)];
          cameras := cameras[cam := cameras[cam].(watchers := Added(cameras[cam].watchers, c.id))];
          outbox := outbox + [Send(cam, ViewerJoined(c.id))];
        }
      }
    }

    method OnMotionDetected(c: Connection, now: nat)
      requires Valid()
      modifies this`outbox
      ensures MotionEffect(c, now)
    {
      if !HasRole(c.session, CameraRole) {
        return;
      }
      if c.id in cameras {
        var record := cameras[c.id];
        var alert := MotionAlert(c.id, record.name, now);
        SendToViewers(alert);
        NotifyRegistered(record.watchers, alert);
      }
    }

    method OnRelay(c: Connection, kind: RelayKind, target: Option<ConnId>, body: Payload)
      modifies this`outbox
      ensures RelayEffect(c, kind, target, body)
    {
      if target.Some? {
        var relayed := Relayed(kind, target, body, c.id);
        if target.value in cameras {
          outbox := outbox + [Send(target.value, relayed)];
        } else if target.value in viewers {
          outbox := outbox + [Send(target.value, relayed)];
        }
      }
    }

    /** ws.on('message'): the parse failure reply, the authentication gate, and
        the switch on data.type. */
    method HandleMessage(c: Connection, m: Inbound, now: nat)
      requires Valid() && c.Valid()
      modifies this, c
      ensures Valid() && c.Valid()
      ensures m.Malformed? ==>
        TablesKept() && unchanged(c) && outbox == old(outbox) + [Send(c.id, Error(ProcessingFailed))]
      ensures !m.Malformed? && !m.Authenticate? && !old(c.authenticated) ==>
        TablesKept() && unchanged(c) && outbox == old(outbox) + [Send(c.id, Error(NotAuthenticated))]
      ensures m.Authenticate? ==> AuthenticateEffect(c, m.token, now)
      ensures old(c.authenticated) ==>
        match m
        case RegisterCamera(name) => unchanged(c) && RegisterCameraEffect(c, name)
        case RegisterViewer => unchanged(c) && RegisterViewerEffect(c)
        case RequestCamera(cameraId) => unchanged(c) && RequestCameraEffect(c, cameraId)
        case MotionDetected => unchanged(c) && MotionEffect(c, now)
        case Relay(kind, target, body) => unchanged(c) && RelayEffect(c, kind, target, body)
        case OtherType => unchanged(c) && TablesKept() && outbox == old(outbox)
        case _ => true
    {
      if m.Malformed? {
        outbox := outbox + [Send(c.id, Error(ProcessingFailed))];
        return;
      }
      if !c.authenticated && !m.Authenticate? {
        outbox := outbox + [Send(c.id, Error(NotAuthenticated))];
        return;
      }
      match m
      case Authenticate(token) => OnAuthenticate(c, token, now);
      case RegisterCamera(name) => OnRegisterCamera(c, name);
      case RegisterViewer => OnRegisterViewer(c);
      case RequestCamera(cameraId) => OnRequestCamera(c, cameraId);
      case MotionDetected => OnMotionDetected(c, now);
      case Relay(kind, target, body) => OnRelay(c, kind, target, body);
      case OtherType =>
      case Malformed =>
    }

    /** The camera branch of close. */
    method DropCamera(id: ConnId)
      requires Valid()
      modifies this`cameras, this`cameraOrder, this`outbox
      ensures Valid()
      ensures cameras == old(cameras) - {id}
      ensures cameraOrder == (if id in old(cameras) then Without(old(cameraOrder), id) else old(cameraOrder))
      ensures id in old(cameras) ==>
        (outbox == old(outbox)
           + ToRegistered(old(cameras)[id].watchers, viewers, CameraDisconnected(id))
           + Broadcast(viewerOrder, CameraList(ListCameras(cameraOrder, cameras))))
      ensures id !in old(cameras) ==> outbox == old(outbox)
    {
      if id in cameras {
        NotifyRegistered(cameras[id].watchers, CameraDisconnected(id));
        ForgetCamera(id);
        BroadcastCameraList();
      }
    }

    /** Deletes the camera under id, keeping the table and its insertion order in step. */
    method ForgetCamera(id: ConnId)
      requires Valid() && id in cameras
      modifies this`cameras, this`cameraOrder
      ensures Valid()
      ensures cameras == old(cameras) - {id}
      ensures cameraOrder == Without(old(cameraOrder), id)
    {
      WithoutElements(cameraOrder, id);
      WithoutDistinct(cameraOrder, id);
      cameras := cameras - {id};
      cameraOrder := Without(cameraOrder, id);
    }

    /** The viewer branch of close. */
    method DropViewer(c: Connection)
      requires Valid()
      modifies this`cameras, this`viewers, this`viewerOrder
      ensures Valid()
      ensures ViewerGone(c, old(cameras))
    {
      if c.id in viewers {
        var record := viewers[c.id];
        if record.watching.Some? && record.watching.value in cameras {
          var cam := record.watching.value;
          WithoutDistinct(cameras[cam].watchers, c.id);
          cameras := cameras[cam := cameras[cam].(watchers := Without(cameras[cam].watchers, c.id))];
        }
        WithoutElements(viewerOrder, c.id);
        WithoutDistinct(viewerOrder, c.id);
        viewers := viewers - {c.id};
        viewerOrder := Without(viewerOrder, c.id);
      }
    }

    /** ws.on('close'). A second close of the same connection changes nothing. */
    method OnClose(c: Connection)
      requires Valid() && c.Valid()
      modifies this`cameras, this`cameraOrder, this`viewers, this`viewerOrder, this`outbox, c`timerArmed
      ensures Valid() && c.Valid() && !c.timerArmed
      ensures CloseEffect(c)
      ensures c.id !in cameras && c.id !in viewers
      ensures old(c.id !in cameras && c.id !in viewers) ==> TablesKept() && outbox == old(outbox)
    {
      c.timerArmed := false;
      DropCamera(c.id);
      label cameraDone:
      DropViewer(c);
      assert ViewerGone@cameraDone(c, old(cameras) - {c.id});
      if old(c.id !in cameras && c.id !in viewers) {
        assert cameras == old(cameras) - {c.id};
      }
    }
  }
}
