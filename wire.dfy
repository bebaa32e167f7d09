/** Values exchanged by the signalling broker: sessions, registry records and the
    inbound and outbound WebSocket messages (JSON frames, here as datatypes). */
module Wire {

  datatype Option<+T> = None | Some(value: T)

  /** Connection identifiers are generated by the server (uuid v4). */
  type ConnId = string
  /** Bearer tokens issued by the login endpoint. */
  type Token = string
  type UserId = string
  /** Hex digest of a password (the SHA-256 itself is a parameter of the model). */
  type Digest = string
  /** The opaque remainder of a negotiation message (SDP offer/answer or ICE candidate). */
  type Payload = string

  datatype Role = CameraRole | ViewerRole

  /** An entry of activeSessions: token -> {userId, role, expiresAt}. */
  datatype Session = Session(userId: UserId, role: Role, expiresAt: nat)

  /** An entry of cameras: the display name, the owner and the watcher Set,
      kept as a duplicate-free sequence in insertion order. */
  datatype CameraRecord = CameraRecord(name: string, userId: UserId, watchers: seq<ConnId>)

  /** An entry of viewers; watching is null until a request-camera succeeds. */
  datatype ViewerRecord = ViewerRecord(userId: UserId, watching: Option<ConnId>)

  datatype RelayKind = Offer | Answer | IceCandidate

  /** A parsed inbound frame. Absent JSON fields are None. OtherType is any frame
      whose type matches no case of the switch; Malformed is a frame that
      JSON.parse (or the access to data.type) rejects. */
  datatype Inbound =
    | Authenticate(token: Option<Token>)
    | RegisterCamera(name: Option<string>)
    | RegisterViewer
    | RequestCamera(cameraId: Option<ConnId>)
    | MotionDetected
    | Relay(kind: RelayKind, target: Option<ConnId>, body: Payload)
    | OtherType
    | Malformed

  /** The text of each error reply, by cause. */
  datatype ErrorReason =
    | AuthTimeout         // 'Timeout de autenticación'
    | NotAuthenticated    // 'Debe autenticarse primero'
    | NotAllowedToStream  // 'No autorizado para transmitir'
    | NotAllowedToView    // 'No autorizado para ver'
    | ProcessingFailed    // 'Error procesando solicitud'

  /** One element of a camera-list message. */
  datatype CameraEntry = CameraEntry(id: ConnId, name: string, viewers: nat)

  datatype Outbound =
    | Authenticated(userId: UserId, role: Role)
    | AuthFailed
    | Registered(id: ConnId, role: Role)
    | CameraList(cameras: seq<CameraEntry>)
    | ViewerJoined(viewerId: ConnId)
    | CameraDisconnected(cameraId: ConnId)
    | MotionAlert(cameraId: ConnId, cameraName: string, timestamp: nat)
    | Relayed(kind: RelayKind, target: Option<ConnId>, body: Payload, from: ConnId)
    | Error(reason: ErrorReason)

  /** What the broker does to a socket: ws.send of one frame, or ws.close(). */
  datatype Out = Send(to: ConnId, msg: Outbound) | CloseSocket(conn: ConnId)
}
