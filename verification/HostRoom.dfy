/**
 The signaling room: one instance per nine-digit ID, holding the sockets of a host and of a viewer.

 `Room` is the room's state as a value and the functions on it say what one handler does; class
 `Server` is the room itself, whose handlers update its fields in place and are proved against
 those functions. `Step` adds the runtime's part: sockets leave OPEN by themselves, close handlers
 run later, and a signature check suspends its handler, so that anything may happen before the
 handler's continuation runs.
 */
module HostRoom {
  import opened Wrappers
  import opened Bytes
  import opened Signatures

  const CLOSE_PROTOCOL := 4000
  const CLOSE_KICKED := 4001
  const CLOSE_HOST_LEFT := 4002
  const CLOSE_AUTH := 4003
  const CLOSE_REPLACED := 4010
  const CLOSE_TOO_BIG := 4013

  const AUTH_PREFIX: seq<byte> := Ascii("simple-remote signaling auth v1")

  /** An accepted WebSocket with its attachment. `gone`: its close or error handler has run. */
  datatype Socket =
    | Host(open: bool, gone: bool, authed: bool, nonce: string, key: string, id: seq<byte>)
    | Viewer(open: bool, gone: bool, closedByServer: bool)

  datatype Kind = AuthKind | RelayKind | KickKind | OtherKind

  /** A frame from a client; `sig` and `data` are `None` when the field is missing or not a string. */
  datatype Incoming =
    | TooLarge
    | Unparsable
    | Parsed(t: Kind, sig: Option<Signature>, data: Option<string>)

  datatype Frame =
    | Challenge(nonce: string, id: seq<byte>)
    | Registered(id: seq<byte>)
    | Joined
    | ViewerJoined
    | ViewerLeft
    | HostLeft
    | Relay(data: string)

  /** What can be observed at the room, in order. A frame to a socket that is not OPEN goes nowhere. */
  datatype Action =
    | Got(ws: nat, msg: Incoming)
    | Sent(ws: nat, frame: Frame)
    | Closed(ws: nat, code: nat)
    | LeftOpen(ws: nat)

  /** An `authenticate` handler waiting for its signature check, with the attachment it captured. */
  datatype Suspended = Suspended(ws: nat, key: string, nonce: seq<byte>, id: seq<byte>, sig: Signature)

  datatype Room = Room(owner: Option<string>, sockets: seq<Socket>, suspended: seq<Suspended>, log: seq<Action>)

  /** The HTTP answer: a refusal status, or an upgrade to the socket with this number. */
  datatype Reply = Refused(status: nat) | Upgraded(ws: nat)

  predicate IsAuthedHost(s: Socket) { s.Host? && s.open && s.authed }

  predicate IsOpenViewer(s: Socket) { s.Viewer? && s.open }

  /** The first socket at or after `from` that satisfies `p`. */
  function Find(sockets: seq<Socket>, p: Socket -> bool, from: nat): (r: Option<nat>)
    requires from <= |sockets|
    ensures r.Some? ==> from <= r.value < |sockets| && p(sockets[r.value])
    ensures r.Some? ==> forall i :: from <= i < r.value ==> !p(sockets[i])
    ensures r.None? ==> forall i :: from <= i < |sockets| ==> !p(sockets[i])
    decreases |sockets| - from
  {
    if from == |sockets| then None
    else if p(sockets[from]) then Some(from)
    else Find(sockets, p, from + 1)
  }

  function AuthedHost(r: Room): Option<nat> { Find(r.sockets, IsAuthedHost, 0) }

  function OpenViewer(r: Room): Option<nat> { Find(r.sockets, IsOpenViewer, 0) }

  /** The bytes a host signs to register: prefix, challenge nonce, ID. */
  function AuthMessage(nonce: seq<byte>, id: seq<byte>): seq<byte> { AUTH_PREFIX + nonce + id }

  // What one handler does.

  function Send(r: Room, ws: nat, frame: Frame): Room
    requires ws < |r.sockets|
  {
    if r.sockets[ws].open then r.(log := r.log + [Sent(ws, frame)]) else r
  }

  function CloseFromServer(r: Room, ws: nat, code: nat): (r': Room)
    requires ws < |r.sockets|
    ensures |r'.sockets| == |r.sockets|
  {
    var s := r.sockets[ws];
    var marked := if s.Viewer? then s.(closedByServer := true) else s;
    r.(sockets := r.sockets[ws := marked.(open := false)],
       log := if s.open then r.log + [Closed(ws, code)] else r.log)
  }

  function HostGone(r: Room, host: nat): (r': Room)
    requires host < |r.sockets| && r.sockets[host].Host?
    ensures |r'.sockets| == |r.sockets|
  {
    var r1 := r.(sockets := r.sockets[host := r.sockets[host].(authed := false)]);
    match OpenViewer(r1)
    case None => r1
    case Some(v) => CloseFromServer(Send(r1, v, HostLeft), v, CLOSE_HOST_LEFT)
  }

  function AcceptHost(r: Room, id: seq<byte>, key: string, claim: bool, nonce: seq<byte>): (Room, Reply) {
    if r.owner.None? && !claim then (r, Refused(404))
    else if r.owner.Some? && r.owner.value != key then (r, Refused(if claim then 409 else 403))
    else
      var ws := |r.sockets|;
      var r1 := r.(sockets := r.sockets + [Host(true, false, false, ToHex(nonce), key, id)]);
      (Send(r1, ws, Challenge(ToHex(nonce), id)), Upgraded(ws))
  }

  function AcceptViewer(r: Room): (Room, Reply) {
    match AuthedHost(r)
    case None => (r, Refused(404))
    case Some(host) =>
      if OpenViewer(r).Some? then (r, Refused(409))
      else
        var ws := |r.sockets|;
        var r1 := r.(sockets := r.sockets + [Viewer(true, false, false)]);
        (Send(Send(r1, ws, Joined), host, ViewerJoined), Upgraded(ws))
  }

  function Message(r: Room, ws: nat, msg: Incoming): Room
    requires ws < |r.sockets|
  {
    var r1 := r.(log := r.log + [Got(ws, msg)]);
    if msg.TooLarge? then CloseFromServer(r1, ws, CLOSE_TOO_BIG)
    else if msg.Unparsable? then CloseFromServer(r1, ws, CLOSE_PROTOCOL)
    else if r.sockets[ws].Host? then HostMessage(r1, ws, msg)
    else if OpenViewer(r1) != Some(ws) then r1
    else if msg.t.RelayKind? && msg.data.Some? then
      match AuthedHost(r1)
      case None => r1
      case Some(host) => Send(r1, host, Relay(msg.data.value))
    else CloseFromServer(r1, ws, CLOSE_PROTOCOL)
  }

  function HostMessage(r: Room, ws: nat, msg: Incoming): Room
    requires ws < |r.sockets| && r.sockets[ws].Host? && msg.Parsed?
  {
    if !r.sockets[ws].authed then
      if !msg.t.AuthKind? || msg.sig.None? then CloseFromServer(r, ws, CLOSE_AUTH)
      else Authenticate(r, ws, msg.sig.value)
    else if msg.t.RelayKind? && msg.data.Some? then
      match OpenViewer(r)
      case None => r
      case Some(viewer) => Send(r, viewer, Relay(msg.data.value))
    else if msg.t.KickKind? then
      match OpenViewer(r)
      case None => r
      case Some(viewer) => CloseFromServer(r, viewer, CLOSE_KICKED)
    else CloseFromServer(r, ws, CLOSE_PROTOCOL)
  }

  /** `authenticate` up to its await. */
  function Authenticate(r: Room, ws: nat, sig: Signature): Room
    requires ws < |r.sockets| && r.sockets[ws].Host?
  {
    var att := r.sockets[ws];
    match FromHex(att.nonce)
    case None => CloseFromServer(r, ws, CLOSE_AUTH)
    case Some(nonce) => r.(suspended := r.suspended + [Suspended(ws, att.key, nonce, att.id, sig)])
  }

  /** The rest of `authenticate`, once its signature check has finished. */
  function Resume(r: Room, c: Suspended): Room
    requires c.ws < |r.sockets| && r.sockets[c.ws].Host?
  {
    if !VerifiesHex(c.key, c.sig, AuthMessage(c.nonce, c.id)) then CloseFromServer(r, c.ws, CLOSE_AUTH)
    else if r.owner.Some? && r.owner.value != c.key then CloseFromServer(r, c.ws, CLOSE_AUTH)
    else
      var r1 := if r.owner.None? then r.(owner := Some(c.key)) else r;
      var r2 :=
        match AuthedHost(r1)
        case None => r1
        case Some(previous) =>
          if previous == c.ws then r1 else CloseFromServer(HostGone(r1, previous), previous, CLOSE_REPLACED);
      Send(r2.(sockets := r2.sockets[c.ws := r2.sockets[c.ws].(authed := true)]), c.ws, Registered(c.id))
  }

  function OnGone(r: Room, ws: nat): Room
    requires ws < |r.sockets|
  {
    var s := r.sockets[ws];
    if s.Host? then if s.authed then HostGone(r, ws) else r
    else if s.closedByServer then r
    else
      match AuthedHost(r)
      case None => r
      case Some(host) => Send(r, host, ViewerLeft)
  }

  // Whole runs.

  datatype Event =
    | HostConnects(id: seq<byte>, key: string, claim: bool, nonce: seq<byte>)
    | ViewerConnects
    | Arrives(ws: nat, msg: Incoming)
    | CheckFinishes(k: nat)
    | LeavesOpen(ws: nat)
    | CloseHandlerRuns(ws: nat)

  function MarkGone(r: Room, ws: nat): (r': Room)
    requires ws < |r.sockets|
    ensures |r'.sockets| == |r.sockets|
  {
    r.(sockets := r.sockets[ws := r.sockets[ws].(gone := true)])
  }

  /** One event of a run. An event the runtime cannot produce in this state changes nothing. */
  function Step(r: Room, e: Event): Room {
    match e
    case HostConnects(id, key, claim, nonce) => AcceptHost(r, id, key, claim, nonce).0
    case ViewerConnects => AcceptViewer(r).0
    case Arrives(ws, msg) => if ws < |r.sockets| then Message(r, ws, msg) else r
    case CheckFinishes(k) =>
      if k < |r.suspended| && r.suspended[k].ws < |r.sockets| && r.sockets[r.suspended[k].ws].Host? then
        Resume(r.(suspended := r.suspended[..k] + r.suspended[k + 1..]), r.suspended[k])
      else r
    case LeavesOpen(ws) =>
      if ws < |r.sockets| && r.sockets[ws].open then
        r.(sockets := r.sockets[ws := r.sockets[ws].(open := false)], log := r.log + [LeftOpen(ws)])
      else r
    case CloseHandlerRuns(ws) =>
      if ws < |r.sockets| && !r.sockets[ws].open && !r.sockets[ws].gone then
        OnGone(MarkGone(r, ws), ws)
      else r
  }

  const EMPTY := Room(None, [], [], [])

  function Run(r: Room, events: seq<Event>): Room {
    if events == [] then r else Step(Run(r, events[..|events| - 1]), events[|events| - 1])
  }

  /** The room as the server runs it. `log` records what happened; no decision reads it. */
  class Server {
    var owner: Option<string>
    var sockets: seq<Socket>
    var suspended: seq<Suspended>
    ghost var log: seq<Action>

    ghost function State(): Room
      reads this
    {
      Room(owner, sockets, suspended, log)
    }

    constructor ()
      ensures State() == EMPTY
    {
      owner, sockets, suspended, log := None, [], [], [];
    }

    method FindAuthedHost() returns (r: Option<nat>)
      ensures r == AuthedHost(State())
    {
      r := Find(sockets, IsAuthedHost, 0);
    }

    method FindOpenViewer() returns (r: Option<nat>)
      ensures r == OpenViewer(State())
    {
      r := Find(sockets, IsOpenViewer, 0);
    }

    method SendTo(ws: nat, frame: Frame)
      requires ws < |sockets|
      modifies this`log
      ensures State() == Send(old(State()), ws, frame)
    {
      if sockets[ws].open { log := log + [Sent(ws, frame)]; }
    }

    method Close(ws: nat, code: nat)
      requires ws < |sockets|
      modifies this`sockets, this`log
      ensures State() == CloseFromServer(old(State()), ws, code)
    {
      var s := sockets[ws];
      if s.open { log := log + [Closed(ws, code)]; }
      if s.Viewer? { s := s.(closedByServer := true); }
      sockets := sockets[ws := s.(open := false)];
    }

    method EndHost(host: nat)
      requires host < |sockets| && sockets[host].Host?
      modifies this`sockets, this`log
      ensures State() == HostGone(old(State()), host)
    {
      sockets := sockets[host := sockets[host].(authed := false)];
      var viewer := FindOpenViewer();
      if viewer.None? { return; }
      SendTo(viewer.value, HostLeft);
      Close(viewer.value, CLOSE_HOST_LEFT);
    }

    method AcceptHostSocket(id: seq<byte>, key: string, claim: bool, nonce: seq<byte>) returns (reply: Reply)
      modifies this`sockets, this`log
      ensures (State(), reply) == AcceptHost(old(State()), id, key, claim, nonce)
    {
      if owner.None? && !claim { return Refused(404); }
      if owner.Some? && owner.value != key { return Refused(if claim then 409 else 403); }
      var ws := |sockets|;
      sockets := sockets + [Host(true, false, false, ToHex(nonce), key, id)];
      SendTo(ws, Challenge(ToHex(nonce), id));
      return Upgraded(ws);
    }

    method AcceptViewerSocket() returns (reply: Reply)
      modifies this`sockets, this`log
      ensures (State(), reply) == AcceptViewer(old(State()))
    {
      var host := FindAuthedHost();
      if host.None? { return Refused(404); }
      var viewer := FindOpenViewer();
      if viewer.Some? { return Refused(409); }
      var ws := |sockets|;
      sockets := sockets + [Viewer(true, false, false)];
      SendTo(ws, Joined);
      SendTo(host.value, ViewerJoined);
      return Upgraded(ws);
    }

    method WebSocketMessage(ws: nat, msg: Incoming)
      requires ws < |sockets|
      modifies this`sockets, this`suspended, this`log
      ensures State() == Message(old(State()), ws, msg)
    {
      log := log + [Got(ws, msg)];
      if msg.TooLarge? {
        Close(ws, CLOSE_TOO_BIG);
      } else if msg.Unparsable? {
        Close(ws, CLOSE_PROTOCOL);
      } else if sockets[ws].Host? {
        OnHostMessage(ws, msg);
      } else {
        var viewer := FindOpenViewer();
        if viewer != Some(ws) { return; }
        if msg.t.RelayKind? && msg.data.Some? {
          var host := FindAuthedHost();
          if host.Some? { SendTo(host.value, Relay(msg.data.value)); }
        } else {
          Close(ws, CLOSE_PROTOCOL);
        }
      }
    }

    method OnHostMessage(ws: nat, msg: Incoming)
      requires ws < |sockets| && sockets[ws].Host? && msg.Parsed?
      modifies this`sockets, this`suspended, this`log
      ensures State() == HostMessage(old(State()), ws, msg)
    {
      if !sockets[ws].authed {
        if !msg.t.AuthKind? || msg.sig.None? {
          Close(ws, CLOSE_AUTH);
        } else {
          BeginAuthentication(ws, msg.sig.value);
        }
        return;
      }
      if msg.t.RelayKind? && msg.data.Some? {
        var viewer := FindOpenViewer();
        if viewer.Some? { SendTo(viewer.value, Relay(msg.data.value)); }
      } else if msg.t.KickKind? {
        var viewer := FindOpenViewer();
        if viewer.Some? { Close(viewer.value, CLOSE_KICKED); }
      } else {
        Close(ws, CLOSE_PROTOCOL);
      }
    }

    method BeginAuthentication(ws: nat, sig: Signature)
      requires ws < |sockets| && sockets[ws].Host?
      modifies this`sockets, this`suspended, this`log
      ensures State() == Authenticate(old(State()), ws, sig)
    {
      var att := sockets[ws];
      var nonce := FromHex(att.nonce);
      if nonce.None? {
        Close(ws, CLOSE_AUTH);
      } else {
        suspended := suspended + [Suspended(ws, att.key, nonce.value, att.id, sig)];
      }
    }

    /** Runs when the signature check of the `k`-th suspended handler has finished. */
    method FinishAuthentication(k: nat)
      requires k < |suspended| && suspended[k].ws < |sockets| && sockets[suspended[k].ws].Host?
      modifies this
      ensures State() == Step(old(State()), CheckFinishes(k))
    {
      var c := suspended[k];
      suspended := suspended[..k] + suspended[k + 1..];
      if !VerifiesHex(c.key, c.sig, AuthMessage(c.nonce, c.id)) {
        Close(c.ws, CLOSE_AUTH);
        return;
      }
      if owner.Some? && owner.value != c.key {
        Close(c.ws, CLOSE_AUTH);
        return;
      }
      if owner.None? { owner := Some(c.key); }
      var previous := FindAuthedHost();
      if previous.Some? && previous.value != c.ws {
        EndHost(previous.value);
        Close(previous.value, CLOSE_REPLACED);
      }
      sockets := sockets[c.ws := sockets[c.ws].(authed := true)];
      SendTo(c.ws, Registered(c.id));
    }

    /** `webSocketClose` and `webSocketError`: closing a socket that already left OPEN does nothing more. */
    method OnSocketGone(ws: nat)
      requires ws < |sockets| && !sockets[ws].open && !sockets[ws].gone
      modifies this`sockets, this`log
      ensures State() == Step(old(State()), CloseHandlerRuns(ws))
    {
      sockets := sockets[ws := sockets[ws].(gone := true)];
      var s := sockets[ws];
      if s.Host? {
        if s.authed { EndHost(ws); }
        return;
      }
      if s.closedByServer { return; }
      var host := FindAuthedHost();
      if host.Some? { SendTo(host.value, ViewerLeft); }
    }
  }
}
