/**
 What every run of a signaling room keeps, whatever the clients send, whenever sockets break, and
 however the suspended signature checks interleave with everything else.
 */
module RoomRuns {
  import opened Wrappers
  import opened Bytes
  import opened Signatures
  import opened HostRoom

  // Part one: the sockets.

  predicate Sound(owner: Option<string>, s: Socket) {
    && (s.gone ==> !s.open)
    && (s.Host? ==> FromHex(s.nonce).Some?)
    && (s.Host? && s.authed ==> owner == Some(s.key))
  }

  predicate Matches(sockets: seq<Socket>, c: Suspended) {
    && c.ws < |sockets| && sockets[c.ws].Host?
    && sockets[c.ws].key == c.key && sockets[c.ws].id == c.id && FromHex(sockets[c.ws].nonce) == Some(c.nonce)
  }

  /** At most one open host is registered, and at most one viewer is open. */
  ghost predicate Exclusive(sockets: seq<Socket>) {
    && (forall i, j | 0 <= i < |sockets| && 0 <= j < |sockets| ::
          IsAuthedHost(sockets[i]) && IsAuthedHost(sockets[j]) ==> i == j)
    && (forall i, j | 0 <= i < |sockets| && 0 <= j < |sockets| ::
          IsOpenViewer(sockets[i]) && IsOpenViewer(sockets[j]) ==> i == j)
  }

  /** A registered host whose close handler has not run yet: that handler will end the viewer's session. */
  predicate WillEndViewer(s: Socket) { s.Host? && s.authed && !s.gone }

  /** No viewer is orphaned. */
  ghost predicate Attended(sockets: seq<Socket>) {
    (exists v :: 0 <= v < |sockets| && IsOpenViewer(sockets[v])) ==>
      exists h :: 0 <= h < |sockets| && WillEndViewer(sockets[h])
  }

  ghost predicate SocketsOk(r: Room) {
    && (forall i :: 0 <= i < |r.sockets| ==> Sound(r.owner, r.sockets[i]))
    && (forall k :: 0 <= k < |r.suspended| ==> Matches(r.sockets, r.suspended[k]))
    && Exclusive(r.sockets)
  }

  lemma CloseKeepsSockets(r: Room, ws: nat, code: nat)
    requires SocketsOk(r) && ws < |r.sockets|
    ensures SocketsOk(CloseFromServer(r, ws, code))
    ensures Attended(r.sockets) ==> Attended(CloseFromServer(r, ws, code).sockets)
  {
    StaysAttended(r.sockets, CloseFromServer(r, ws, code).sockets);
  }

  /** Nobody is orphaned by a step that opens no viewer and keeps every registered host. */
  lemma StaysAttended(before: seq<Socket>, after: seq<Socket>)
    requires |before| <= |after|
    requires forall v :: 0 <= v < |after| && IsOpenViewer(after[v]) ==> v < |before| && IsOpenViewer(before[v])
    requires forall h :: 0 <= h < |before| && WillEndViewer(before[h]) ==> WillEndViewer(after[h])
    ensures Attended(before) ==> Attended(after)
  {
    if Attended(before) && exists v :: 0 <= v < |after| && IsOpenViewer(after[v]) {
      var v :| 0 <= v < |after| && IsOpenViewer(after[v]);
      assert IsOpenViewer(before[v]);
      var h :| 0 <= h < |before| && WillEndViewer(before[h]);
      assert WillEndViewer(after[h]);
    }
  }

  /** Ending a host leaves no open viewer, so nobody is orphaned by it. */
  lemma HostGoneKeepsSockets(r: Room, host: nat)
    requires SocketsOk(r) && host < |r.sockets| && r.sockets[host].Host?
    ensures SocketsOk(HostGone(r, host)) && Attended(HostGone(r, host).sockets)
    ensures forall i :: 0 <= i < |r.sockets| && i != host && r.sockets[i].Host? ==>
              HostGone(r, host).sockets[i] == r.sockets[i]
  {
    var r1 := r.(sockets := r.sockets[host := r.sockets[host].(authed := false)]);
    assert SocketsOk(r1);
    match OpenViewer(r1) {
      case None =>
      case Some(v) => CloseKeepsSockets(Send(r1, v, HostLeft), v, CLOSE_HOST_LEFT);
    }
  }

  /** Making way for `ws`: afterwards no other host is registered and open. */
  function MakeWay(r: Room, ws: nat): Room
    requires ws < |r.sockets|
  {
    match AuthedHost(r)
    case None => r
    case Some(previous) =>
      if previous == ws then r else CloseFromServer(HostGone(r, previous), previous, CLOSE_REPLACED)
  }

  function Authorize(r: Room, ws: nat): Room
    requires ws < |r.sockets| && r.sockets[ws].Host?
  {
    r.(sockets := r.sockets[ws := r.sockets[ws].(authed := true)])
  }

  lemma MakeWayKeepsSockets(r: Room, ws: nat)
    requires SocketsOk(r) && Attended(r.sockets) && ws < |r.sockets| && r.sockets[ws].Host?
    ensures |MakeWay(r, ws).sockets| == |r.sockets| && MakeWay(r, ws).owner == r.owner
    ensures MakeWay(r, ws).sockets[ws] == r.sockets[ws]
    ensures SocketsOk(MakeWay(r, ws)) && Attended(MakeWay(r, ws).sockets)
    ensures forall i :: 0 <= i < |r.sockets| && i != ws ==> !IsAuthedHost(MakeWay(r, ws).sockets[i])
  {
    match AuthedHost(r) {
      case None =>
      case Some(previous) =>
        if previous != ws {
          HostGoneKeepsSockets(r, previous);
          CloseKeepsSockets(HostGone(r, previous), previous, CLOSE_REPLACED);
        }
    }
  }

  lemma AuthorizeKeepsSockets(r: Room, ws: nat)
    requires SocketsOk(r) && Attended(r.sockets) && ws < |r.sockets| && r.sockets[ws].Host?
    requires r.owner == Some(r.sockets[ws].key)
    requires forall i :: 0 <= i < |r.sockets| && i != ws ==> !IsAuthedHost(r.sockets[i])
    ensures SocketsOk(Authorize(r, ws)) && Attended(Authorize(r, ws).sockets)
  {
    StaysAttended(r.sockets, Authorize(r, ws).sockets);
  }

  function Bind(r: Room, key: string): Room { if r.owner.None? then r.(owner := Some(key)) else r }

  lemma ResumeIs(r: Room, c: Suspended)
    requires c.ws < |r.sockets| && r.sockets[c.ws].Host?
    requires VerifiesHex(c.key, c.sig, AuthMessage(c.nonce, c.id)) && (r.owner.None? || r.owner.value == c.key)
    requires |MakeWay(Bind(r, c.key), c.ws).sockets| == |r.sockets|
    requires MakeWay(Bind(r, c.key), c.ws).sockets[c.ws].Host?
    ensures Resume(r, c) == Send(Authorize(MakeWay(Bind(r, c.key), c.ws), c.ws), c.ws, Registered(c.id))
  {
  }

  lemma ResumeKeepsSockets(r: Room, c: Suspended)
    requires SocketsOk(r) && Attended(r.sockets) && Matches(r.sockets, c)
    ensures SocketsOk(Resume(r, c)) && Attended(Resume(r, c).sockets)
  {
    CloseKeepsSockets(r, c.ws, CLOSE_AUTH);
    if VerifiesHex(c.key, c.sig, AuthMessage(c.nonce, c.id)) && (r.owner.None? || r.owner.value == c.key) {
      var r1 := Bind(r, c.key);
      assert SocketsOk(r1);
      MakeWayKeepsSockets(r1, c.ws);
      AuthorizeKeepsSockets(MakeWay(r1, c.ws), c.ws);
      ResumeIs(r, c);
    }
  }

  lemma HostConnectsKeepsSockets(r: Room, id: seq<byte>, key: string, claim: bool, nonce: seq<byte>)
    requires SocketsOk(r) && Attended(r.sockets)
    ensures
      var r' := AcceptHost(r, id, key, claim, nonce).0;
      SocketsOk(r') && Attended(r'.sockets)
  {
    HexRoundTrip(nonce);
    StaysAttended(r.sockets, AcceptHost(r, id, key, claim, nonce).0.sockets);
  }

  lemma ViewerConnectsKeepsSockets(r: Room)
    requires SocketsOk(r) && Attended(r.sockets)
    ensures SocketsOk(AcceptViewer(r).0) && Attended(AcceptViewer(r).0.sockets)
  {
    if AcceptViewer(r).1.Upgraded? {
      var host := AuthedHost(r).value;
      assert Sound(r.owner, r.sockets[host]);
      assert WillEndViewer(AcceptViewer(r).0.sockets[host]);
    }
  }

  lemma MessageKeepsSockets(r: Room, ws: nat, msg: Incoming)
    requires SocketsOk(r) && Attended(r.sockets) && ws < |r.sockets|
    ensures SocketsOk(Message(r, ws, msg)) && Attended(Message(r, ws, msg).sockets)
  {
    var r1 := r.(log := r.log + [Got(ws, msg)]);
    assert SocketsOk(r1);
    CloseKeepsSockets(r1, ws, CLOSE_TOO_BIG);
    CloseKeepsSockets(r1, ws, CLOSE_PROTOCOL);
    if msg.Parsed? && r.sockets[ws].Host? { HostMessageKeepsSockets(r1, ws, msg); }
  }

  lemma HostMessageKeepsSockets(r: Room, ws: nat, msg: Incoming)
    requires SocketsOk(r) && Attended(r.sockets) && ws < |r.sockets| && r.sockets[ws].Host? && msg.Parsed?
    ensures SocketsOk(HostMessage(r, ws, msg)) && Attended(HostMessage(r, ws, msg).sockets)
  {
    if !r.sockets[ws].authed {
      CloseKeepsSockets(r, ws, CLOSE_AUTH);
      if msg.sig.Some? { AuthenticateKeepsSockets(r, ws, msg.sig.value); }
    } else if msg.t.KickKind? && OpenViewer(r).Some? {
      CloseKeepsSockets(r, OpenViewer(r).value, CLOSE_KICKED);
    } else {
      CloseKeepsSockets(r, ws, CLOSE_PROTOCOL);
    }
  }

  lemma AuthenticateKeepsSockets(r: Room, ws: nat, sig: Signature)
    requires SocketsOk(r) && Attended(r.sockets) && ws < |r.sockets| && r.sockets[ws].Host?
    ensures SocketsOk(Authenticate(r, ws, sig)) && Attended(Authenticate(r, ws, sig).sockets)
  {
    assert Sound(r.owner, r.sockets[ws]);
    var r' := Authenticate(r, ws, sig);
    assert r'.sockets == r.sockets;
    assert Matches(r'.sockets, r'.suspended[|r.suspended|]);
  }

  lemma CheckKeepsSockets(r: Room, k: nat)
    requires SocketsOk(r) && Attended(r.sockets) && k < |r.suspended|
    ensures SocketsOk(Step(r, CheckFinishes(k))) && Attended(Step(r, CheckFinishes(k)).sockets)
  {
    var rest := r.(suspended := r.suspended[..k] + r.suspended[k + 1..]);
    assert SocketsOk(rest);
    assert Matches(r.sockets, r.suspended[k]);
    ResumeKeepsSockets(rest, r.suspended[k]);
  }

  lemma GoneKeepsSockets(r: Room, ws: nat)
    requires SocketsOk(r) && Attended(r.sockets) && ws < |r.sockets| && !r.sockets[ws].open
    ensures
      var r1 := MarkGone(r, ws);
      SocketsOk(OnGone(r1, ws)) && Attended(OnGone(r1, ws).sockets)
  {
    var r1 := MarkGone(r, ws);
    assert SocketsOk(r1);
    if r.sockets[ws].Host? && r.sockets[ws].authed {
      HostGoneKeepsSockets(r1, ws);
    } else {
      StaysAttended(r.sockets, r1.sockets);
    }
  }

  lemma LeaveKeepsSockets(r: Room, ws: nat)
    requires SocketsOk(r) && Attended(r.sockets)
    ensures SocketsOk(Step(r, LeavesOpen(ws))) && Attended(Step(r, LeavesOpen(ws)).sockets)
  {
    StaysAttended(r.sockets, Step(r, LeavesOpen(ws)).sockets);
  }

  lemma StepKeepsSockets(r: Room, e: Event)
    requires SocketsOk(r) && Attended(r.sockets)
    ensures SocketsOk(Step(r, e)) && Attended(Step(r, e).sockets)
  {
    match e {
      case HostConnects(id, key, claim, nonce) => HostConnectsKeepsSockets(r, id, key, claim, nonce);
      case ViewerConnects => ViewerConnectsKeepsSockets(r);
      case Arrives(ws, msg) => if ws < |r.sockets| { MessageKeepsSockets(r, ws, msg); }
      case CheckFinishes(k) => if k < |r.suspended| { CheckKeepsSockets(r, k); }
      case LeavesOpen(ws) => LeaveKeepsSockets(r, ws);
      case CloseHandlerRuns(ws) =>
        if ws < |r.sockets| && !r.sockets[ws].open && !r.sockets[ws].gone { GoneKeepsSockets(r, ws); }
    }
  }

  lemma {:induction false} RunKeepsSockets(events: seq<Event>)
    ensures SocketsOk(Run(EMPTY, events)) && Attended(Run(EMPTY, events).sockets)
  {
    if events != [] {
      RunKeepsSockets(events[..|events| - 1]);
      StepKeepsSockets(Run(EMPTY, events[..|events| - 1]), events[|events| - 1]);
    }
  }

  /**
   In every reachable room at most one registered host is open, at most one viewer is open, and an
   open viewer always has a host that is open or whose pending close handler will end its session.
   */
  lemma AtMostOneEach(events: seq<Event>)
    ensures
      var r := Run(EMPTY, events);
      && Exclusive(r.sockets) && Attended(r.sockets)
      && forall i :: 0 <= i < |r.sockets| && IsAuthedHost(r.sockets[i]) ==> r.owner == Some(r.sockets[i].key)
  {
    RunKeepsSockets(events);
    var r := Run(EMPTY, events);
    forall i | 0 <= i < |r.sockets| && IsAuthedHost(r.sockets[i]) ensures r.owner == Some(r.sockets[i].key) {
      assert Sound(r.owner, r.sockets[i]);
    }
  }

  predicate AllHandled(sockets: seq<Socket>) {
    forall ws :: 0 <= ws < |sockets| ==> sockets[ws].open || sockets[ws].gone
  }

  /** Once every due close handler has run, an open viewer has an open registered host. */
  lemma NoOrphanAtRest(events: seq<Event>)
    requires AllHandled(Run(EMPTY, events).sockets)
    ensures OpenViewer(Run(EMPTY, events)).Some? ==> AuthedHost(Run(EMPTY, events)).Some?
  {
    RunKeepsSockets(events);
    var r := Run(EMPTY, events);
    if OpenViewer(r).Some? {
      assert IsOpenViewer(r.sockets[OpenViewer(r).value]);
      var h :| 0 <= h < |r.sockets| && WillEndViewer(r.sockets[h]);
      assert IsAuthedHost(r.sockets[h]);
    }
  }

  /** The nonce of a challenge always decodes: the branch that refuses a bad nonce is never taken. */
  lemma NonceDecodes(events: seq<Event>, ws: nat, sig: Signature)
    requires ws < |Run(EMPTY, events).sockets| && Run(EMPTY, events).sockets[ws].Host?
    ensures
      var r := Run(EMPTY, events);
      |Authenticate(r, ws, sig).suspended| == |r.suspended| + 1 && Authenticate(r, ws, sig).sockets == r.sockets
  {
    RunKeepsSockets(events);
    assert Sound(Run(EMPTY, events).owner, Run(EMPTY, events).sockets[ws]);
  }

  // Part two: what the log shows.

  /** What never changes about a socket. */
  datatype Identity = HostIdentity(nonce: string, key: string, id: seq<byte>) | ViewerIdentity

  function IdentityOf(s: Socket): Identity {
    if s.Host? then HostIdentity(s.nonce, s.key, s.id) else ViewerIdentity
  }

  function Identities(sockets: seq<Socket>): (ids: seq<Identity>)
    ensures |ids| == |sockets|
  {
    seq(|sockets|, i requires 0 <= i < |sockets| => IdentityOf(sockets[i]))
  }

  predicate Ends(a: Action, ws: nat) { (a.Closed? || a.LeftOpen?) && a.ws == ws }

  /** `ws` was closed by the room or left OPEN by itself. */
  predicate Ended(log: seq<Action>, ws: nat) {
    log != [] && (Ends(log[|log| - 1], ws) || Ended(log[..|log| - 1], ws))
  }

  predicate Joins(a: Action) { a.Sent? && a.frame.Joined? }

  /** The viewer that joined last. */
  function LastJoined(log: seq<Action>): Option<nat> {
    if log == [] then None
    else if Joins(log[|log| - 1]) then Some(log[|log| - 1].ws)
    else LastJoined(log[..|log| - 1])
  }

  predicate Presents(a: Action, ws: nat, sig: Signature) {
    a.Got? && a.ws == ws && a.msg.Parsed? && a.msg.t.AuthKind? && a.msg.sig == Some(sig)
  }

  /** `ws` sent `sig` for authentication. */
  predicate Presented(log: seq<Action>, ws: nat, sig: Signature) {
    log != [] && (Presents(log[|log| - 1], ws, sig) || Presented(log[..|log| - 1], ws, sig))
  }

  lemma Append(log: seq<Action>, a: Action)
    ensures forall ws :: Ended(log + [a], ws) <==> Ends(a, ws) || Ended(log, ws)
    ensures LastJoined(log + [a]) == if Joins(a) then Some(a.ws) else LastJoined(log)
    ensures forall ws, sig :: Presented(log + [a], ws, sig) <==> Presents(a, ws, sig) || Presented(log, ws, sig)
  {
    assert (log + [a])[..|log|] == log;
  }

  /** Somebody signed, with the key of host `ws`, exactly the challenge that `ws` was given, and `ws` sent it. */
  predicate Proved(ids: seq<Identity>, log: seq<Action>, ws: nat) {
    && ws < |ids| && ids[ws].HostIdentity?
    && Sent(ws, Challenge(ids[ws].nonce, ids[ws].id)) in log
    && FromHex(ids[ws].key).Some? && FromHex(ids[ws].nonce).Some?
    && Presented(log, ws,
         SignedBy(FromHex(ids[ws].key).value, AuthMessage(FromHex(ids[ws].nonce).value, ids[ws].id)))
  }

  /** The last thing that happened is that `from` sent a relay of `data`. */
  predicate JustRelayed(past: seq<Action>, from: nat, data: string) {
    && past != []
    && var a := past[|past| - 1];
    && a.Got? && a.ws == from && a.msg.Parsed? && a.msg.t.RelayKind? && a.msg.data == Some(data)
  }

  /** What must have happened before the room sends `frame` to `ws`. */
  predicate Justified(owner: Option<string>, ids: seq<Identity>, past: seq<Action>, ws: nat, frame: Frame) {
    && ws < |ids|
    && !Ended(past, ws)
    && match frame
       case Relay(data) =>
         if ids[ws].HostIdentity? then
           match LastJoined(past)
           case None => false
           case Some(v) => JustRelayed(past, v, data) && !Ended(past, v)
         else
           past != [] && past[|past| - 1].Got?
           && JustRelayed(past, past[|past| - 1].ws, data) && Proved(ids, past, past[|past| - 1].ws)
       case Registered(id) =>
         Proved(ids, past, ws) && ids[ws].id == id && owner == Some(ids[ws].key)
       case ViewerJoined => past != [] && Joins(past[|past| - 1])
       case _ => true
  }

  predicate Kicks(a: Action) { a.Got? && a.msg.Parsed? && a.msg.t.KickKind? }

  /** What must have happened before the room closes `ws` with `code`. */
  predicate JustifiedClose(ids: seq<Identity>, past: seq<Action>, ws: nat, code: nat) {
    && !Ended(past, ws)
    && (code == CLOSE_HOST_LEFT ==> past != [] && past[|past| - 1] == Sent(ws, HostLeft))
    && (code == CLOSE_KICKED ==>
          past != [] && Kicks(past[|past| - 1]) && Proved(ids, past, past[|past| - 1].ws) && LastJoined(past) == Some(ws))
  }

  predicate Genuine(owner: Option<string>, ids: seq<Identity>, log: seq<Action>) {
    log != [] ==>
      var past, a := log[..|log| - 1], log[|log| - 1];
      && Genuine(owner, ids, past)
      && (a.Sent? ==> Justified(owner, ids, past, a.ws, a.frame))
      && (a.Closed? ==> JustifiedClose(ids, past, a.ws, a.code))
  }

  lemma {:induction false} GenuineGrows(owner: Option<string>, ids: seq<Identity>, more: seq<Identity>, log: seq<Action>)
    requires Genuine(owner, ids, log)
    ensures Genuine(owner, ids + more, log)
  {
    if log != [] { GenuineGrows(owner, ids, more, log[..|log| - 1]); }
  }

  lemma {:induction false} GenuineBinds(ids: seq<Identity>, log: seq<Action>, key: string)
    requires Genuine(None, ids, log)
    ensures Genuine(Some(key), ids, log)
  {
    if log != [] { GenuineBinds(ids, log[..|log| - 1], key); }
  }

  lemma GenuineAppend(owner: Option<string>, ids: seq<Identity>, log: seq<Action>, a: Action)
    requires Genuine(owner, ids, log) && (a.Sent? ==> Justified(owner, ids, log, a.ws, a.frame))
    requires a.Closed? ==> JustifiedClose(ids, log, a.ws, a.code)
    ensures Genuine(owner, ids, log + [a])
  {
    assert (log + [a])[..|log|] == log;
  }

  predicate SocketLogged(s: Socket, ws: nat, ids: seq<Identity>, log: seq<Action>) {
    && (s.open <==> !Ended(log, ws))
    && (IsOpenViewer(s) ==> LastJoined(log) == Some(ws))
    && (s.Host? ==> Sent(ws, Challenge(s.nonce, s.id)) in log)
    && (s.Host? && s.authed ==> Proved(ids, log, ws))
  }

  ghost predicate LogOk(r: Room) {
    var ids := Identities(r.sockets);
    && (forall ws :: 0 <= ws < |r.sockets| ==> SocketLogged(r.sockets[ws], ws, ids, r.log))
    && (forall ws :: ws >= |r.sockets| ==> !Ended(r.log, ws))
    && (forall k :: 0 <= k < |r.suspended| ==> Presented(r.log, r.suspended[k].ws, r.suspended[k].sig))
    && Genuine(r.owner, ids, r.log)
  }

  lemma GotKeepsLog(r: Room, ws: nat, msg: Incoming)
    requires LogOk(r)
    ensures LogOk(r.(log := r.log + [Got(ws, msg)]))
  {
    Append(r.log, Got(ws, msg));
    GenuineAppend(r.owner, Identities(r.sockets), r.log, Got(ws, msg));
  }

  lemma SendKeepsLog(r: Room, ws: nat, frame: Frame)
    requires LogOk(r) && ws < |r.sockets| && !frame.Joined?
    requires r.sockets[ws].open ==> Justified(r.owner, Identities(r.sockets), r.log, ws, frame)
    ensures LogOk(Send(r, ws, frame))
  {
    if r.sockets[ws].open {
      Append(r.log, Sent(ws, frame));
      GenuineAppend(r.owner, Identities(r.sockets), r.log, Sent(ws, frame));
    }
  }

  /** A frame that needs no justification beyond an open socket. */
  lemma PlainSendKeepsLog(r: Room, ws: nat, frame: Frame)
    requires LogOk(r) && ws < |r.sockets| && !frame.Joined? && !frame.Relay? && !frame.Registered?
    requires frame.ViewerJoined? ==> r.log != [] && Joins(r.log[|r.log| - 1])
    ensures LogOk(Send(r, ws, frame))
  {
    assert SocketLogged(r.sockets[ws], ws, Identities(r.sockets), r.log);
    SendKeepsLog(r, ws, frame);
  }

  /** The log invariant only looks at which sockets are open and which are registered. */
  lemma ChangeKeepsLog(r: Room, r': Room)
    requires LogOk(r) && |r'.sockets| == |r.sockets| && r'.log == r.log && r'.owner == r.owner
    requires r'.suspended == r.suspended
    requires forall i :: 0 <= i < |r.sockets| ==>
               && IdentityOf(r'.sockets[i]) == IdentityOf(r.sockets[i])
               && r'.sockets[i].open == r.sockets[i].open
               && (r'.sockets[i].Host? && r'.sockets[i].authed ==>
                     r.sockets[i].authed || Proved(Identities(r.sockets), r.log, i))
    ensures LogOk(r')
  {
    assert Identities(r'.sockets) == Identities(r.sockets);
    forall ws | 0 <= ws < |r'.sockets| ensures SocketLogged(r'.sockets[ws], ws, Identities(r'.sockets), r'.log) {
      assert SocketLogged(r.sockets[ws], ws, Identities(r.sockets), r.log);
    }
  }

  /** Socket `ws` leaves OPEN, either by the room's doing or by itself. */
  lemma EndKeepsLog(r: Room, ws: nat, a: Action, s: Socket)
    requires LogOk(r) && ws < |r.sockets| && Ends(a, ws) && !s.open && IdentityOf(s) == IdentityOf(r.sockets[ws])
    requires s.Host? && s.authed ==> r.sockets[ws].authed
    requires r.sockets[ws].open && (a.Closed? ==> JustifiedClose(Identities(r.sockets), r.log, ws, a.code))
    ensures LogOk(r.(sockets := r.sockets[ws := s], log := r.log + [a]))
  {
    var r' := r.(sockets := r.sockets[ws := s], log := r.log + [a]);
    Append(r.log, a);
    assert Identities(r'.sockets) == Identities(r.sockets);
    GenuineAppend(r.owner, Identities(r.sockets), r.log, a);
    forall i | 0 <= i < |r'.sockets| ensures SocketLogged(r'.sockets[i], i, Identities(r'.sockets), r'.log) {
      assert SocketLogged(r.sockets[i], i, Identities(r.sockets), r.log);
    }
  }

  lemma CloseKeepsLog(r: Room, ws: nat, code: nat)
    requires LogOk(r) && ws < |r.sockets|
    requires r.sockets[ws].open && (code == CLOSE_HOST_LEFT || code == CLOSE_KICKED) ==>
               JustifiedClose(Identities(r.sockets), r.log, ws, code)
    ensures LogOk(CloseFromServer(r, ws, code))
  {
    var r' := CloseFromServer(r, ws, code);
    if r.sockets[ws].open {
      assert SocketLogged(r.sockets[ws], ws, Identities(r.sockets), r.log);
      EndKeepsLog(r, ws, Closed(ws, code), r'.sockets[ws]);
    } else {
      ChangeKeepsLog(r, r');
    }
  }

  lemma HostGoneKeepsLog(r: Room, host: nat)
    requires LogOk(r) && host < |r.sockets| && r.sockets[host].Host?
    ensures LogOk(HostGone(r, host))
  {
    var r1 := r.(sockets := r.sockets[host := r.sockets[host].(authed := false)]);
    ChangeKeepsLog(r, r1);
    match OpenViewer(r1) {
      case None =>
      case Some(v) =>
        PlainSendKeepsLog(r1, v, HostLeft);
        var r2 := Send(r1, v, HostLeft);
        assert SocketLogged(r2.sockets[v], v, Identities(r2.sockets), r2.log);
        CloseKeepsLog(r2, v, CLOSE_HOST_LEFT);
    }
  }

  /** Both kinds of accept: the new socket's first frame is its challenge or its `joined`. */
  lemma AcceptKeepsLog(r: Room, s: Socket, first: Frame)
    requires LogOk(r) && s.open && (s.Host? ==> !s.authed && first == Challenge(s.nonce, s.id))
    requires s.Viewer? ==> first.Joined? && OpenViewer(r).None?
    ensures LogOk(r.(sockets := r.sockets + [s], log := r.log + [Sent(|r.sockets|, first)]))
  {
    var ws := |r.sockets|;
    var a := Sent(ws, first);
    var r' := r.(sockets := r.sockets + [s], log := r.log + [a]);
    Append(r.log, a);
    var ids := Identities(r.sockets);
    assert Identities(r'.sockets) == ids + [IdentityOf(s)];
    GenuineGrows(r.owner, ids, [IdentityOf(s)], r.log);
    GenuineAppend(r.owner, ids + [IdentityOf(s)], r.log, a);
    forall i | 0 <= i < |r'.sockets| ensures SocketLogged(r'.sockets[i], i, Identities(r'.sockets), r'.log) {
      if i < ws {
        assert SocketLogged(r.sockets[i], i, ids, r.log);
      } else {
        assert r'.log[|r.log|] == a;
      }
    }
  }

  lemma MakeWayKeepsLog(r: Room, ws: nat)
    requires LogOk(r) && ws < |r.sockets|
    ensures LogOk(MakeWay(r, ws))
  {
    match AuthedHost(r) {
      case None =>
      case Some(previous) =>
        if previous != ws {
          HostGoneKeepsLog(r, previous);
          CloseKeepsLog(HostGone(r, previous), previous, CLOSE_REPLACED);
        }
    }
  }

  lemma MakeWayKeepsEvidence(r: Room, ws: nat)
    requires ws < |r.sockets|
    ensures Identities(MakeWay(r, ws).sockets) == Identities(r.sockets)
    ensures forall w :: Proved(Identities(r.sockets), r.log, w) ==>
              Proved(Identities(r.sockets), MakeWay(r, ws).log, w)
  {
    var r' := MakeWay(r, ws);
    match AuthedHost(r) {
      case None =>
      case Some(previous) =>
        if previous != ws {
          var r1 := r.(sockets := r.sockets[previous := r.sockets[previous].(authed := false)]);
          assert Identities(r1.sockets) == Identities(r.sockets);
          match OpenViewer(r1) {
            case None => Append(r.log, Closed(previous, CLOSE_REPLACED));
            case Some(v) =>
              var log1 := r.log + [Sent(v, HostLeft)];
              var log2 := log1 + [Closed(v, CLOSE_HOST_LEFT)];
              Append(r.log, Sent(v, HostLeft));
              Append(log1, Closed(v, CLOSE_HOST_LEFT));
              Append(log2, Closed(previous, CLOSE_REPLACED));
              assert r'.log == log2 + [Closed(previous, CLOSE_REPLACED)];
          }
          assert Identities(r'.sockets) == Identities(r.sockets);
        }
    }
  }

  lemma BindKeepsLog(r: Room, key: string)
    requires LogOk(r)
    ensures LogOk(Bind(r, key))
  {
    if r.owner.None? { GenuineBinds(Identities(r.sockets), r.log, key); }
  }

  /** The successful end of a signature check, given that the signature is the one that was presented. */
  lemma RegisterKeepsLog(r: Room, ws: nat, id: seq<byte>)
    requires SocketsOk(r) && Attended(r.sockets) && LogOk(r) && ws < |r.sockets| && r.sockets[ws].Host?
    requires r.owner == Some(r.sockets[ws].key) && r.sockets[ws].id == id && Proved(Identities(r.sockets), r.log, ws)
    requires |MakeWay(r, ws).sockets| == |r.sockets| && MakeWay(r, ws).sockets[ws] == r.sockets[ws]
    ensures LogOk(Send(Authorize(MakeWay(r, ws), ws), ws, Registered(id)))
  {
    var ids := Identities(r.sockets);
    MakeWayKeepsSockets(r, ws);
    MakeWayKeepsLog(r, ws);
    MakeWayKeepsEvidence(r, ws);
    var r2 := MakeWay(r, ws);
    var r3 := Authorize(r2, ws);
    ChangeKeepsLog(r2, r3);
    assert Identities(r3.sockets) == ids;
    assert SocketLogged(r3.sockets[ws], ws, ids, r3.log);
    SendKeepsLog(r3, ws, Registered(id));
  }

  lemma ResumeKeepsLog(r: Room, c: Suspended)
    requires SocketsOk(r) && Attended(r.sockets) && Matches(r.sockets, c)
    requires LogOk(r) && Presented(r.log, c.ws, c.sig)
    ensures LogOk(Resume(r, c))
  {
    CloseKeepsLog(r, c.ws, CLOSE_AUTH);
    if VerifiesHex(c.key, c.sig, AuthMessage(c.nonce, c.id)) && (r.owner.None? || r.owner.value == c.key) {
      assert SocketLogged(r.sockets[c.ws], c.ws, Identities(r.sockets), r.log);
      var r1 := Bind(r, c.key);
      BindKeepsLog(r, c.key);
      assert SocketsOk(r1);
      MakeWayKeepsSockets(r1, c.ws);
      ResumeIs(r, c);
      RegisterKeepsLog(r1, c.ws, c.id);
    }
  }

  lemma MessageKeepsLog(r: Room, ws: nat, msg: Incoming)
    requires SocketsOk(r) && LogOk(r) && ws < |r.sockets|
    ensures LogOk(Message(r, ws, msg))
  {
    var r1 := r.(log := r.log + [Got(ws, msg)]);
    var ids := Identities(r.sockets);
    GotKeepsLog(r, ws, msg);
    Append(r.log, Got(ws, msg));
    CloseKeepsLog(r1, ws, CLOSE_TOO_BIG);
    CloseKeepsLog(r1, ws, CLOSE_PROTOCOL);
    assert SocketLogged(r1.sockets[ws], ws, ids, r1.log);
    if msg.Parsed? {
      if r.sockets[ws].Host? {
        HostMessageKeepsLog(r1, ws, msg);
      } else if msg.t.RelayKind? && msg.data.Some? && AuthedHost(r1).Some? {
        var host := AuthedHost(r1).value;
        assert SocketLogged(r1.sockets[host], host, ids, r1.log);
        if OpenViewer(r1) == Some(ws) { SendKeepsLog(r1, host, Relay(msg.data.value)); }
      }
    }
  }

  lemma HostMessageKeepsLog(r: Room, ws: nat, msg: Incoming)
    requires SocketsOk(r) && LogOk(r) && ws < |r.sockets| && r.sockets[ws].Host? && msg.Parsed?
    requires r.log != [] && r.log[|r.log| - 1] == Got(ws, msg)
    ensures LogOk(HostMessage(r, ws, msg))
  {
    var ids := Identities(r.sockets);
    CloseKeepsLog(r, ws, CLOSE_PROTOCOL);
    CloseKeepsLog(r, ws, CLOSE_AUTH);
    assert SocketLogged(r.sockets[ws], ws, ids, r.log);
    if !r.sockets[ws].authed {
      if msg.t.AuthKind? && msg.sig.Some? { assert Presented(r.log, ws, msg.sig.value); }
    } else if OpenViewer(r).Some? {
      var v := OpenViewer(r).value;
      assert SocketLogged(r.sockets[v], v, ids, r.log);
      if msg.t.KickKind? { CloseKeepsLog(r, v, CLOSE_KICKED); }
      if msg.t.RelayKind? && msg.data.Some? { SendKeepsLog(r, v, Relay(msg.data.value)); }
    }
  }

  lemma ConnectsKeepsLog(r: Room, e: Event)
    requires SocketsOk(r) && LogOk(r) && (e.HostConnects? || e.ViewerConnects?)
    ensures LogOk(Step(r, e))
  {
    match e {
      case HostConnects(id, key, claim, nonce) =>
        if AcceptHost(r, id, key, claim, nonce).1.Upgraded? {
          AcceptKeepsLog(r, Host(true, false, false, ToHex(nonce), key, id), Challenge(ToHex(nonce), id));
        }
      case ViewerConnects =>
        if AcceptViewer(r).1.Upgraded? {
          var s := Viewer(true, false, false);
          AcceptKeepsLog(r, s, Joined);
          var r1 := r.(sockets := r.sockets + [s], log := r.log + [Sent(|r.sockets|, Joined)]);
          PlainSendKeepsLog(r1, AuthedHost(r).value, ViewerJoined);
        }
    }
  }

  lemma CheckKeepsLog(r: Room, k: nat)
    requires SocketsOk(r) && Attended(r.sockets) && LogOk(r) && k < |r.suspended|
    ensures LogOk(Step(r, CheckFinishes(k)))
  {
    var rest := r.(suspended := r.suspended[..k] + r.suspended[k + 1..]);
    assert SocketsOk(rest);
    assert LogOk(rest);
    assert Matches(r.sockets, r.suspended[k]);
    ResumeKeepsLog(rest, r.suspended[k]);
  }

  lemma GoneKeepsLog(r: Room, ws: nat)
    requires SocketsOk(r) && LogOk(r) && ws < |r.sockets|
    ensures LogOk(OnGone(MarkGone(r, ws), ws))
  {
    var r1 := MarkGone(r, ws);
    ChangeKeepsLog(r, r1);
    if r.sockets[ws].Host? {
      HostGoneKeepsLog(r1, ws);
    } else if AuthedHost(r1).Some? {
      PlainSendKeepsLog(r1, AuthedHost(r1).value, ViewerLeft);
    }
  }

  lemma StepKeepsLog(r: Room, e: Event)
    requires SocketsOk(r) && Attended(r.sockets) && LogOk(r)
    ensures LogOk(Step(r, e))
  {
    match e {
      case HostConnects(_, _, _, _) => ConnectsKeepsLog(r, e);
      case ViewerConnects => ConnectsKeepsLog(r, e);
      case Arrives(ws, msg) => if ws < |r.sockets| { MessageKeepsLog(r, ws, msg); }
      case CheckFinishes(k) => if k < |r.suspended| { CheckKeepsLog(r, k); }
      case LeavesOpen(ws) =>
        if ws < |r.sockets| && r.sockets[ws].open { EndKeepsLog(r, ws, LeftOpen(ws), Step(r, e).sockets[ws]); }
      case CloseHandlerRuns(ws) =>
        if ws < |r.sockets| && !r.sockets[ws].open && !r.sockets[ws].gone { GoneKeepsLog(r, ws); }
    }
  }

  lemma {:induction false} RunKeepsLog(events: seq<Event>)
    ensures LogOk(Run(EMPTY, events))
  {
    if events != [] {
      var before := events[..|events| - 1];
      RunKeepsSockets(before);
      RunKeepsLog(before);
      StepKeepsLog(Run(EMPTY, before), events[|events| - 1]);
    }
  }

  lemma {:induction false} GenuineAt(owner: Option<string>, ids: seq<Identity>, log: seq<Action>, i: nat)
    requires Genuine(owner, ids, log) && i < |log|
    ensures log[i].Sent? ==> Justified(owner, ids, log[..i], log[i].ws, log[i].frame)
    ensures log[i].Closed? ==> JustifiedClose(ids, log[..i], log[i].ws, log[i].code)
  {
    if i < |log| - 1 {
      GenuineAt(owner, ids, log[..|log| - 1], i);
      assert log[..|log| - 1][..i] == log[..i];
    }
  }

  /**
   Isolation of the relay to the host: whatever relay a host receives was sent, just before, by the
   viewer that joined last, and that viewer had been neither kicked, closed, nor disconnected.
   */
  lemma HostHearsOnlyTheCurrentViewer(events: seq<Event>, i: nat)
    requires
      var r := Run(EMPTY, events);
      i < |r.log| && r.log[i].Sent? && r.log[i].frame.Relay? && r.log[i].ws < |r.sockets| && r.sockets[r.log[i].ws].Host?
    ensures
      var r := Run(EMPTY, events);
      var past := r.log[..i];
      && LastJoined(past).Some?
      && JustRelayed(past, LastJoined(past).value, r.log[i].frame.data)
      && !Ended(past, LastJoined(past).value)
  {
    RunKeepsLog(events);
    var r := Run(EMPTY, events);
    GenuineAt(r.owner, Identities(r.sockets), r.log, i);
  }

  /**
   Isolation of the relay to the viewer: whatever relay a viewer receives was sent, just before, by a
   host that had signed its own challenge.
   */
  lemma ViewerHearsOnlyProvenHosts(events: seq<Event>, i: nat)
    requires
      var r := Run(EMPTY, events);
      i < |r.log| && r.log[i].Sent? && r.log[i].frame.Relay? && r.log[i].ws < |r.sockets| && r.sockets[r.log[i].ws].Viewer?
    ensures
      var r := Run(EMPTY, events);
      && i > 0 && r.log[i - 1].Got? && Proved(Identities(r.sockets), r.log[..i], r.log[i - 1].ws)
      && JustRelayed(r.log[..i], r.log[i - 1].ws, r.log[i].frame.data)
  {
    RunKeepsLog(events);
    var r := Run(EMPTY, events);
    GenuineAt(r.owner, Identities(r.sockets), r.log, i);
  }

  /**
   How sessions end: a viewer closed because its host left was told so just before; a viewer is kicked
   only on the word, just before, of a host that had signed its own challenge, and only while it is the
   viewer that joined last. No socket is closed twice.
   */
  lemma ClosesAreJustified(events: seq<Event>, i: nat)
    requires i < |Run(EMPTY, events).log| && Run(EMPTY, events).log[i].Closed?
    ensures
      var r := Run(EMPTY, events);
      var (past, ws, code) := (r.log[..i], r.log[i].ws, r.log[i].code);
      && !Ended(past, ws)
      && (code == CLOSE_HOST_LEFT ==> i > 0 && r.log[i - 1] == Sent(ws, HostLeft))
      && (code == CLOSE_KICKED ==>
            && i > 0 && Kicks(r.log[i - 1]) && Proved(Identities(r.sockets), past, r.log[i - 1].ws)
            && LastJoined(past) == Some(ws))
  {
    RunKeepsLog(events);
    var r := Run(EMPTY, events);
    GenuineAt(r.owner, Identities(r.sockets), r.log, i);
  }

  // What the room owes to well-behaved clients.

  /** A viewer is let in exactly when a registered host is open and no viewer is; both are told, in order. */
  ghost predicate AdmitsViewers(r: Room) {
    var (r', reply) := AcceptViewer(r);
    && (reply.Upgraded? <==>
          && (exists h :: 0 <= h < |r.sockets| && IsAuthedHost(r.sockets[h]))
          && (forall v :: 0 <= v < |r.sockets| ==> !IsOpenViewer(r.sockets[v])))
    && forall h :: 0 <= h < |r.sockets| && IsAuthedHost(r.sockets[h]) && reply.Upgraded? ==>
         r'.log == r.log + [Sent(reply.ws, Joined), Sent(h, ViewerJoined)] && OpenViewer(r') == Some(reply.ws)
  }

  lemma ViewerAdmittedExactly(events: seq<Event>)
    ensures AdmitsViewers(Run(EMPTY, events))
  {
    RunKeepsSockets(events);
    SoundRoomAdmitsViewers(Run(EMPTY, events));
  }

  lemma SoundRoomAdmitsViewers(r: Room)
    requires SocketsOk(r)
    ensures AdmitsViewers(r)
  {
    var (r', reply) := AcceptViewer(r);
    if reply.Upgraded? {
      assert IsOpenViewer(r'.sockets[reply.ws]);
      assert r'.log == r.log + [Sent(reply.ws, Joined), Sent(AuthedHost(r).value, ViewerJoined)];
    }
  }

  /** A relay from the open viewer reaches the open registered host, and one from that host reaches the viewer. */
  lemma RelaysAreDelivered(events: seq<Event>, h: nat, v: nat, sig: Option<Signature>, data: string)
    requires
      var r := Run(EMPTY, events);
      && h < |r.sockets| && IsAuthedHost(r.sockets[h]) && v < |r.sockets| && IsOpenViewer(r.sockets[v])
    ensures
      var r := Run(EMPTY, events);
      var msg := Parsed(RelayKind, sig, Some(data));
      && Step(r, Arrives(v, msg)) == r.(log := r.log + [Got(v, msg), Sent(h, Relay(data))])
      && Step(r, Arrives(h, msg)) == r.(log := r.log + [Got(h, msg), Sent(v, Relay(data))])
  {
    RunKeepsSockets(events);
    var r := Run(EMPTY, events);
    var msg := Parsed(RelayKind, sig, Some(data));
    assert OpenViewer(r) == Some(v) && AuthedHost(r) == Some(h);
    assert OpenViewer(r.(log := r.log + [Got(v, msg)])) == Some(v);
    assert AuthedHost(r.(log := r.log + [Got(v, msg)])) == Some(h);
    assert OpenViewer(r.(log := r.log + [Got(h, msg)])) == Some(v);
  }

  /**
   A host that signs its challenge with its own key is registered, if the ID is unbound or bound to that
   key. Afterwards it is the only registered open host, and if another one was replaced, its viewer is gone.
   */
  lemma HonestHostIsRegistered(events: seq<Event>, k: nat)
    requires k < |Run(EMPTY, events).suspended|
    requires
      var r := Run(EMPTY, events);
      var c := r.suspended[k];
      && c.ws < |r.sockets| && r.sockets[c.ws].open
      && FromHex(c.key).Some? && |FromHex(c.key).value| == 32
      && c.sig == SignedBy(FromHex(c.key).value, AuthMessage(c.nonce, c.id))
      && (r.owner.None? || r.owner.value == c.key)
    ensures
      var r := Run(EMPTY, events);
      var c := r.suspended[k];
      var r' := Step(r, CheckFinishes(k));
      && r'.owner == Some(c.key) && AuthedHost(r') == Some(c.ws)
      && r'.log != [] && r'.log[|r'.log| - 1] == Sent(c.ws, Registered(c.id))
      && (AuthedHost(r).Some? && AuthedHost(r) != Some(c.ws) ==> OpenViewer(r').None?)
  {
    RunKeepsSockets(events);
    var r := Run(EMPTY, events);
    var c := r.suspended[k];
    assert Matches(r.sockets, c);
    var r0 := r.(suspended := r.suspended[..k] + r.suspended[k + 1..]);
    assert SocketsOk(r0);
    assert AuthedHost(r0) == AuthedHost(r);
    GoodCheckRegisters(r0, c);
  }

  lemma GoodCheckRegisters(r: Room, c: Suspended)
    requires SocketsOk(r) && Attended(r.sockets) && Matches(r.sockets, c) && r.sockets[c.ws].open
    requires VerifiesHex(c.key, c.sig, AuthMessage(c.nonce, c.id)) && (r.owner.None? || r.owner.value == c.key)
    ensures
      var r' := Resume(r, c);
      && r'.owner == Some(c.key) && AuthedHost(r') == Some(c.ws)
      && r'.log != [] && r'.log[|r'.log| - 1] == Sent(c.ws, Registered(c.id))
      && (AuthedHost(r).Some? && AuthedHost(r) != Some(c.ws) ==> OpenViewer(r').None?)
  {
    var r1 := Bind(r, c.key);
    assert SocketsOk(r1);
    MakeWayKeepsSockets(r1, c.ws);
    ResumeIs(r, c);
    var r2 := MakeWay(r1, c.ws);
    var r3 := Authorize(r2, c.ws);
    assert IsAuthedHost(r3.sockets[c.ws]);
    assert AuthedHost(r3) == Some(c.ws);
    assert AuthedHost(r1) == AuthedHost(r);
    if AuthedHost(r).Some? && AuthedHost(r) != Some(c.ws) {
      ReplacingEndsTheSession(r1, c.ws);
      assert forall v :: 0 <= v < |r3.sockets| && v != c.ws ==> r3.sockets[v] == r2.sockets[v];
    }
  }

  lemma ReplacingEndsTheSession(r: Room, ws: nat)
    requires SocketsOk(r) && ws < |r.sockets| && r.sockets[ws].Host?
    requires AuthedHost(r).Some? && AuthedHost(r) != Some(ws)
    ensures forall v :: 0 <= v < |MakeWay(r, ws).sockets| ==> !IsOpenViewer(MakeWay(r, ws).sockets[v])
  {
    var h := AuthedHost(r).value;
    var r1 := r.(sockets := r.sockets[h := r.sockets[h].(authed := false)]);
    var r2 := HostGone(r, h);
    forall v | 0 <= v < |r2.sockets| ensures !IsOpenViewer(r2.sockets[v]) {
      if OpenViewer(r1).Some? && v != OpenViewer(r1).value { assert !IsOpenViewer(r1.sockets[v]); }
    }
  }

  /** `registered` only goes to a socket that signed its own challenge, under the owner's key. */
  lemma RegisteredMeansOwner(events: seq<Event>, i: nat)
    requires i < |Run(EMPTY, events).log| && Run(EMPTY, events).log[i].Sent?
    requires Run(EMPTY, events).log[i].frame.Registered?
    ensures
      var r := Run(EMPTY, events);
      var ws := r.log[i].ws;
      && ws < |r.sockets| && r.sockets[ws].Host? && r.owner == Some(r.sockets[ws].key)
      && r.log[i].frame.id == r.sockets[ws].id
      && Proved(Identities(r.sockets), r.log[..i], ws)
  {
    RunKeepsLog(events);
    var r := Run(EMPTY, events);
    GenuineAt(r.owner, Identities(r.sockets), r.log, i);
  }

  lemma StepKeepsOwner(r: Room, e: Event)
    requires r.owner.Some?
    ensures Step(r, e).owner == r.owner
  {
  }

  /** The owner is written at most once: whatever happens later, a bound ID stays bound to the same key. */
  lemma OwnerIsFinal(before: seq<Event>, after: seq<Event>)
    requires Run(EMPTY, before).owner.Some?
    ensures Run(EMPTY, before + after).owner == Run(EMPTY, before).owner
  {
    assert (before + after)[..|before|] == before;
    OwnerStays(before + after, |before|);
  }

  lemma {:induction false} OwnerStays(events: seq<Event>, n: nat)
    requires n <= |events| && Run(EMPTY, events[..n]).owner.Some?
    ensures Run(EMPTY, events).owner == Run(EMPTY, events[..n]).owner
  {
    if n == |events| {
      assert events[..n] == events;
    } else {
      var front := events[..|events| - 1];
      assert front[..n] == events[..n];
      OwnerStays(front, n);
      StepKeepsOwner(Run(EMPTY, front), events[|events| - 1]);
    }
  }

  // Part three: what never comes back.

  /** `r'` can come after `r`: sockets stay who they are, none opens again or loses its mark, and the log only grows. */
  predicate Onward(r: Room, r': Room) {
    && |r.sockets| <= |r'.sockets| && r.log <= r'.log
    && forall i :: 0 <= i < |r.sockets| ==> SocketOnward(r.sockets[i], r'.sockets[i])
  }

  predicate SocketOnward(s: Socket, s': Socket) {
    && IdentityOf(s) == IdentityOf(s') && (s.gone ==> s'.gone) && (s'.open ==> s.open)
    && (s.Viewer? ==> s'.Viewer? && (s.closedByServer ==> s'.closedByServer))
  }

  /** No socket has left OPEN by itself in between. */
  ghost predicate NobodyLeft(r: Room, r': Room) { forall ws :: LeftOpen(ws) in r'.log ==> LeftOpen(ws) in r.log }

  lemma OnwardTwice(a: Room, b: Room, c: Room)
    requires Onward(a, b) && Onward(b, c)
    ensures Onward(a, c) && (NobodyLeft(a, b) && NobodyLeft(b, c) ==> NobodyLeft(a, c))
  {
    forall i | 0 <= i < |a.sockets| ensures SocketOnward(a.sockets[i], c.sockets[i]) {
      assert SocketOnward(a.sockets[i], b.sockets[i]) && SocketOnward(b.sockets[i], c.sockets[i]);
    }
  }

  lemma CloseIsOnward(r: Room, ws: nat, code: nat)
    requires ws < |r.sockets|
    ensures Onward(r, CloseFromServer(r, ws, code)) && NobodyLeft(r, CloseFromServer(r, ws, code))
  {
  }

  lemma HostGoneIsOnward(r: Room, host: nat)
    requires host < |r.sockets| && r.sockets[host].Host?
    ensures Onward(r, HostGone(r, host)) && NobodyLeft(r, HostGone(r, host))
  {
    var r1 := r.(sockets := r.sockets[host := r.sockets[host].(authed := false)]);
    if OpenViewer(r1).Some? {
      var r2 := Send(r1, OpenViewer(r1).value, HostLeft);
      assert Onward(r, r2) && NobodyLeft(r, r2);
      CloseIsOnward(r2, OpenViewer(r1).value, CLOSE_HOST_LEFT);
      OnwardTwice(r, r2, HostGone(r, host));
    }
  }

  lemma MessageIsOnward(r: Room, ws: nat, msg: Incoming)
    requires ws < |r.sockets|
    ensures Onward(r, Message(r, ws, msg)) && NobodyLeft(r, Message(r, ws, msg))
  {
    var r1 := r.(log := r.log + [Got(ws, msg)]);
    assert Onward(r, r1) && NobodyLeft(r, r1);
    if msg.Parsed? && r.sockets[ws].Host? {
      HostMessageIsOnward(r1, ws, msg);
      OnwardTwice(r, r1, HostMessage(r1, ws, msg));
    } else {
      CloseIsOnward(r1, ws, CLOSE_TOO_BIG);
      CloseIsOnward(r1, ws, CLOSE_PROTOCOL);
      OnwardTwice(r, r1, Message(r, ws, msg));
    }
  }

  lemma HostMessageIsOnward(r: Room, ws: nat, msg: Incoming)
    requires ws < |r.sockets| && r.sockets[ws].Host? && msg.Parsed?
    ensures Onward(r, HostMessage(r, ws, msg)) && NobodyLeft(r, HostMessage(r, ws, msg))
  {
    CloseIsOnward(r, ws, CLOSE_AUTH);
    CloseIsOnward(r, ws, CLOSE_PROTOCOL);
    if OpenViewer(r).Some? { CloseIsOnward(r, OpenViewer(r).value, CLOSE_KICKED); }
  }

  lemma ResumeIsOnward(r: Room, c: Suspended)
    requires c.ws < |r.sockets| && r.sockets[c.ws].Host?
    ensures Onward(r, Resume(r, c)) && NobodyLeft(r, Resume(r, c))
  {
    CloseIsOnward(r, c.ws, CLOSE_AUTH);
    if VerifiesHex(c.key, c.sig, AuthMessage(c.nonce, c.id)) && (r.owner.None? || r.owner.value == c.key) {
      var r1 := Bind(r, c.key);
      MakeWayIsOnward(r1, c.ws);
      var r2 := MakeWay(r1, c.ws);
      assert SocketOnward(r1.sockets[c.ws], r2.sockets[c.ws]);
      ResumeIs(r, c);
      assert Onward(r2, Resume(r, c)) && NobodyLeft(r2, Resume(r, c));
      OnwardTwice(r1, r2, Resume(r, c));
    }
  }

  lemma MakeWayIsOnward(r: Room, ws: nat)
    requires ws < |r.sockets|
    ensures |MakeWay(r, ws).sockets| == |r.sockets| && Onward(r, MakeWay(r, ws)) && NobodyLeft(r, MakeWay(r, ws))
  {
    if AuthedHost(r).Some? && AuthedHost(r).value != ws {
      var previous := AuthedHost(r).value;
      HostGoneIsOnward(r, previous);
      CloseIsOnward(HostGone(r, previous), previous, CLOSE_REPLACED);
      OnwardTwice(r, HostGone(r, previous), MakeWay(r, ws));
    }
  }

  lemma CheckIsOnward(r: Room, k: nat)
    ensures Onward(r, Step(r, CheckFinishes(k))) && NobodyLeft(r, Step(r, CheckFinishes(k)))
  {
    if k < |r.suspended| && r.suspended[k].ws < |r.sockets| && r.sockets[r.suspended[k].ws].Host? {
      ResumeIsOnward(r.(suspended := r.suspended[..k] + r.suspended[k + 1..]), r.suspended[k]);
    }
  }

  lemma HandlerIsOnward(r: Room, ws: nat)
    ensures Onward(r, Step(r, CloseHandlerRuns(ws))) && NobodyLeft(r, Step(r, CloseHandlerRuns(ws)))
  {
    if ws < |r.sockets| && !r.sockets[ws].open && !r.sockets[ws].gone {
      var r1 := MarkGone(r, ws);
      assert Onward(r, r1) && NobodyLeft(r, r1);
      if r.sockets[ws].Host? { HostGoneIsOnward(r1, ws); }
      OnwardTwice(r, r1, OnGone(r1, ws));
    }
  }

  lemma ConnectsIsOnward(r: Room, e: Event)
    requires e.HostConnects? || e.ViewerConnects?
    ensures Onward(r, Step(r, e)) && NobodyLeft(r, Step(r, e))
  {
  }

  lemma StepIsOnward(r: Room, e: Event)
    ensures Onward(r, Step(r, e)) && (e.LeavesOpen? || NobodyLeft(r, Step(r, e)))
  {
    match e {
      case HostConnects(_, _, _, _) => ConnectsIsOnward(r, e);
      case ViewerConnects => ConnectsIsOnward(r, e);
      case Arrives(ws, msg) => if ws < |r.sockets| { MessageIsOnward(r, ws, msg); }
      case CheckFinishes(k) => CheckIsOnward(r, k);
      case CloseHandlerRuns(ws) => HandlerIsOnward(r, ws);
      case LeavesOpen(_) =>
    }
  }

  /** In every continuation of a run. */
  lemma {:induction false} RunIsOnward(before: seq<Event>, after: seq<Event>)
    ensures Onward(Run(EMPTY, before), Run(EMPTY, before + after))
    decreases |after|
  {
    if after == [] {
      assert before + after == before;
    } else {
      var front := after[..|after| - 1];
      RunIsOnward(before, front);
      assert before + after == (before + front) + [after[|after| - 1]];
      assert ((before + front) + [after[|after| - 1]])[..|before + front|] == before + front;
      StepIsOnward(Run(EMPTY, before + front), after[|after| - 1]);
      OnwardTwice(Run(EMPTY, before), Run(EMPTY, before + front), Run(EMPTY, before + after));
    }
  }
}
