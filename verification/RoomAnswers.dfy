/**
 What the room owes to each event of a run: the whole room that comes out of it, told in terms of who is there
 (an open viewer, an open registered host), not of how the handlers find them.
 */
module RoomAnswers {
  import opened Wrappers
  import opened Bytes
  import opened Signatures
  import opened HostRoom
  import opened RoomRuns

  ghost predicate HasHost(r: Room, h: nat) { h < |r.sockets| && IsAuthedHost(r.sockets[h]) }

  ghost predicate HasViewer(r: Room, v: nat) { v < |r.sockets| && IsOpenViewer(r.sockets[v]) }

  ghost predicate NoHost(r: Room) { forall h: nat :: !HasHost(r, h) }

  ghost predicate NoViewer(r: Room) { forall v: nat :: !HasViewer(r, v) }

  /** A socket after the room has closed it. */
  function Ended(s: Socket): Socket {
    match s
    case Viewer(_, gone, _) => Viewer(false, gone, true)
    case Host(_, gone, authed, nonce, key, id) => Host(false, gone, authed, nonce, key, id)
  }

  function Logged(r: Room, more: seq<Action>): Room { r.(log := r.log + more) }

  /** In a reachable room the finders find whoever is there. */
  lemma Found(events: seq<Event>)
    ensures
      var r := Run(EMPTY, events);
      && SocketsOk(r) && Attended(r.sockets)
      && (forall h: nat :: HasHost(r, h) ==> AuthedHost(r) == Some(h))
      && (forall v: nat :: HasViewer(r, v) ==> OpenViewer(r) == Some(v))
      && (NoHost(r) <==> AuthedHost(r).None?) && (NoViewer(r) <==> OpenViewer(r).None?)
  {
    RunKeepsSockets(events);
    FoundIn(Run(EMPTY, events));
  }

  lemma FoundIn(r: Room)
    requires SocketsOk(r)
    ensures forall h: nat :: HasHost(r, h) ==> AuthedHost(r) == Some(h)
    ensures forall v: nat :: HasViewer(r, v) ==> OpenViewer(r) == Some(v)
    ensures (NoHost(r) <==> AuthedHost(r).None?) && (NoViewer(r) <==> OpenViewer(r).None?)
  {
    if AuthedHost(r).Some? { assert HasHost(r, AuthedHost(r).value); }
    if OpenViewer(r).Some? { assert HasViewer(r, OpenViewer(r).value); }
  }

  // Frames.

  /**
   A kick ends the viewer: it is closed with 4001 and marked as closed by the room, nobody else is touched, and the
   next viewer is let in. Whatever happens afterwards, the close handler of the kicked viewer tells nobody that a
   viewer left.
   */
  lemma KickEndsTheViewer(
    events: seq<Event>, h: nat, v: nat, sig: Option<Signature>, data: Option<string>, after: seq<Event>)
    requires HasHost(Run(EMPTY, events), h) && HasViewer(Run(EMPTY, events), v)
    ensures
      var (r, msg) := (Run(EMPTY, events), Parsed(KickKind, sig, data));
      var r' := Step(r, Arrives(h, msg));
      && r' == Logged(r, [Got(h, msg), Closed(v, 4001)]).(sockets := r.sockets[v := Ended(r.sockets[v])])
      && NoViewer(r') && AcceptViewer(r').1 == Upgraded(|r.sockets|)
    ensures
      var later := Run(EMPTY, events + [Arrives(h, Parsed(KickKind, sig, data))] + after);
      Step(later, CloseHandlerRuns(v)).log == later.log
  {
    var (r, e) := (Run(EMPTY, events), Arrives(h, Parsed(KickKind, sig, data)));
    Found(events);
    KickCloses(r, h, v, e.msg);
    assert (events + [e])[..|events|] == events;
    RunIsOnward(events + [e], after);
    MarkedStaysSilent(Step(r, e), Run(EMPTY, events + [e] + after), v);
  }

  lemma KickCloses(r: Room, h: nat, v: nat, msg: Incoming)
    requires SocketsOk(r) && HasHost(r, h) && HasViewer(r, v) && msg.Parsed? && msg.t.KickKind?
    ensures
      var r' := Step(r, Arrives(h, msg));
      && r' == Logged(r, [Got(h, msg), Closed(v, 4001)]).(sockets := r.sockets[v := Ended(r.sockets[v])])
      && NoViewer(r') && AcceptViewer(r').1 == Upgraded(|r.sockets|)
  {
    FoundIn(r);
    var r' := Step(r, Arrives(h, msg));
    assert r.log + [Got(h, msg)] + [Closed(v, 4001)] == r.log + [Got(h, msg), Closed(v, 4001)];
    assert forall w: nat :: HasViewer(r', w) ==> HasViewer(r, w) && w != v;
    assert IsAuthedHost(r'.sockets[h]);
  }

  /** Once the room has closed a viewer, that one's close handler has nothing to say. */
  lemma MarkedStaysSilent(r: Room, later: Room, v: nat)
    requires Onward(r, later) && v < |r.sockets| && r.sockets[v].Viewer? && r.sockets[v].closedByServer
    ensures Step(later, CloseHandlerRuns(v)).log == later.log
  {
    assert SocketOnward(r.sockets[v], later.sockets[v]);
  }

  /** A frame its sender may send. */
  predicate Welcome(s: Socket, msg: Incoming) {
    && msg.Parsed?
    && if s.Host? && !s.authed then msg.t.AuthKind? && msg.sig.Some?
       else (msg.t.RelayKind? && msg.data.Some?) || (s.Host? && msg.t.KickKind?)
  }

  /** What a socket is closed with for another one. */
  function CodeFor(s: Socket, msg: Incoming): nat {
    match msg
    case TooLarge => 4013
    case Unparsable => 4000
    case Parsed(_, _, _) => if s.Host? && !s.authed then 4003 else 4000
  }

  /** A socket survives its own frame if and only if the frame is one it may send; otherwise it alone is closed. */
  lemma OnlyOffendersAreClosed(events: seq<Event>, ws: nat, msg: Incoming)
    requires ws < |Run(EMPTY, events).sockets| && Run(EMPTY, events).sockets[ws].open
    ensures
      var r := Run(EMPTY, events);
      var (s, r') := (r.sockets[ws], Step(r, Arrives(ws, msg)));
      && (r'.sockets[ws].open <==> Welcome(s, msg))
      && (!Welcome(s, msg) ==>
            r' == Logged(r, [Got(ws, msg), Closed(ws, CodeFor(s, msg))]).(sockets := r.sockets[ws := Ended(s)]))
  {
    Found(events);
    var r := Run(EMPTY, events);
    var s := r.sockets[ws];
    assert Sound(r.owner, s);
    if s.Viewer? { assert HasViewer(r, ws); }
    assert r.log + [Got(ws, msg)] + [Closed(ws, CodeFor(s, msg))] == r.log + [Got(ws, msg), Closed(ws, CodeFor(s, msg))];
  }

  /** A welcome frame with nobody to hear it, and any frame of a viewer that is no longer open, changes nothing. */
  lemma NobodyToTell(events: seq<Event>, ws: nat, msg: Incoming)
    requires ws < |Run(EMPTY, events).sockets| && msg.Parsed?
    requires
      var r := Run(EMPTY, events);
      var s := r.sockets[ws];
      || (s.Viewer? && !s.open)
      || (s.Viewer? && s.open && Welcome(s, msg) && NoHost(r))
      || (s.Host? && s.authed && Welcome(s, msg) && NoViewer(r))
    ensures Step(Run(EMPTY, events), Arrives(ws, msg)) == Logged(Run(EMPTY, events), [Got(ws, msg)])
  {
    Found(events);
    var r := Run(EMPTY, events);
    if r.sockets[ws].Viewer? && r.sockets[ws].open { assert HasViewer(r, ws); }
  }

  /** A signature waits for its check, with what the room itself had sent to be signed. */
  lemma SignatureIsChecked(events: seq<Event>, ws: nat, sig: Signature, data: Option<string>)
    requires
      var r := Run(EMPTY, events);
      ws < |r.sockets| && r.sockets[ws].Host? && !r.sockets[ws].authed
    ensures
      var (r, msg) := (Run(EMPTY, events), Parsed(AuthKind, Some(sig), data));
      var s := r.sockets[ws];
      && FromHex(s.nonce).Some?
      && Step(r, Arrives(ws, msg))
         == Logged(r, [Got(ws, msg)])
              .(suspended := r.suspended + [Suspended(ws, s.key, FromHex(s.nonce).value, s.id, sig)])
  {
    Found(events);
    SoundSignatureIsChecked(Run(EMPTY, events), ws, sig, data);
  }

  lemma SoundSignatureIsChecked(r: Room, ws: nat, sig: Signature, data: Option<string>)
    requires SocketsOk(r) && ws < |r.sockets| && r.sockets[ws].Host? && !r.sockets[ws].authed
    ensures
      var (s, msg) := (r.sockets[ws], Parsed(AuthKind, Some(sig), data));
      && FromHex(s.nonce).Some?
      && Step(r, Arrives(ws, msg))
         == Logged(r, [Got(ws, msg)])
              .(suspended := r.suspended + [Suspended(ws, s.key, FromHex(s.nonce).value, s.id, sig)])
  {
    assert Sound(r.owner, r.sockets[ws]);
  }

  // Connecting.

  /**
   A host is let in if and only if the ID is its own or, when it claims one, unbound; then it is challenged and not
   yet registered. Otherwise it is told which of the three reasons there is, and the room is as it was.
   */
  lemma HostAdmittedExactly(r: Room, id: seq<byte>, key: string, claim: bool, nonce: seq<byte>)
    ensures
      var (r', reply) := AcceptHost(r, id, key, claim, nonce);
      && (reply.Upgraded? <==> r.owner == Some(key) || (r.owner == None && claim))
      && (reply.Upgraded? ==>
            && reply.ws == |r.sockets|
            && r' == Logged(r, [Sent(reply.ws, Challenge(ToHex(nonce), id))])
                       .(sockets := r.sockets + [Host(true, false, false, ToHex(nonce), key, id)]))
      && (reply.Refused? ==> r' == r)
      && (reply == Refused(404) <==> r.owner == None && !claim)
      && (reply == Refused(409) <==> r.owner != None && r.owner != Some(key) && claim)
      && (reply == Refused(403) <==> r.owner != None && r.owner != Some(key) && !claim)
  {
  }

  /** A refused viewer is told whether there is no host or another viewer, and the room is as it was. */
  lemma RefusedViewersAreTold(events: seq<Event>)
    ensures
      var (r', reply) := AcceptViewer(Run(EMPTY, events));
      && (reply == Refused(404) <==> NoHost(Run(EMPTY, events)))
      && (reply == Refused(409) <==> !NoHost(Run(EMPTY, events)) && !NoViewer(Run(EMPTY, events)))
      && (reply.Refused? ==> r' == Run(EMPTY, events) && (reply.status == 404 || reply.status == 409))
  {
    Found(events);
  }

  // The end of a check.

  predicate Valid(r: Room, c: Suspended) {
    VerifiesHex(c.key, c.sig, AuthMessage(c.nonce, c.id)) && (r.owner == None || r.owner == Some(c.key))
  }

  /** What is told when a registered host goes: its viewer, if there is one, that the host left. */
  ghost function HostLeaves(r: Room): seq<Action> {
    if NoViewer(r) then [] else
      var v: nat :| HasViewer(r, v);
      [Sent(v, HostLeft), Closed(v, 4002)]
  }

  lemma HostLeavesIs(r: Room)
    requires SocketsOk(r)
    ensures
      OpenViewer(r).Some? ==> HostLeaves(r) == [Sent(OpenViewer(r).value, HostLeft), Closed(OpenViewer(r).value, 4002)]
    ensures OpenViewer(r).None? ==> HostLeaves(r) == []
  {
    FoundIn(r);
  }

  /** A check that fails, or of a key that is not the owner's, closes its socket with 4003 and changes nothing else. */
  lemma BadCheckCloses(events: seq<Event>, k: nat)
    requires
      var r := Run(EMPTY, events);
      k < |r.suspended| && !Valid(r, r.suspended[k]) && r.suspended[k].ws < |r.sockets| && r.sockets[r.suspended[k].ws].open
    ensures
      var r := Run(EMPTY, events);
      var ws := r.suspended[k].ws;
      Step(r, CheckFinishes(k)) == Logged(r, [Closed(ws, 4003)])
                                     .(sockets := r.sockets[ws := Ended(r.sockets[ws])],
                                       suspended := r.suspended[..k] + r.suspended[k + 1..])
  {
    Found(events);
    assert Matches(Run(EMPTY, events).sockets, Run(EMPTY, events).suspended[k]);
  }

  /** A host that is replaced goes as if it had left, with 4010, before the new one is registered. */
  lemma GoodCheckTells(events: seq<Event>, k: nat)
    requires
      var r := Run(EMPTY, events);
      k < |r.suspended| && Valid(r, r.suspended[k]) && r.suspended[k].ws < |r.sockets| && r.sockets[r.suspended[k].ws].open
    ensures RegistersAndTells(Run(EMPTY, events), k)
  {
    Found(events);
    SoundCheckTells(Run(EMPTY, events), k);
  }

  /** What the end of a good check says, and to whom, and what becomes of a host that was registered before. */
  ghost predicate RegistersAndTells(r: Room, k: nat)
    requires k < |r.suspended|
  {
    var (c, r') := (r.suspended[k], Step(r, CheckFinishes(k)));
    && (NoHost(r) || HasHost(r, c.ws) ==> r'.log == r.log + [Sent(c.ws, Registered(c.id))])
    && (forall h: nat :: HasHost(r, h) && h != c.ws ==>
          && r'.log == r.log + HostLeaves(r) + [Closed(h, 4010), Sent(c.ws, Registered(c.id))]
          && h < |r'.sockets| && !r'.sockets[h].open && r'.sockets[h].Host? && !r'.sockets[h].authed)
  }

  lemma SoundCheckTells(r: Room, k: nat)
    requires SocketsOk(r)
    requires k < |r.suspended| && Valid(r, r.suspended[k])
    requires r.suspended[k].ws < |r.sockets| && r.sockets[r.suspended[k].ws].open
    ensures RegistersAndTells(r, k)
  {
    var c := r.suspended[k];
    assert Matches(r.sockets, c);
    FoundIn(r);
    var r0 := r.(suspended := r.suspended[..k] + r.suspended[k + 1..]);
    assert HostLeaves(r0) == HostLeaves(r) by {
      HostLeavesIs(r);
      HostLeavesIs(r0);
    }
    if h: nat :| HasHost(r, h) && h != c.ws {
      ReplacementTells(r0, c, h);
    } else {
      RegistrationTells(r0, c);
    }
  }

  lemma RegistrationTells(r: Room, c: Suspended)
    requires SocketsOk(r) && Matches(r.sockets, c) && Valid(r, c) && r.sockets[c.ws].open
    requires forall h: nat :: HasHost(r, h) ==> h == c.ws
    ensures Resume(r, c).log == r.log + [Sent(c.ws, Registered(c.id))]
  {
    FoundIn(r);
    if AuthedHost(r).Some? { assert HasHost(r, AuthedHost(r).value); }
  }

  lemma ReplacementTells(r: Room, c: Suspended, h: nat)
    requires SocketsOk(r) && Matches(r.sockets, c) && Valid(r, c) && r.sockets[c.ws].open
    requires HasHost(r, h) && h != c.ws
    ensures
      var r' := Resume(r, c);
      && r'.log == r.log + HostLeaves(r) + [Closed(h, 4010), Sent(c.ws, Registered(c.id))]
      && h < |r'.sockets| && !r'.sockets[h].open && r'.sockets[h].Host? && !r'.sockets[h].authed
  {
    FoundIn(r);
    HostLeavesIs(r);
    var r1 := r.(owner := Some(c.key));
    assert AuthedHost(r1) == Some(h) && OpenViewer(r1) == OpenViewer(r);
    HostGoneTells(r1, h);
    var r2 := HostGone(r1, h);
    var r3 := CloseFromServer(r2, h, CLOSE_REPLACED);
    assert r3.log == r.log + HostLeaves(r) + [Closed(h, 4010)];
    assert r3.log + [Sent(c.ws, Registered(c.id))]
        == r.log + HostLeaves(r) + [Closed(h, 4010), Sent(c.ws, Registered(c.id))];
  }

  lemma HostGoneTells(r: Room, h: nat)
    requires h < |r.sockets| && r.sockets[h].Host?
    requires OpenViewer(r).Some? ==> r.sockets[OpenViewer(r).value].Viewer?
    ensures
      var r' := HostGone(r, h);
      var off := r.sockets[h := r.sockets[h].(authed := false)];
      match OpenViewer(r)
      case None => r' == r.(sockets := off)
      case Some(v) =>
        r' == Logged(r, [Sent(v, HostLeft), Closed(v, 4002)]).(sockets := off[v := Ended(r.sockets[v])])
  {
    var r1 := r.(sockets := r.sockets[h := r.sockets[h].(authed := false)]);
    FindAgain(r.sockets, r1.sockets, 0);
    if OpenViewer(r).Some? {
      var v := OpenViewer(r).value;
      assert r.log + [Sent(v, HostLeft)] + [Closed(v, 4002)] == r.log + [Sent(v, HostLeft), Closed(v, 4002)];
    }
  }

  lemma {:induction false} FindAgain(a: seq<Socket>, b: seq<Socket>, from: nat)
    requires |a| == |b| && from <= |a|
    requires forall i :: 0 <= i < |a| ==> (IsOpenViewer(a[i]) <==> IsOpenViewer(b[i]))
    ensures Find(a, IsOpenViewer, from) == Find(b, IsOpenViewer, from)
    decreases |a| - from
  {
    if from < |a| { FindAgain(a, b, from + 1); }
  }

  // Sockets that went.

  /** When a host that was registered has gone, its viewer is told and closed; another host's going tells nobody. */
  lemma GoneHostsTell(events: seq<Event>, ws: nat)
    requires
      var r := Run(EMPTY, events);
      ws < |r.sockets| && r.sockets[ws].Host? && !r.sockets[ws].open && !r.sockets[ws].gone
    ensures
      var (r, r') := (Run(EMPTY, events), Step(Run(EMPTY, events), CloseHandlerRuns(ws)));
      && r'.log == r.log + (if r.sockets[ws].authed then HostLeaves(r) else [])
      && (r.sockets[ws].authed ==> NoViewer(r'))
      && r'.sockets[ws] == r.sockets[ws].(gone := true, authed := false)
  {
    Found(events);
    HandlerTells(Run(EMPTY, events), ws);
  }

  lemma HandlerTells(r: Room, ws: nat)
    requires SocketsOk(r) && ws < |r.sockets| && r.sockets[ws].Host? && !r.sockets[ws].open && !r.sockets[ws].gone
    ensures
      var r' := Step(r, CloseHandlerRuns(ws));
      && r'.log == r.log + (if r.sockets[ws].authed then HostLeaves(r) else [])
      && (r.sockets[ws].authed ==> NoViewer(r'))
      && r'.sockets[ws] == r.sockets[ws].(gone := true, authed := false)
  {
    FoundIn(r);
    HostLeavesIs(r);
    var r1 := MarkGone(r, ws);
    FindAgain(r.sockets, r1.sockets, 0);
    if r.sockets[ws].authed {
      HostGoneTells(r1, ws);
      var r' := HostGone(r1, ws);
      assert forall w: nat :: HasViewer(r', w) ==> HasViewer(r, w);
    }
  }

  /** When a viewer has gone, the registered host is told, unless there is none or the room itself closed the viewer. */
  lemma GoneViewersAreReported(events: seq<Event>, ws: nat)
    requires
      var r := Run(EMPTY, events);
      ws < |r.sockets| && r.sockets[ws].Viewer? && !r.sockets[ws].open && !r.sockets[ws].gone
    ensures
      var (r, r') := (Run(EMPTY, events), Step(Run(EMPTY, events), CloseHandlerRuns(ws)));
      && r'.sockets == r.sockets[ws := Viewer(false, true, r.sockets[ws].closedByServer)]
      && (r.sockets[ws].closedByServer || NoHost(r) ==> r'.log == r.log)
      && (forall h: nat :: !r.sockets[ws].closedByServer && HasHost(r, h) ==> r'.log == r.log + [Sent(h, ViewerLeft)])
  {
    Found(events);
    SoundReport(Run(EMPTY, events), ws);
  }

  lemma SoundReport(r: Room, ws: nat)
    requires SocketsOk(r) && ws < |r.sockets| && r.sockets[ws].Viewer? && !r.sockets[ws].open && !r.sockets[ws].gone
    ensures
      var r' := Step(r, CloseHandlerRuns(ws));
      && r'.sockets == r.sockets[ws := Viewer(false, true, r.sockets[ws].closedByServer)]
      && (r.sockets[ws].closedByServer || NoHost(r) ==> r'.log == r.log)
      && (forall h: nat :: !r.sockets[ws].closedByServer && HasHost(r, h) ==> r'.log == r.log + [Sent(h, ViewerLeft)])
  {
    FoundIn(r);
    FindHostAgain(r.sockets, MarkGone(r, ws).sockets, 0);
  }

  lemma {:induction false} FindHostAgain(a: seq<Socket>, b: seq<Socket>, from: nat)
    requires |a| == |b| && from <= |a|
    requires forall i :: 0 <= i < |a| ==> (IsAuthedHost(a[i]) <==> IsAuthedHost(b[i]))
    ensures Find(a, IsAuthedHost, from) == Find(b, IsAuthedHost, from)
    decreases |a| - from
  {
    if from < |a| { FindHostAgain(a, b, from + 1); }
  }
}
