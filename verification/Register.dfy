/** How a host registers with the signaling server: it signs the server's challenge and is given its ID. */
module Register {
  import opened Wrappers
  import opened Bytes
  import opened Signatures
  import opened Utf8
  import opened Protocol
  import R = HostRoom
  import RoomRuns

  datatype ServerMsg = ChallengeMsg(nonce: string, id: string) | RegisteredMsg(id: string) | AnotherMsg

  datatype RegisterError = LinkFailed | ProtocolError(what: string)

  /** The link to the server: whether it connects, and what it will then deliver. */
  class ServerLink {
    const connects: bool
    var inbox: seq<LinkRecv<ServerMsg>>
    var sent: seq<Signature>
    /** For each signature that was to be sent whether it was. */
    ghost var tries: seq<bool>

    constructor (connects: bool, inbox: seq<LinkRecv<ServerMsg>>)
      ensures this.connects == connects && this.inbox == inbox && sent == [] && tries == []
    {
      this.connects, this.inbox, sent, tries := connects, inbox, [], [];
    }

    method Recv() returns (r: LinkRecv<ServerMsg>)
      modifies this`inbox
      ensures r == Delivery(old(inbox), 0) && inbox == Rest(old(inbox), 1)
    {
      if inbox == [] { return Broken(true); }
      r := inbox[0];
      inbox := inbox[1..];
    }

    method Auth(sig: Signature) returns (ok: bool)
      modifies this`sent, this`tries
      ensures sent == (if ok then old(sent) + [sig] else old(sent)) && tries == old(tries) + [ok]
    {
      ok := *;
      if ok { sent := sent + [sig]; }
      tries := tries + [ok];
    }
  }

  /** The `i`-th thing a link with this inbox delivers: after the last message it is closed. */
  function Delivery(inbox: seq<LinkRecv<ServerMsg>>, i: nat): LinkRecv<ServerMsg> {
    if i < |inbox| then inbox[i] else Broken(true)
  }

  /** What it has still to deliver after `n` deliveries. */
  function Rest(inbox: seq<LinkRecv<ServerMsg>>, n: nat): seq<LinkRecv<ServerMsg>> {
    if n <= |inbox| then inbox[n..] else []
  }

  /** Nine digits. */
  predicate IsHostId(id: string) { |id| == 9 && forall i :: 0 <= i < |id| ==> '0' <= id[i] <= '9' }

  /** A challenge worth signing: 32 bytes of nonce, and the ID that was asked for, if one was. */
  predicate GoodChallenge(id: Option<string>, first: LinkRecv<ServerMsg>) {
    && first.Got? && first.msg.ChallengeMsg?
    && FromHex(first.msg.nonce).Some? && |FromHex(first.msg.nonce).value| == 32
    && IsHostId(first.msg.id) && (id.Some? ==> id.value == first.msg.id)
  }

  function Answer(public: seq<byte>, first: LinkRecv<ServerMsg>): Signature
    requires first.Got? && first.msg.ChallengeMsg? && FromHex(first.msg.nonce).Some?
  {
    SignedBy(public, R.AuthMessage(FromHex(first.msg.nonce).value, Encode(first.msg.id)))
  }

  /** What is wrong with the first message, in the order in which it is looked at. */
  function ChallengeComplaint(id: Option<string>, first: LinkRecv<ServerMsg>): RegisterError {
    match first
    case Got(ChallengeMsg(nonce, cid)) =>
      ProtocolError(if FromHex(nonce).None? || |FromHex(nonce).value| != 32 then "bad challenge nonce"
                    else if !IsHostId(cid) then "bad challenge id"
                    else "challenge for another id")
    case Got(_) => ProtocolError("expected challenge")
    case Quiet => ProtocolError("no challenge")
    case Broken(_) => LinkFailed
  }

  function RegisteredComplaint(second: LinkRecv<ServerMsg>): RegisterError {
    match second
    case Got(RegisteredMsg(_)) => ProtocolError("registered another id")
    case Got(_) => ProtocolError("expected registered")
    case Quiet => ProtocolError("no registered")
    case Broken(_) => LinkFailed
  }

  /**
   Registers with a new ID, or again with `id`. Nothing is signed but a good challenge, once; the ID returned
   is the one in the bytes that were signed.
   */
  method RegisterHost(link: ServerLink, public: seq<byte>, id: Option<string>) returns (r: Result<string, RegisterError>)
    modifies link
    ensures
      var (first, second) := (Delivery(old(link.inbox), 0), Delivery(old(link.inbox), 1));
      if id.Some? && !IsHostId(id.value) then
        r == Err(ProtocolError("bad host id")) && link.tries == old(link.tries) && link.inbox == old(link.inbox)
      else if !link.connects then
        r == Err(LinkFailed) && link.tries == old(link.tries) && link.inbox == old(link.inbox)
      else if !GoodChallenge(id, first) then
        && r == Err(ChallengeComplaint(id, first)) && link.tries == old(link.tries)
        && link.inbox == Rest(old(link.inbox), 1)
      else if link.sent == old(link.sent) then
        r == Err(LinkFailed) && link.tries == old(link.tries) + [false] && link.inbox == Rest(old(link.inbox), 1)
      else
        && link.sent == old(link.sent) + [Answer(public, first)]
        && link.tries == old(link.tries) + [true] && link.inbox == Rest(old(link.inbox), 2)
        && r == if second == Got(RegisteredMsg(first.msg.id)) then Ok(first.msg.id)
                else Err(RegisteredComplaint(second))
    ensures link.sent != old(link.sent) ==> link.connects && GoodChallenge(id, Delivery(old(link.inbox), 0))
  {
    if id.Some? && !IsHostId(id.value) { return Err(ProtocolError("bad host id")); }
    if !link.connects { return Err(LinkFailed); }
    var first := link.Recv();
    var nonceHex, challengeId;
    match first {
      case Got(ChallengeMsg(n, i)) => nonceHex, challengeId := n, i;
      case Got(_) => return Err(ProtocolError("expected challenge"));
      case Quiet => return Err(ProtocolError("no challenge"));
      case Broken(_) => return Err(LinkFailed);
    }
    var nonce := FromHex(nonceHex);
    if nonce.None? || |nonce.value| != 32 { return Err(ProtocolError("bad challenge nonce")); }
    if !IsHostId(challengeId) { return Err(ProtocolError("bad challenge id")); }
    if id.Some? && id.value != challengeId { return Err(ProtocolError("challenge for another id")); }

    var signed := R.AUTH_PREFIX;
    signed := signed + nonce.value;
    signed := signed + Encode(challengeId);
    var ok := link.Auth(SignedBy(public, signed));
    if !ok { return Err(LinkFailed); }

    var second := link.Recv();
    match second {
      case Got(RegisteredMsg(i)) => r := if i == challengeId then Ok(i) else Err(ProtocolError("registered another id"));
      case Got(_) => r := Err(ProtocolError("expected registered"));
      case Quiet => r := Err(ProtocolError("no registered"));
      case Broken(_) => r := Err(LinkFailed);
    }
  }

  /** The host's answer to the room's challenge, as the room receives it. */
  function AuthFrame(public: seq<byte>, nonce: seq<byte>, id: string): R.Incoming {
    R.Parsed(R.AuthKind, Some(SignedBy(public, R.AuthMessage(nonce, Encode(id)))), None)
  }

  /** The continuation that waits for its check. */
  function Pending(ws: nat, public: seq<byte>, nonce: seq<byte>, id: string): R.Suspended {
    R.Suspended(ws, ToHex(public), nonce, Encode(id), SignedBy(public, R.AuthMessage(nonce, Encode(id))))
  }

  /**
   The host's signed bytes are the room's. Whatever has happened at a room that lets a host in, whatever
   happens between the challenge and the host's answer and between the answer and the end of its check: if the
   socket is open and not yet registered when the answer arrives, the answer waits for its check with the very
   bytes that were signed; and if the socket is still open when the check ends, and the ID unbound or bound to
   the host's own key, then the host is registered under the ID it signed.
   */
  lemma RegistrationSucceeds(
    events: seq<R.Event>, between: seq<R.Event>, after: seq<R.Event>,
    id: string, public: seq<byte>, claim: bool, nonce: seq<byte>, k: nat)
    requires IsHostId(id) && |public| == 32 && |nonce| == 32
    requires R.AcceptHost(R.Run(R.EMPTY, events), Encode(id), ToHex(public), claim, nonce).1.Upgraded?
    requires
      var ws := |R.Run(R.EMPTY, events).sockets|;
      var r2 := R.Run(R.EMPTY, events + [R.HostConnects(Encode(id), ToHex(public), claim, nonce)] + between);
      ws < |r2.sockets| && r2.sockets[ws].open && (r2.sockets[ws].Host? ==> !r2.sockets[ws].authed)
    requires
      var ws := |R.Run(R.EMPTY, events).sockets|;
      var r4 := R.Run(R.EMPTY, events + [R.HostConnects(Encode(id), ToHex(public), claim, nonce)] + between
                               + [R.Arrives(ws, AuthFrame(public, nonce, id))] + after);
      && k < |r4.suspended| && r4.suspended[k] == Pending(ws, public, nonce, id)
      && ws < |r4.sockets| && r4.sockets[ws].open && (r4.owner.None? || r4.owner.value == ToHex(public))
    ensures
      var r := R.Run(R.EMPTY, events);
      var ws := |r.sockets|;
      var e1 := R.HostConnects(Encode(id), ToHex(public), claim, nonce);
      var (r1, r2) := (R.Run(R.EMPTY, events + [e1]), R.Run(R.EMPTY, events + [e1] + between));
      var first := Got(ChallengeMsg(ToHex(nonce), id));
      var answer := R.Arrives(ws, AuthFrame(public, nonce, id));
      && r1.log == r.log + [R.Sent(ws, R.Challenge(ToHex(nonce), Encode(id)))]
      && GoodChallenge(Some(id), first) && Some(Answer(public, first)) == AuthFrame(public, nonce, id).sig
      && R.Step(r2, answer).suspended == r2.suspended + [Pending(ws, public, nonce, id)]
    ensures
      var ws := |R.Run(R.EMPTY, events).sockets|;
      var r4 := R.Run(R.EMPTY, events + [R.HostConnects(Encode(id), ToHex(public), claim, nonce)] + between
                               + [R.Arrives(ws, AuthFrame(public, nonce, id))] + after);
      var r5 := R.Step(r4, R.CheckFinishes(k));
      && r5.owner == Some(ToHex(public)) && R.AuthedHost(r5) == Some(ws)
      && r5.log != [] && r5.log[|r5.log| - 1] == R.Sent(ws, R.Registered(Encode(id)))
  {
    HexRoundTrip(nonce);
    HexRoundTrip(public);
    var ws := |R.Run(R.EMPTY, events).sockets|;
    var before := events + [R.HostConnects(Encode(id), ToHex(public), claim, nonce)];
    HostIsChallenged(events, id, public, claim, nonce);
    RoomRuns.RunIsOnward(before, between);
    AnswerWaits(R.Run(R.EMPTY, before), R.Run(R.EMPTY, before + between), ws, public, nonce, id);
    RoomRuns.HonestHostIsRegistered(before + between + [R.Arrives(ws, AuthFrame(public, nonce, id))] + after, k);
  }

  lemma HostIsChallenged(events: seq<R.Event>, id: string, public: seq<byte>, claim: bool, nonce: seq<byte>)
    requires R.AcceptHost(R.Run(R.EMPTY, events), Encode(id), ToHex(public), claim, nonce).1.Upgraded?
    ensures
      var r := R.Run(R.EMPTY, events);
      var r1 := R.Run(R.EMPTY, events + [R.HostConnects(Encode(id), ToHex(public), claim, nonce)]);
      && r1.sockets == r.sockets + [R.Host(true, false, false, ToHex(nonce), ToHex(public), Encode(id))]
      && r1.log == r.log + [R.Sent(|r.sockets|, R.Challenge(ToHex(nonce), Encode(id)))]
  {
    var e := R.HostConnects(Encode(id), ToHex(public), claim, nonce);
    assert (events + [e])[..|events|] == events;
  }

  lemma AnswerWaits(r1: R.Room, r2: R.Room, ws: nat, public: seq<byte>, nonce: seq<byte>, id: string)
    requires RoomRuns.Onward(r1, r2) && ws < |r1.sockets|
    requires r1.sockets[ws] == R.Host(true, false, false, ToHex(nonce), ToHex(public), Encode(id))
    requires r2.sockets[ws].open && (r2.sockets[ws].Host? ==> !r2.sockets[ws].authed)
    ensures R.Step(r2, R.Arrives(ws, AuthFrame(public, nonce, id))).suspended
         == r2.suspended + [Pending(ws, public, nonce, id)]
  {
    HexRoundTrip(nonce);
    assert RoomRuns.SocketOnward(r1.sockets[ws], r2.sockets[ws]);
  }
}
