/**
 `viewer_left` does not say which viewer left. When the close handler of a viewer that left by itself runs
 late, the next viewer may be there already. This module says when that happens, over all runs of the room,
 shows a run in which it does, and what the host then does to the viewer that is there.
 */
module StaleViewerLeft {
  import opened Wrappers
  import opened Bytes
  import opened Signatures
  import opened HostRoom
  import opened RoomRuns
  import P = Protocol
  import M = HostMachine

  // What the log shows of viewers.

  predicate Unreadable(a: Action, ws: nat) { a.Got? && a.ws == ws && !a.msg.Parsed? }

  /** `ws` sent something too large or unparsable: the room marks it as closed by itself, even late. */
  predicate SentUnreadable(log: seq<Action>, ws: nat) {
    log != [] && (Unreadable(log[|log| - 1], ws) || SentUnreadable(log[..|log| - 1], ws))
  }

  /** Viewer `v` was let in after `ws` had left OPEN by itself. */
  predicate AdmittedSince(log: seq<Action>, v: nat, ws: nat) {
    log != [] &&
    ((log[|log| - 1] == Sent(v, Joined) && LeftOpen(ws) in log[..|log| - 1]) || AdmittedSince(log[..|log| - 1], v, ws))
  }

  lemma OneMore(log: seq<Action>, a: Action)
    ensures forall ws :: SentUnreadable(log + [a], ws) <==> Unreadable(a, ws) || SentUnreadable(log, ws)
    ensures forall v, ws ::
              AdmittedSince(log + [a], v, ws) <==> (a == Sent(v, Joined) && LeftOpen(ws) in log) || AdmittedSince(log, v, ws)
  {
    assert (log + [a])[..|log|] == log;
  }

  /** `AdmittedSince` in terms of positions in the log. */
  lemma {:induction false} AdmittedSinceMeans(log: seq<Action>, v: nat, ws: nat)
    ensures AdmittedSince(log, v, ws) <==>
            exists i, j :: 0 <= i < j < |log| && log[i] == LeftOpen(ws) && log[j] == Sent(v, Joined)
    decreases |log|
  {
    if log != [] {
      var front := log[..|log| - 1];
      AdmittedSinceMeans(front, v, ws);
      if AdmittedSince(front, v, ws) {
        var i, j :| 0 <= i < j < |front| && front[i] == LeftOpen(ws) && front[j] == Sent(v, Joined);
        assert log[i] == LeftOpen(ws) && log[j] == Sent(v, Joined);
      } else if AdmittedSince(log, v, ws) {
        var i :| 0 <= i < |front| && front[i] == LeftOpen(ws);
        assert log[i] == LeftOpen(ws) && log[|log| - 1] == Sent(v, Joined);
      }
      if i, j :| 0 <= i < j < |log| && log[i] == LeftOpen(ws) && log[j] == Sent(v, Joined) {
        assert front[i] == LeftOpen(ws);
        if j < |front| { assert front[j] == Sent(v, Joined); }
      }
    }
  }

  predicate ViewerLogged(s: Socket, ws: nat, log: seq<Action>) {
    s.Viewer? ==>
      && (s.open ==> !s.closedByServer && !SentUnreadable(log, ws) && LeftOpen(ws) !in log)
      && (!s.open && !s.closedByServer ==> LeftOpen(ws) in log)
      && (LeftOpen(ws) in log ==> (s.closedByServer <==> SentUnreadable(log, ws)))
  }

  ghost predicate ViewersLogged(r: Room) {
    && (forall ws :: 0 <= ws < |r.sockets| ==> ViewerLogged(r.sockets[ws], ws, r.log))
    && (forall ws: nat :: ws >= |r.sockets| ==> !SentUnreadable(r.log, ws) && LeftOpen(ws) !in r.log)
    && (forall v: nat :: Sent(v, Joined) in r.log ==> v < |r.sockets| && r.sockets[v].Viewer?)
    && forall ws: nat, v: nat ::
         ws < |r.sockets| && v < |r.sockets| && r.sockets[ws].Viewer? && LeftOpen(ws) in r.log && IsOpenViewer(r.sockets[v])
         ==> AdmittedSince(r.log, v, ws)
  }

  predicate SameViewer(s: Socket, s': Socket) {
    s.Viewer? == s'.Viewer? && (s.Viewer? ==> s.open == s'.open && s.closedByServer == s'.closedByServer)
  }

  predicate SameViewers(a: seq<Socket>, b: seq<Socket>) {
    |a| == |b| && forall i :: 0 <= i < |a| ==> SameViewer(a[i], b[i])
  }

  /** Says nothing about viewers coming or going. */
  predicate Plain(a: Action) { !a.LeftOpen? && !Joins(a) && !(a.Got? && !a.msg.Parsed?) }

  lemma SilentKeeps(r: Room, r': Room)
    requires ViewersLogged(r) && SameViewers(r.sockets, r'.sockets) && r'.log == r.log
    ensures ViewersLogged(r')
  {
    forall ws | 0 <= ws < |r'.sockets| ensures ViewerLogged(r'.sockets[ws], ws, r'.log) {
      assert SameViewer(r.sockets[ws], r'.sockets[ws]) && ViewerLogged(r.sockets[ws], ws, r.log);
    }
    assert forall v :: 0 <= v < |r.sockets| ==> SameViewer(r.sockets[v], r'.sockets[v]);
  }

  lemma PlainKeeps(r: Room, a: Action)
    requires ViewersLogged(r) && Plain(a)
    ensures ViewersLogged(r.(log := r.log + [a]))
  {
    OneMore(r.log, a);
    forall ws | 0 <= ws < |r.sockets| ensures ViewerLogged(r.sockets[ws], ws, r.log + [a]) {
      assert ViewerLogged(r.sockets[ws], ws, r.log);
    }
  }

  lemma SendKeeps(r: Room, ws: nat, frame: Frame)
    requires ViewersLogged(r) && ws < |r.sockets| && !frame.Joined?
    ensures ViewersLogged(Send(r, ws, frame))
  {
    PlainKeeps(r, Sent(ws, frame));
  }

  lemma CloseKeeps(r: Room, ws: nat, code: nat)
    requires ViewersLogged(r) && ws < |r.sockets| && (r.sockets[ws].Viewer? ==> r.sockets[ws].open)
    ensures ViewersLogged(CloseFromServer(r, ws, code))
  {
    var r' := CloseFromServer(r, ws, code);
    OneMore(r.log, Closed(ws, code));
    forall i | 0 <= i < |r'.sockets| ensures ViewerLogged(r'.sockets[i], i, r'.log) {
      assert ViewerLogged(r.sockets[i], i, r.log);
    }
  }

  /** What the log shows after an unreadable frame and the close that may follow it. */
  lemma UnreadableAdds(r: Room, ws: nat, msg: Incoming, code: nat)
    requires ws < |r.sockets| && !msg.Parsed?
    ensures
      var log' := CloseFromServer(r.(log := r.log + [Got(ws, msg)]), ws, code).log;
      && (forall i :: SentUnreadable(log', i) <==> i == ws || SentUnreadable(r.log, i))
      && (forall i :: LeftOpen(i) in log' <==> LeftOpen(i) in r.log)
      && (forall v :: Sent(v, Joined) in log' <==> Sent(v, Joined) in r.log)
      && forall v, i :: AdmittedSince(log', v, i) <==> AdmittedSince(r.log, v, i)
  {
    OneMore(r.log, Got(ws, msg));
    OneMore(r.log + [Got(ws, msg)], Closed(ws, code));
  }

  /** An unreadable frame, however late it is delivered. */
  lemma UnreadableKeeps(r: Room, ws: nat, msg: Incoming, code: nat)
    requires ViewersLogged(r) && ws < |r.sockets| && !msg.Parsed?
    ensures ViewersLogged(CloseFromServer(r.(log := r.log + [Got(ws, msg)]), ws, code))
  {
    var r' := CloseFromServer(r.(log := r.log + [Got(ws, msg)]), ws, code);
    UnreadableAdds(r, ws, msg, code);
    forall i | 0 <= i < |r'.sockets| ensures ViewerLogged(r'.sockets[i], i, r'.log) {
      assert ViewerLogged(r.sockets[i], i, r.log);
    }
  }

  lemma EndHostKeeps(r: Room, host: nat)
    requires ViewersLogged(r) && host < |r.sockets| && r.sockets[host].Host?
    ensures ViewersLogged(HostGone(r, host))
  {
    var r1 := r.(sockets := r.sockets[host := r.sockets[host].(authed := false)]);
    SilentKeeps(r, r1);
    if OpenViewer(r1).Some? {
      SendKeeps(r1, OpenViewer(r1).value, HostLeft);
      CloseKeeps(Send(r1, OpenViewer(r1).value, HostLeft), OpenViewer(r1).value, CLOSE_HOST_LEFT);
    }
  }

  lemma ReplacingKeeps(r: Room, ws: nat)
    requires SocketsOk(r) && ViewersLogged(r) && ws < |r.sockets|
    ensures ViewersLogged(MakeWay(r, ws))
  {
    if AuthedHost(r).Some? && AuthedHost(r).value != ws {
      var previous := AuthedHost(r).value;
      HostGoneKeepsSockets(r, previous);
      EndHostKeeps(r, previous);
      CloseKeeps(HostGone(r, previous), previous, CLOSE_REPLACED);
    }
  }

  lemma RegisteringKeeps(r: Room, ws: nat, id: seq<byte>)
    requires SocketsOk(r) && Attended(r.sockets) && ViewersLogged(r) && ws < |r.sockets| && r.sockets[ws].Host?
    ensures |MakeWay(r, ws).sockets| == |r.sockets| && MakeWay(r, ws).sockets[ws].Host?
    ensures ViewersLogged(Send(Authorize(MakeWay(r, ws), ws), ws, Registered(id)))
  {
    MakeWayKeepsSockets(r, ws);
    ReplacingKeeps(r, ws);
    var r2 := MakeWay(r, ws);
    SilentKeeps(r2, Authorize(r2, ws));
    SendKeeps(Authorize(r2, ws), ws, Registered(id));
  }

  lemma ResumeKeeps(r: Room, c: Suspended)
    requires SocketsOk(r) && Attended(r.sockets) && Matches(r.sockets, c) && ViewersLogged(r)
    ensures ViewersLogged(Resume(r, c))
  {
    CloseKeeps(r, c.ws, CLOSE_AUTH);
    if VerifiesHex(c.key, c.sig, AuthMessage(c.nonce, c.id)) && (r.owner.None? || r.owner.value == c.key) {
      var r1 := Bind(r, c.key);
      SilentKeeps(r, r1);
      assert SocketsOk(r1);
      RegisteringKeeps(r1, c.ws, c.id);
      ResumeIs(r, c);
    }
  }

  lemma CheckKeeps(r: Room, k: nat)
    requires SocketsOk(r) && Attended(r.sockets) && ViewersLogged(r) && k < |r.suspended|
    ensures ViewersLogged(Step(r, CheckFinishes(k)))
  {
    var rest := r.(suspended := r.suspended[..k] + r.suspended[k + 1..]);
    SilentKeeps(r, rest);
    assert SocketsOk(rest) && Matches(r.sockets, r.suspended[k]);
    ResumeKeeps(rest, r.suspended[k]);
  }

  lemma ConnectKeeps(r: Room, e: Event)
    requires ViewersLogged(r) && (e.HostConnects? || e.ViewerConnects?)
    ensures ViewersLogged(Step(r, e))
  {
    match e {
      case HostConnects(id, key, claim, nonce) =>
        if AcceptHost(r, id, key, claim, nonce).1.Upgraded? {
          var s := Host(true, false, false, ToHex(nonce), key, id);
          var r1 := r.(sockets := r.sockets + [s]);
          assert ViewersLogged(r1);
          SendKeeps(r1, |r.sockets|, Challenge(ToHex(nonce), id));
        }
      case ViewerConnects =>
        if AcceptViewer(r).1.Upgraded? { AdmittingKeeps(r); }
    }
  }

  lemma AdmittingKeeps(r: Room)
    requires ViewersLogged(r) && AcceptViewer(r).1.Upgraded?
    ensures ViewersLogged(AcceptViewer(r).0)
  {
    var ws := |r.sockets|;
    var r1 := r.(sockets := r.sockets + [Viewer(true, false, false)], log := r.log + [Sent(ws, Joined)]);
    OneMore(r.log, Sent(ws, Joined));
    forall i | 0 <= i < |r1.sockets| ensures ViewerLogged(r1.sockets[i], i, r1.log) {
      if i < ws { assert ViewerLogged(r.sockets[i], i, r.log); }
    }
    assert forall v :: 0 <= v < ws ==> !IsOpenViewer(r.sockets[v]);
    forall i: nat, v: nat | i < |r1.sockets| && v < |r1.sockets| && r1.sockets[i].Viewer? && LeftOpen(i) in r1.log
                            && IsOpenViewer(r1.sockets[v])
      ensures AdmittedSince(r1.log, v, i)
    {
    }
    SendKeeps(r1, AuthedHost(r).value, ViewerJoined);
  }

  lemma ArrivalKeeps(r: Room, ws: nat, msg: Incoming)
    requires ViewersLogged(r) && ws < |r.sockets|
    ensures ViewersLogged(Message(r, ws, msg))
  {
    var r1 := r.(log := r.log + [Got(ws, msg)]);
    if !msg.Parsed? {
      UnreadableKeeps(r, ws, msg, if msg.TooLarge? then CLOSE_TOO_BIG else CLOSE_PROTOCOL);
    } else {
      PlainKeeps(r, Got(ws, msg));
      if r.sockets[ws].Host? {
        HostArrivalKeeps(r1, ws, msg);
      } else if OpenViewer(r1) == Some(ws) {
        CloseKeeps(r1, ws, CLOSE_PROTOCOL);
        if msg.data.Some? && AuthedHost(r1).Some? { SendKeeps(r1, AuthedHost(r1).value, Relay(msg.data.value)); }
      }
    }
  }

  lemma HostArrivalKeeps(r: Room, ws: nat, msg: Incoming)
    requires ViewersLogged(r) && ws < |r.sockets| && r.sockets[ws].Host? && msg.Parsed?
    ensures ViewersLogged(HostMessage(r, ws, msg))
  {
    CloseKeeps(r, ws, CLOSE_AUTH);
    CloseKeeps(r, ws, CLOSE_PROTOCOL);
    if OpenViewer(r).Some? {
      CloseKeeps(r, OpenViewer(r).value, CLOSE_KICKED);
      if msg.data.Some? { SendKeeps(r, OpenViewer(r).value, Relay(msg.data.value)); }
    }
    if msg.sig.Some? && FromHex(r.sockets[ws].nonce).Some? { SilentKeeps(r, Authenticate(r, ws, msg.sig.value)); }
  }

  lemma OnlyViewer(r: Room, ws: nat)
    requires SocketsOk(r) && ws < |r.sockets| && IsOpenViewer(r.sockets[ws])
    ensures forall v: nat :: v < |r.sockets| && v != ws ==> !IsOpenViewer(r.sockets[v])
  {
  }

  /** The only other viewer that could be open when one leaves would have to be a second one. */
  lemma LeavingKeeps(r: Room, ws: nat)
    requires SocketsOk(r) && ViewersLogged(r) && ws < |r.sockets| && r.sockets[ws].open
    ensures ViewersLogged(Step(r, LeavesOpen(ws)))
  {
    var r' := Step(r, LeavesOpen(ws));
    OneMore(r.log, LeftOpen(ws));
    forall i | 0 <= i < |r'.sockets| ensures ViewerLogged(r'.sockets[i], i, r'.log) {
      assert ViewerLogged(r.sockets[i], i, r.log);
    }
    if r.sockets[ws].Viewer? { OnlyViewer(r, ws); }
    forall i: nat, v: nat | i < |r'.sockets| && v < |r'.sockets| && r'.sockets[i].Viewer? && LeftOpen(i) in r'.log
                            && IsOpenViewer(r'.sockets[v])
      ensures AdmittedSince(r'.log, v, i)
    {
      assert AdmittedSince(r.log, v, i);
    }
  }

  lemma HandlerKeeps(r: Room, ws: nat)
    requires ViewersLogged(r) && ws < |r.sockets|
    ensures ViewersLogged(OnGone(MarkGone(r, ws), ws))
  {
    var r1 := MarkGone(r, ws);
    SilentKeeps(r, r1);
    if r.sockets[ws].Host? {
      EndHostKeeps(r1, ws);
    } else if AuthedHost(r1).Some? {
      SendKeeps(r1, AuthedHost(r1).value, ViewerLeft);
    }
  }

  lemma StepKeeps(r: Room, e: Event)
    requires SocketsOk(r) && Attended(r.sockets) && ViewersLogged(r)
    ensures ViewersLogged(Step(r, e))
  {
    match e {
      case HostConnects(_, _, _, _) => ConnectKeeps(r, e);
      case ViewerConnects => ConnectKeeps(r, e);
      case Arrives(ws, msg) => if ws < |r.sockets| { ArrivalKeeps(r, ws, msg); }
      case CheckFinishes(k) => if k < |r.suspended| { CheckKeeps(r, k); }
      case LeavesOpen(ws) => if ws < |r.sockets| && r.sockets[ws].open { LeavingKeeps(r, ws); }
      case CloseHandlerRuns(ws) =>
        if ws < |r.sockets| && !r.sockets[ws].open && !r.sockets[ws].gone { HandlerKeeps(r, ws); }
    }
  }

  lemma {:induction false} RunKeeps(events: seq<Event>)
    ensures ViewersLogged(Run(EMPTY, events))
  {
    if events != [] {
      var front := events[..|events| - 1];
      RunKeepsSockets(front);
      RunKeeps(front);
      StepKeeps(Run(EMPTY, front), events[|events| - 1]);
    }
  }

  // When it is stale.

  /** This event makes the room tell the host that a viewer left, while a viewer is open. */
  ghost predicate TellsStale(r: Room, e: Event) {
    var r' := Step(r, e);
    && e.CloseHandlerRuns? && OpenViewer(r').Some?
    && exists h :: r'.log == r.log + [Sent(h, ViewerLeft)]
  }

  /** The close handler of a viewer that left by itself, and was not marked since, is still to run. */
  predicate LeftUnnoticed(r: Room, ws: nat) {
    && ws < |r.sockets| && r.sockets[ws].Viewer? && !r.sockets[ws].gone
    && LeftOpen(ws) in r.log && !SentUnreadable(r.log, ws)
  }

  /**
   In every run: the close handler of `ws` makes the room say `viewer_left` while a viewer is open if and only
   if `ws` left by itself and was not marked as closed since, a registered host is open, and some viewer that
   was let in between the leaving of `ws` and its handler has not ended.
   */
  lemma ViewerLeftIsStaleExactly(events: seq<Event>, ws: nat)
    ensures
      var r := Run(EMPTY, events);
      TellsStale(r, CloseHandlerRuns(ws)) <==>
        && LeftUnnoticed(r, ws) && AuthedHost(r).Some?
        && exists v: nat :: AdmittedSince(r.log, v, ws) && !Ended(r.log, v)
  {
    RunKeepsSockets(events);
    RunKeepsLog(events);
    RunKeeps(events);
    StaleExactly(Run(EMPTY, events), ws);
  }

  lemma StaleExactly(r: Room, ws: nat)
    requires SocketsOk(r) && LogOk(r) && ViewersLogged(r)
    ensures
      TellsStale(r, CloseHandlerRuns(ws)) <==>
        && LeftUnnoticed(r, ws) && AuthedHost(r).Some?
        && exists v: nat :: AdmittedSince(r.log, v, ws) && !Ended(r.log, v)
  {
    if ws < |r.sockets| && r.sockets[ws].Viewer? && !r.sockets[ws].gone {
      assert ViewerLogged(r.sockets[ws], ws, r.log);
      HandlerOfViewer(r, ws);
      OpenMeansAdmitted(r, ws);
    }
    if TellsStale(r, CloseHandlerRuns(ws)) { OnlyViewersTell(r, ws); }
  }

  lemma OnlyViewersTell(r: Room, ws: nat)
    requires TellsStale(r, CloseHandlerRuns(ws))
    ensures ws < |r.sockets| && r.sockets[ws].Viewer? && !r.sockets[ws].open && !r.sockets[ws].gone
  {
    var r' := Step(r, CloseHandlerRuns(ws));
    var h :| r'.log == r.log + [Sent(h, ViewerLeft)];
    assert r'.log[|r.log|] == Sent(h, ViewerLeft);
  }

  /** What the handler of a viewer does, and that it opens and closes nothing. */
  lemma HandlerOfViewer(r: Room, ws: nat)
    requires ws < |r.sockets| && r.sockets[ws].Viewer? && !r.sockets[ws].gone
    ensures
      var r' := Step(r, CloseHandlerRuns(ws));
      && (OpenViewer(r').Some? <==> OpenViewer(r).Some?)
      && ((exists h :: r'.log == r.log + [Sent(h, ViewerLeft)]) <==>
            !r.sockets[ws].open && !r.sockets[ws].closedByServer && AuthedHost(r).Some?)
  {
    var r' := Step(r, CloseHandlerRuns(ws));
    if !r.sockets[ws].open {
      var r1 := MarkGone(r, ws);
      assert forall i :: 0 <= i < |r.sockets| && i != ws ==> r1.sockets[i] == r.sockets[i];
      if AuthedHost(r).Some? { assert IsAuthedHost(r1.sockets[AuthedHost(r).value]); }
      if AuthedHost(r1).Some? { assert IsAuthedHost(r.sockets[AuthedHost(r1).value]); }
      if OpenViewer(r).Some? { assert IsOpenViewer(r1.sockets[OpenViewer(r).value]); }
      if OpenViewer(r1).Some? { assert IsOpenViewer(r.sockets[OpenViewer(r1).value]); }
      assert r'.sockets == r1.sockets;
    }
    if h :| r'.log == r.log + [Sent(h, ViewerLeft)] { assert r'.log != r.log; }
  }

  /** After `ws` left by itself, a viewer is open exactly if one let in since then has not ended. */
  lemma OpenMeansAdmitted(r: Room, ws: nat)
    requires LogOk(r) && ViewersLogged(r) && ws < |r.sockets| && r.sockets[ws].Viewer?
    ensures LeftOpen(ws) in r.log ==>
              (OpenViewer(r).Some? <==> exists v: nat :: AdmittedSince(r.log, v, ws) && !Ended(r.log, v))
  {
    if LeftOpen(ws) in r.log {
      if OpenViewer(r).Some? {
        var v := OpenViewer(r).value;
        assert SocketLogged(r.sockets[v], v, Identities(r.sockets), r.log);
        assert AdmittedSince(r.log, v, ws) && !Ended(r.log, v);
      }
      if v: nat :| AdmittedSince(r.log, v, ws) && !Ended(r.log, v) {
        AdmittedSinceMeans(r.log, v, ws);
        assert Sent(v, Joined) in r.log;
        assert SocketLogged(r.sockets[v], v, Identities(r.sockets), r.log);
        assert IsOpenViewer(r.sockets[v]);
      }
    }
  }

  /** No viewer is let in while one that left by itself still waits for its close handler. */
  ghost predicate LetsNobodyInEarly(events: seq<Event>) {
    forall k :: 0 <= k < |events| && events[k].ViewerConnects? && AcceptViewer(Run(EMPTY, events[..k])).1.Upgraded? ==>
      forall ws :: !LeftUnnoticed(Run(EMPTY, events[..k]), ws)
  }

  /** Nobody is open while a viewer that left by itself waits for its close handler. */
  ghost predicate NobodyEarly(r: Room) {
    forall ws: nat, v: nat :: LeftUnnoticed(r, ws) && v < |r.sockets| ==> !IsOpenViewer(r.sockets[v])
  }

  lemma {:induction false} UnreadableStays(log: seq<Action>, more: seq<Action>, ws: nat)
    requires log <= more && SentUnreadable(log, ws)
    ensures SentUnreadable(more, ws)
    decreases |more|
  {
    if |log| < |more| { UnreadableStays(log, more[..|more| - 1], ws); } else { assert log == more; }
  }

  lemma UnnoticedBefore(r: Room, r': Room, ws: nat)
    requires Onward(r, r') && LeftUnnoticed(r', ws) && LeftOpen(ws) in r.log && ViewersLogged(r)
    ensures LeftUnnoticed(r, ws)
  {
    assert ws < |r.sockets|;
    assert SocketOnward(r.sockets[ws], r'.sockets[ws]);
    if SentUnreadable(r.log, ws) { UnreadableStays(r.log, r'.log, ws); }
  }

  lemma StepKeepsNobodyEarly(r: Room, e: Event)
    requires SocketsOk(r) && ViewersLogged(r) && NobodyEarly(r)
    requires e.ViewerConnects? && AcceptViewer(r).1.Upgraded? ==> forall ws :: !LeftUnnoticed(r, ws)
    ensures NobodyEarly(Step(r, e))
  {
    var r' := Step(r, e);
    StepIsOnward(r, e);
    forall ws: nat, v: nat | LeftUnnoticed(r', ws) && v < |r'.sockets| ensures !IsOpenViewer(r'.sockets[v]) {
      if LeftOpen(ws) in r.log {
        UnnoticedBefore(r, r', ws);
        if v < |r.sockets| {
          assert SocketOnward(r.sockets[v], r'.sockets[v]) && !IsOpenViewer(r.sockets[v]);
        } else if IsOpenViewer(r'.sockets[v]) {
          NewViewersAreAdmitted(r, e, v);
        }
      } else {
        assert e == LeavesOpen(ws) && r.sockets[ws].open && IsOpenViewer(r.sockets[ws]);
        assert v < |r.sockets| && (v != ws ==> !IsOpenViewer(r.sockets[v]));
      }
    }
  }

  lemma NewViewersAreAdmitted(r: Room, e: Event, v: nat)
    requires |r.sockets| <= v < |Step(r, e).sockets| && IsOpenViewer(Step(r, e).sockets[v])
    ensures e.ViewerConnects? && AcceptViewer(r).1.Upgraded?
  {
    if e.CheckFinishes? { ResumeKeepsNumber(r, e.k); }
  }

  lemma ResumeKeepsNumber(r: Room, k: nat)
    ensures |Step(r, CheckFinishes(k)).sockets| == |r.sockets|
  {
  }

  lemma {:induction false} RunKeepsNobodyEarly(events: seq<Event>, k: nat)
    requires LetsNobodyInEarly(events) && k <= |events|
    ensures NobodyEarly(Run(EMPTY, events[..k]))
    decreases k
  {
    if k > 0 {
      RunKeepsNobodyEarly(events, k - 1);
      var front := events[..k - 1];
      assert events[..k][..k - 1] == front && events[..k][k - 1] == events[k - 1];
      RunKeepsSockets(front);
      RunKeeps(front);
      StepKeepsNobodyEarly(Run(EMPTY, front), events[k - 1]);
    }
  }

  lemma NobodyIsOpen(r: Room, ws: nat)
    requires NobodyEarly(r) && LeftUnnoticed(r, ws)
    ensures OpenViewer(r).None?
  {
    assert forall v: nat :: v < |r.sockets| ==> !IsOpenViewer(r.sockets[v]);
  }

  /** A run that lets nobody in early never says `viewer_left` while a viewer is open. */
  lemma NeverStaleIfNobodyIsEarly(events: seq<Event>, k: nat)
    requires LetsNobodyInEarly(events) && k < |events|
    ensures !TellsStale(Run(EMPTY, events[..k]), events[k])
  {
    var r := Run(EMPTY, events[..k]);
    if TellsStale(r, events[k]) {
      var ws := events[k].ws;
      ViewerLeftIsStaleExactly(events[..k], ws);
      RunKeepsNobodyEarly(events, k);
      OnlyViewersTell(r, ws);
      HandlerOfViewer(r, ws);
      NobodyIsOpen(r, ws);
    }
  }

  // It happens, and it costs the next viewer its attempt.

  lemma Extend(events: seq<Event>, r: Room, e: Event) returns (events': seq<Event>, r': Room)
    requires r == Run(EMPTY, events)
    ensures events' == events + [e] && r' == Step(r, e) == Run(EMPTY, events')
  {
    events', r' := events + [e], Step(r, e);
    assert events'[..|events|] == events;
  }

  /** What a registered host hears about viewers. */
  function HeardBy(log: seq<Action>, ws: nat): seq<P.ServerToHost> {
    if log == [] then []
    else
      var (front, a) := (HeardBy(log[..|log| - 1], ws), log[|log| - 1]);
      if a == Sent(ws, ViewerJoined) then front + [P.ViewerJoined]
      else if a == Sent(ws, ViewerLeft) then front + [P.ViewerLeft]
      else front
  }

  lemma HearsNext(log: seq<Action>, a: Action, ws: nat)
    ensures HeardBy(log + [a], ws) ==
            HeardBy(log, ws) + (if a == Sent(ws, ViewerJoined) then [P.ViewerJoined]
                                else if a == Sent(ws, ViewerLeft) then [P.ViewerLeft] else [])
  {
    assert (log + [a])[..|log|] == log;
  }

  /** A host is let in under a fresh ID and answers its challenge. */
  lemma HostAnswers(id: seq<byte>, public: seq<byte>, nonce: seq<byte>) returns (events: seq<Event>, r: Room)
    requires |public| == 32
    ensures r == Run(EMPTY, events) && r.owner == None && HeardBy(r.log, 0) == []
    ensures r.sockets == [Host(true, false, false, ToHex(nonce), ToHex(public), id)]
    ensures r.suspended == [Suspended(0, ToHex(public), nonce, id, SignedBy(public, AuthMessage(nonce, id)))]
    ensures forall ws: nat :: LeftOpen(ws) !in r.log && !SentUnreadable(r.log, ws)
  {
    HexRoundTrip(nonce);
    var auth := Parsed(AuthKind, Some(SignedBy(public, AuthMessage(nonce, id))), None);
    var challenge := Sent(0, Challenge(ToHex(nonce), id));
    var events1, r1 := Extend([], EMPTY, HostConnects(id, ToHex(public), true, nonce));
    assert r1.sockets == [Host(true, false, false, ToHex(nonce), ToHex(public), id)];
    assert r1.log == [] + [challenge];
    events, r := Extend(events1, r1, Arrives(0, auth));
    assert r.log == r1.log + [Got(0, auth)];
    OneMore([], challenge);
    OneMore(r1.log, Got(0, auth));
    HearsNext([], challenge, 0);
    HearsNext(r1.log, Got(0, auth), 0);
  }

  /** The answer is right, and no host was there before. */
  lemma FirstIsRegistered(r: Room, c: Suspended)
    requires r.owner.None? && r.sockets == [Host(true, false, false, ToHex(c.nonce), c.key, c.id)] && c.ws == 0
    requires VerifiesHex(c.key, c.sig, AuthMessage(c.nonce, c.id))
    ensures Resume(r, c) == r.(owner := Some(c.key), sockets := [Host(true, false, true, ToHex(c.nonce), c.key, c.id)],
                               log := r.log + [Sent(0, Registered(c.id))])
  {
    var r1 := r.(owner := Some(c.key));
    assert !IsAuthedHost(r1.sockets[0]) && AuthedHost(r1).None?;
  }

  /** A host registers under a fresh ID. */
  lemma HostRegisters(id: seq<byte>, public: seq<byte>, nonce: seq<byte>) returns (events: seq<Event>, r: Room)
    requires |public| == 32
    ensures r == Run(EMPTY, events) && r.suspended == [] && HeardBy(r.log, 0) == []
    ensures r.sockets == [Host(true, false, true, ToHex(nonce), ToHex(public), id)]
    ensures forall ws: nat :: LeftOpen(ws) !in r.log && !SentUnreadable(r.log, ws)
  {
    HexRoundTrip(public);
    var events1, r1 := HostAnswers(id, public, nonce);
    events, r := Extend(events1, r1, CheckFinishes(0));
    var rest := r1.(suspended := []);
    assert r1.suspended[..0] + r1.suspended[1..] == [];
    FirstIsRegistered(rest, r1.suspended[0]);
    OneMore(r1.log, Sent(0, Registered(id)));
    HearsNext(r1.log, Sent(0, Registered(id)), 0);
  }

  /** A viewer is let in by a host at socket 0. */
  lemma ViewerEnters(events: seq<Event>, r: Room) returns (events': seq<Event>, r': Room)
    requires r == Run(EMPTY, events) && r.sockets != [] && IsAuthedHost(r.sockets[0]) && OpenViewer(r).None?
    ensures r' == Run(EMPTY, events') && r'.sockets == r.sockets + [Viewer(true, false, false)]
    ensures r'.log == r.log + [Sent(|r.sockets|, Joined)] + [Sent(0, ViewerJoined)]
    ensures HeardBy(r'.log, 0) == HeardBy(r.log, 0) + [P.ViewerJoined]
    ensures forall ws: nat :: SentUnreadable(r'.log, ws) <==> SentUnreadable(r.log, ws)
  {
    events', r' := Extend(events, r, ViewerConnects);
    assert AuthedHost(r) == Some(0);
    var log1 := r.log + [Sent(|r.sockets|, Joined)];
    OneMore(r.log, Sent(|r.sockets|, Joined));
    OneMore(log1, Sent(0, ViewerJoined));
    HearsNext(r.log, Sent(|r.sockets|, Joined), 0);
    HearsNext(log1, Sent(0, ViewerJoined), 0);
  }

  /** A viewer leaves by itself, the host's kick comes to nothing, the next viewer is let in. */
  lemma NextEnters(id: seq<byte>, public: seq<byte>, nonce: seq<byte>) returns (events: seq<Event>, r: Room)
    requires |public| == 32
    ensures r == Run(EMPTY, events) && HeardBy(r.log, 0) == [P.ViewerJoined, P.ViewerJoined]
    ensures r.sockets == [Host(true, false, true, ToHex(nonce), ToHex(public), id),
                          Viewer(false, false, false), Viewer(true, false, false)]
    ensures LeftUnnoticed(r, 1) && Got(0, Parsed(KickKind, None, None)) in r.log
  {
    var events1, r1 := HostRegisters(id, public, nonce);
    var events2, r2 := ViewerEnters(events1, r1);
    var events3, r3 := Extend(events2, r2, LeavesOpen(1));
    assert r3.sockets == [r1.sockets[0], Viewer(false, false, false)];
    assert r3.log == r2.log + [LeftOpen(1)];
    OneMore(r2.log, LeftOpen(1));
    HearsNext(r2.log, LeftOpen(1), 0);
    var kick := Parsed(KickKind, None, None);
    var events4, r4 := Extend(events3, r3, Arrives(0, kick));
    assert OpenViewer(r3.(log := r3.log + [Got(0, kick)])).None?;
    assert r4 == r3.(log := r3.log + [Got(0, kick)]);
    OneMore(r3.log, Got(0, kick));
    HearsNext(r3.log, Got(0, kick), 0);
    events, r := ViewerEnters(events4, r4);
    assert Got(0, kick) in r4.log && LeftOpen(1) in r4.log;
  }

  /** What the host hears of both viewers, with a silence in which it gives the first one up. */
  function HostHears(luck: M.Luck): seq<M.Input> {
    [M.Heard(P.Got(P.ViewerJoined), 0, luck), M.Heard(P.Quiet, 0, luck), M.Sent(true, 0, luck), M.Again]
    + [M.Heard(P.Got(P.ViewerJoined), 0, luck), M.Heard(P.Got(P.ViewerLeft), 0, luck)]
  }

  /**
   It happens: after a host registered, a first viewer left by itself and was given up by the host after a
   silence, and a second one was let in, the close handler of the first makes the room say `viewer_left`. The
   host, which hears exactly what the room says, ends its attempt with the second viewer as if that one had
   left, and says nothing to it, while it is still there.
   */
  lemma StaleViewerLeftHappens(
    id: seq<byte>, public: seq<byte>, nonce: seq<byte>, cfg: M.HostConfig, code: P.Code, luck: M.Luck)
    returns (events: seq<Event>)
    requires |public| == 32
    ensures
      var (r, r') := (Run(EMPTY, events), Run(EMPTY, events + [CloseHandlerRuns(1)]));
      && TellsStale(r, CloseHandlerRuns(1)) && OpenViewer(r') == Some(2)
      && HeardBy(r'.log, 0) == [P.ViewerJoined, P.ViewerJoined, P.ViewerLeft]
    ensures
      var h := M.Run(M.Initial(cfg, code), HostHears(luck));
      h.pc == M.Finished(M.ViewerGone) && h.said == [] && h.out == []
  {
    var r, events', r';
    events, r := NextEnters(id, public, nonce);
    events', r' := Extend(events, r, CloseHandlerRuns(1));
    var r1 := MarkGone(r, 1);
    assert IsAuthedHost(r1.sockets[0]) && AuthedHost(r1) == Some(0);
    assert r'.sockets == [r.sockets[0], Viewer(false, true, false), Viewer(true, false, false)];
    assert r'.log == r.log + [Sent(0, ViewerLeft)];
    assert !IsOpenViewer(r'.sockets[0]) && !IsOpenViewer(r'.sockets[1]) && IsOpenViewer(r'.sockets[2]);
    HearsNext(r.log, Sent(0, ViewerLeft), 0);
    HostGivesUp(cfg, code, luck);
  }

  lemma GoOn(h0: M.Host, inputs: seq<M.Input>, h: M.Host, i: M.Input) returns (inputs': seq<M.Input>, h': M.Host)
    requires h == M.Run(h0, inputs)
    ensures inputs' == inputs + [i] && h' == M.Step(h, i) == M.Run(h0, inputs')
  {
    inputs', h' := inputs + [i], M.Step(h, i);
    assert inputs'[..|inputs|] == inputs;
  }

  lemma HostStartsOver(cfg: M.HostConfig, code: P.Code, luck: M.Luck) returns (inputs: seq<M.Input>, h: M.Host)
    ensures h == M.Run(M.Initial(cfg, code), inputs) && h.pc == M.Idle && h.out == [] && h.now == 0 && h.said == []
    ensures h.limiter == M.Initial(cfg, code).limiter
    ensures inputs == [M.Heard(P.Got(P.ViewerJoined), 0, luck), M.Heard(P.Quiet, 0, luck), M.Sent(true, 0, luck), M.Again]
  {
    var h0 := M.Initial(cfg, code);
    var i1, h1 := GoOn(h0, [], h0, M.Heard(P.Got(P.ViewerJoined), 0, luck));
    assert h1.pc == M.AwaitStart && h1.out == [] && h1.now == 0;
    var i2, h2 := GoOn(h0, i1, h1, M.Heard(P.Quiet, 0, luck));
    var i3, h3 := GoOn(h0, i2, h2, M.Sent(true, 0, luck));
    assert h3.pc.Finished? && h3.out == [] && h3.now == 0 && h3.pc.outcome != M.LinkLost;
    inputs, h := GoOn(h0, i3, h3, M.Again);
  }

  lemma HostGivesUp(cfg: M.HostConfig, code: P.Code, luck: M.Luck)
    ensures
      var h := M.Run(M.Initial(cfg, code), HostHears(luck));
      h.pc == M.Finished(M.ViewerGone) && h.said == [] && h.out == []
  {
    var h0 := M.Initial(cfg, code);
    var joined := M.Heard(P.Got(P.ViewerJoined), 0, luck);
    var i4, h4 := HostStartsOver(cfg, code, luck);
    var i5, h5 := GoOn(h0, i4, h4, joined);
    assert h5.pc == M.AwaitStart && h5.out == [] && h5.now == 0 && h5.said == [];
    var i6, h6 := GoOn(h0, i5, h5, M.Heard(P.Got(P.ViewerLeft), 0, luck));
    assert i6 == HostHears(luck);
  }
}
