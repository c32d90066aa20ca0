/**
 The in-memory signaling hub: one host, one current viewer, messages kept in order.

 `Hub` is its state as a value. The sending and receiving ends of the in-process channels are the queues;
 a channel with an empty queue whose sending end is gone reports that it is disconnected.
 */
module FakeHub {
  import opened Wrappers
  import opened Protocol

  const KICKED := 4001
  const HOST_LEFT := 4002

  /** A message for a viewer, or the end of its link after everything sent before. */
  datatype Envelope = Deliver(m: ServerToViewer) | CloseWith(code: nat)

  /** One viewer's link: its queue and, once it has seen the end, why (`None`: disconnected). */
  datatype ViewerLink = ViewerLink(queue: seq<Envelope>, closed: Option<Option<nat>>)

  /**
   `current` is the generation of the viewer in the slot; a viewer's generation is its index in `links`.
   `origins` says, for each entry of the host's queue, which generation caused it.
   */
  datatype Hub = Hub(
    current: Option<nat>, links: seq<ViewerLink>, hostQueue: seq<ServerToHost>, origins: seq<nat>,
    hostRelays: seq<PakeMsg>)

  const EMPTY := Hub(None, [], [], [], [])

  predicate Valid(h: Hub) {
    (h.current.Some? ==> h.current.value < |h.links|) && |h.origins| == |h.hostQueue|
  }

  datatype SendError = LinkClosed(code: Option<nat>)

  function Enqueue(h: Hub, g: nat, e: Envelope): Hub
    requires g < |h.links|
  {
    h.(links := h.links[g := h.links[g].(queue := h.links[g].queue + [e])])
  }

  function ToHost(h: Hub, m: ServerToHost, g: nat): Hub {
    h.(hostQueue := h.hostQueue + [m], origins := h.origins + [g])
  }

  /** A new viewer takes the slot; the one that had it is told to go. */
  function Join(h: Hub): Hub
    requires Valid(h)
  {
    var g := |h.links|;
    var h1 := if h.current.Some? then Enqueue(h, h.current.value, CloseWith(KICKED)) else h;
    ToHost(h1, ViewerJoined, g).(current := Some(g), links := h1.links + [ViewerLink([Deliver(Joined)], None)])
  }

  function HostSend(h: Hub, m: HostToServer): Hub
    requires Valid(h)
  {
    match m
    case HostRelay(msg) =>
      var h1 := h.(hostRelays := h.hostRelays + [msg]);
      if h.current.Some? then Enqueue(h1, h.current.value, Deliver(RelayToViewer(Pake(msg)))) else h1
    case Kick =>
      if h.current.Some? then Enqueue(h, h.current.value, CloseWith(KICKED)).(current := None) else h
  }

  /** The host's end always has a sender, so an empty queue is only ever a timeout. */
  function HostRecv(h: Hub): (Hub, LinkRecv<ServerToHost>)
    requires Valid(h)
  {
    if h.hostQueue == [] then (h, Quiet)
    else (h.(hostQueue := h.hostQueue[1..], origins := h.origins[1..]), Got(h.hostQueue[0]))
  }

  function HostDrop(h: Hub): Hub
    requires Valid(h)
  {
    if h.current.Some? then
      var g := h.current.value;
      Enqueue(Enqueue(h, g, Deliver(HostLeft)), g, CloseWith(HOST_LEFT)).(current := None)
    else h
  }

  function ViewerSend(h: Hub, g: nat, p: Payload): (Hub, Result<(), SendError>)
    requires g < |h.links|
  {
    if h.links[g].closed.Some? then (h, Err(LinkClosed(h.links[g].closed.value)))
    else if h.current != Some(g) then (h, Err(LinkClosed(Some(KICKED))))
    else (ToHost(h, RelayToHost(p), g), Ok(()))
  }

  function ViewerRecv(h: Hub, g: nat): (Hub, LinkRecv<ServerToViewer>)
    requires g < |h.links|
  {
    var l := h.links[g];
    if l.closed.Some? then (h, Broken(true))
    else if l.queue != [] then
      var h1 := h.(links := h.links[g := l.(queue := l.queue[1..])]);
      match l.queue[0]
      case Deliver(m) => (h1, Got(m))
      case CloseWith(code) => (h.(links := h.links[g := ViewerLink(l.queue[1..], Some(Some(code)))]), Broken(true))
    else if h.current == Some(g) then (h, Quiet)
    else (h.(links := h.links[g := l.(closed := Some(None))]), Broken(true))
  }

  function ViewerDrop(h: Hub, g: nat): Hub {
    if h.current == Some(g) then ToHost(h, ViewerLeft, g).(current := None) else h
  }

  class SharedHub {
    var current: Option<nat>
    var links: seq<ViewerLink>
    var hostQueue: seq<ServerToHost>
    ghost var origins: seq<nat>
    var hostRelays: seq<PakeMsg>

    ghost function State(): Hub
      reads this
    {
      Hub(current, links, hostQueue, origins, hostRelays)
    }

    constructor ()
      ensures State() == EMPTY
    {
      current, links, hostQueue, origins, hostRelays := None, [], [], [], [];
    }

    method AddViewer() returns (generation: nat)
      requires Valid(State())
      modifies this
      ensures State() == Join(old(State())) && generation == |old(links)|
    {
      generation := |links|;
      if current.Some? { Push(current.value, CloseWith(KICKED)); }
      current := Some(generation);
      hostQueue, origins := hostQueue + [ViewerJoined], origins + [generation];
      links := links + [ViewerLink([Deliver(Joined)], None)];
    }

    method SendFromHost(m: HostToServer)
      requires Valid(State())
      modifies this
      ensures State() == HostSend(old(State()), m)
    {
      match m {
        case HostRelay(msg) =>
          hostRelays := hostRelays + [msg];
          if current.Some? { Push(current.value, Deliver(RelayToViewer(Pake(msg)))); }
        case Kick =>
          if current.Some? {
            Push(current.value, CloseWith(KICKED));
            current := None;
          }
      }
    }

    method Push(g: nat, e: Envelope)
      requires g < |links|
      modifies this`links
      ensures State() == Enqueue(old(State()), g, e)
    {
      links := links[g := links[g].(queue := links[g].queue + [e])];
    }

    method ReceiveAtHost() returns (r: LinkRecv<ServerToHost>)
      requires Valid(State())
      modifies this
      ensures (State(), r) == HostRecv(old(State()))
    {
      if hostQueue == [] { return Quiet; }
      r := Got(hostQueue[0]);
      hostQueue, origins := hostQueue[1..], origins[1..];
    }

    method DropHost()
      requires Valid(State())
      modifies this
      ensures State() == HostDrop(old(State()))
    {
      if current.Some? {
        Push(current.value, Deliver(HostLeft));
        Push(current.value, CloseWith(HOST_LEFT));
        current := None;
      }
    }

    method SendFromViewer(g: nat, p: Payload) returns (r: Result<(), SendError>)
      requires g < |links|
      modifies this
      ensures (State(), r) == ViewerSend(old(State()), g, p)
    {
      if links[g].closed.Some? { return Err(LinkClosed(links[g].closed.value)); }
      if current != Some(g) { return Err(LinkClosed(Some(KICKED))); }
      hostQueue, origins := hostQueue + [RelayToHost(p)], origins + [g];
      return Ok(());
    }

    method ReceiveAtViewer(g: nat) returns (r: LinkRecv<ServerToViewer>)
      requires g < |links|
      modifies this`links
      ensures (State(), r) == ViewerRecv(old(State()), g)
    {
      var l := links[g];
      if l.closed.Some? { return Broken(true); }
      if l.queue == [] {
        if current == Some(g) { return Quiet; }
        links := links[g := l.(closed := Some(None))];
        return Broken(true);
      }
      match l.queue[0] {
        case Deliver(m) =>
          links := links[g := l.(queue := l.queue[1..])];
          return Got(m);
        case CloseWith(code) =>
          links := links[g := ViewerLink(l.queue[1..], Some(Some(code)))];
          return Broken(true);
      }
    }

    method DropViewer(g: nat)
      modifies this
      ensures State() == ViewerDrop(old(State()), g)
    {
      if current == Some(g) {
        current := None;
        hostQueue, origins := hostQueue + [ViewerLeft], origins + [g];
      }
    }
  }
}
