/** The per-peer connection machine of the network behaviour and the events it gives out. */
module Connections {

  type PeerId = nat
  type ConnectionId = nat

  datatype Option<T> = None | Some(value: T)

  datatype Connection = Connection(dialer: bool, incoming: Option<nat>)
  type Connections = map<ConnectionId, Connection>

  datatype PeerState =
    | Init(pendingDial: bool)
    | Connected(connected: Connections)
    | ProtocolOpened(connected: Connections, openList: Connections)

  datatype Target = One(conn: ConnectionId) | All
  datatype Command = Open | Close | SendMessage

  datatype Out =
    | ProtocolOpen(peer: PeerId, via: Connection)
    | ProtocolClose(peer: PeerId, via: Connection)
    | Message(peer: PeerId)
    | Notify(peer: PeerId, target: Target, command: Command)
    | Dial(peer: PeerId)
    | Dropped(peer: PeerId)                 // to the peer manager
    | Incoming(peer: PeerId, id: nat)       // to the peer manager
    | Report(peer: PeerId)                  // to the peer manager

  /** What can happen to one peer. `delayed`: the peer is to be kept away for some time yet. */
  datatype Event =
    | Established(conn: ConnectionId, dialer: bool, delayed: bool)
    | Closed(conn: ConnectionId)
    | HandlerOpened(conn: ConnectionId)
    | HandlerClosed(conn: ConnectionId)
    | HandlerFailed(conn: ConnectionId, disconnect: bool)
    | HandlerMessage
    | DialFailed
    | PendingDialDue
    | ManagerConnect(isSelf: bool, delayed: bool)
    | DropPeer                               // by the peer manager or from outside
    | Send(conn: ConnectionId)               // over this connection, if it is an open one

  predicate DialerExists(connected: Connections) {
    exists c :: c in connected && connected[c].dialer
  }

  /** A further connection is openList if we dialled it, or if another one that we dialled is waiting. */
  predicate ShouldOpen(connected: Connections, dialer: bool) {
    dialer || DialerExists(connected)
  }

  /** The connection's new state and what is given out. `id` is the next incoming id. */
  function OnEstablished(p: PeerId, s: PeerState, conn: ConnectionId, dialer: bool, delayed: bool, id: nat): (PeerState, seq<Out>) {
    match s
    case Init(_) =>
      if dialer then (Connected(map[conn := Connection(true, None)]), [Notify(p, One(conn), Open)])
      else if delayed then (Connected(map[conn := Connection(false, None)]), [Notify(p, One(conn), Close)])
      else (Connected(map[conn := Connection(false, Some(id))]), [Incoming(p, id)])
    case Connected(connected) =>
      if ShouldOpen(connected, dialer) then (Connected(connected[conn := Connection(dialer, None)]), [Notify(p, One(conn), Open)])
      else (s, [Notify(p, One(conn), Close)])
    case ProtocolOpened(connected, openList) =>
      if ShouldOpen(connected, dialer)
      then (ProtocolOpened(connected[conn := Connection(dialer, None)], openList), [Notify(p, One(conn), Open)])
      else (s, [Notify(p, One(conn), Close)])
  }

  function OnClosed(p: PeerId, s: PeerState, conn: ConnectionId): (PeerState, seq<Out>) {
    match s
    case Init(_) => (s, [])
    case Connected(connected) =>
      var left := connected - {conn};
      if left == map[] then (Init(false), [Dropped(p)]) else (Connected(left), [])
    case ProtocolOpened(connected, openList) =>
      var (left, open) := (connected - {conn}, openList - {conn});
      var closed := if conn in openList then Some(openList[conn]) else if conn in connected then Some(connected[conn]) else None;
      if closed.Some? && open == map[] then
        if left == map[] then (Init(false), [ProtocolClose(p, closed.value), Dropped(p)])
        else (Connected(left), [ProtocolClose(p, closed.value)])
      else (ProtocolOpened(left, open), [])
  }

  function OnHandlerOpened(p: PeerId, s: PeerState, conn: ConnectionId): (PeerState, seq<Out>) {
    match s
    case Init(_) => (s, [])
    case Connected(connected) =>
      if conn in connected
      then (ProtocolOpened(connected - {conn}, map[conn := connected[conn]]), [ProtocolOpen(p, connected[conn])])
      else (s, [])
    case ProtocolOpened(connected, openList) =>
      if conn in connected then (ProtocolOpened(connected - {conn}, openList[conn := connected[conn]]), []) else (s, [])
  }

  function OnHandlerClosed(p: PeerId, s: PeerState, conn: ConnectionId): (PeerState, seq<Out>) {
    if !s.ProtocolOpened? || conn !in s.openList then (s, [])
    else if s.openList - {conn} == map[]
    then (Connected(s.connected[conn := s.openList[conn]]), [ProtocolClose(p, s.openList[conn])])
    else (ProtocolOpened(s.connected, s.openList - {conn}), [])
  }

  predicate Knows(s: PeerState, conn: ConnectionId) {
    (s.Connected? && conn in s.connected) || (s.ProtocolOpened? && (conn in s.connected || conn in s.openList))
  }

  /** One event of peer `p`; `id` is the next incoming id. */
  function OnEvent(p: PeerId, s: PeerState, ev: Event, id: nat): (PeerState, seq<Out>) {
    match ev
    case Established(conn, dialer, delayed) => OnEstablished(p, s, conn, dialer, delayed, id)
    case Closed(conn) => OnClosed(p, s, conn)
    case HandlerOpened(conn) => OnHandlerOpened(p, s, conn)
    case HandlerClosed(conn) => OnHandlerClosed(p, s, conn)
    case HandlerFailed(conn, disconnect) => (s, if Knows(s, conn) && disconnect then [Notify(p, One(conn), Close), Report(p)] else [])
    case HandlerMessage => (s, [Message(p)])
    case DialFailed => if s.Init? then (Init(false), [Report(p), Dropped(p)]) else (s, [])
    case PendingDialDue => if s.Init? && s.pendingDial then (Init(false), [Dial(p)]) else (s, [])
    case ManagerConnect(isSelf, delayed) =>
      if !s.Init? || isSelf then (s, [])
      else if delayed then (Init(true), [])
      else (s, if s.pendingDial then [] else [Dial(p)])
    case DropPeer => (s, if s.Init? then [] else [Notify(p, All, Close)])
    case Send(conn) => (s, if s.ProtocolOpened? && conn in s.openList then [Notify(p, One(conn), SendMessage)] else [])
  }

  /** `incoming` holds the ids given to the peer manager and not yet answered. */
  datatype Network = Network(peers: map<PeerId, PeerState>, events: seq<Out>, nextIncoming: nat, incoming: map<nat, PeerId>)

  datatype Input = At(peer: PeerId, ev: Event) | Accept(id: nat) | Reject(id: nat)

  const QUIET: Network := Network(map[], [], 0, map[])

  function StateOf(n: Network, p: PeerId): PeerState {
    if p in n.peers then n.peers[p] else Init(false)
  }

  predicate TakesId(s: PeerState, ev: Event) {
    ev.Established? && s.Init? && !ev.dialer && !ev.delayed
  }

  /** The connection waits for this incoming id to be accepted. */
  predicate Waits(s: PeerState, id: nat, conn: ConnectionId) {
    !s.Init? && conn in s.connected && s.connected[conn].incoming == Some(id)
  }

  /** What an accepted id gives out: the connection that waits for it opens. */
  ghost function OnAccept(p: PeerId, s: PeerState, id: nat): seq<Out> {
    if s.Init? then [Dropped(p)]
    else if exists c :: Waits(s, id, c) then var c :| Waits(s, id, c); [Notify(p, One(c), Open)]
    else []
  }

  ghost function Next(n: Network, input: Input): Network {
    match input
    case At(p, ev) =>
      var s := StateOf(n, p);
      var (s', outs) := OnEvent(p, s, ev, n.nextIncoming);
      var n' := n.(peers := n.peers[p := s'], events := n.events + outs);
      if TakesId(s, ev) then n'.(nextIncoming := n.nextIncoming + 1, incoming := n.incoming[n.nextIncoming := p]) else n'
    case Accept(id) =>
      if id !in n.incoming then n
      else
        var p := n.incoming[id];
        Network(n.peers[p := StateOf(n, p)], n.events + OnAccept(p, StateOf(n, p), id), n.nextIncoming, n.incoming - {id})
    case Reject(id) =>
      if id !in n.incoming then n
      else
        var (p, s) := (n.incoming[id], StateOf(n, n.incoming[id]));
        Network(n.peers[p := s], n.events + (if s.Init? then [] else [Notify(p, All, Close)]), n.nextIncoming, n.incoming - {id})
  }

  // ---------------------------------------------------------------- the invariant of one peer

  predicate Disjoint(s: PeerState) {
    s.ProtocolOpened? ==> s.connected.Keys !! s.openList.Keys
  }

  predicate Inhabited(s: PeerState) {
    (s.Connected? ==> s.connected != map[]) && (s.ProtocolOpened? ==> s.openList != map[])
  }

  /** A connection id is new when it is established. */
  predicate Fresh(s: PeerState, ev: Event) {
    ev.Established? ==> !Knows(s, ev.conn)
  }

  lemma EventInhabited(p: PeerId, s: PeerState, ev: Event, id: nat)
    requires Inhabited(s)
    ensures Inhabited(OnEvent(p, s, ev, id).0)
  {
    match ev {
      case Established(conn, _, _) =>
        if s.Connected? { assert conn in s.connected[conn := Connection(true, None)]; }
        var s' := OnEvent(p, s, ev, id).0;
        if s'.Connected? && s' != s { assert conn in s'.connected; }
      case HandlerOpened(conn) =>
        var s' := OnEvent(p, s, ev, id).0;
        if s'.ProtocolOpened? && s' != s { assert conn in s'.openList; }
      case HandlerClosed(conn) =>
        var s' := OnEvent(p, s, ev, id).0;
        if s'.Connected? && s' != s { assert conn in s'.connected; }
      case Closed(conn) => ClosedInhabited(p, s, conn);
      case _ =>
    }
  }

  lemma ClosedInhabited(p: PeerId, s: PeerState, conn: ConnectionId)
    requires Inhabited(s)
    ensures Inhabited(OnClosed(p, s, conn).0)
  {
    if s.ProtocolOpened? && conn !in s.openList { assert s.openList - {conn} == s.openList; }
  }

  /** The two lists stay apart exactly as long as no connection that is already open is established
      a second time and taken in. */
  lemma EventDisjoint(p: PeerId, s: PeerState, ev: Event, id: nat)
    requires Disjoint(s)
    ensures Disjoint(OnEvent(p, s, ev, id).0) <==>
      !(ev.Established? && s.ProtocolOpened? && ev.conn in s.openList && ShouldOpen(s.connected, ev.dialer))
  {
    if ev.Established? && s.ProtocolOpened? && ev.conn in s.openList && ShouldOpen(s.connected, ev.dialer) {
      var s' := OnEvent(p, s, ev, id).0;
      assert ev.conn in s'.connected && ev.conn in s'.openList;
    }
  }

  // ---------------------------------------------------------------- what the outside sees of a peer

  /** Replaying the open and close events of one peer: whether they alternate, and whether the last one
      is an open. */
  datatype Seen = Seen(alternates: bool, open: bool)

  function PlayedOne(seen: Seen, e: Out, p: PeerId): Seen {
    if e.ProtocolOpen? && e.peer == p then Seen(seen.alternates && !seen.open, true)
    else if e.ProtocolClose? && e.peer == p then Seen(seen.alternates && seen.open, false)
    else seen
  }

  function Replay(events: seq<Out>, p: PeerId): Seen
    decreases |events|
  {
    if events == [] then Seen(true, false)
    else PlayedOne(Replay(events[..|events| - 1], p), events[|events| - 1], p)
  }

  function Played(seen: Seen, outs: seq<Out>, p: PeerId): Seen
    decreases |outs|
  {
    if outs == [] then seen
    else PlayedOne(Played(seen, outs[..|outs| - 1], p), outs[|outs| - 1], p)
  }

  lemma {:induction false} ReplayMore(events: seq<Out>, outs: seq<Out>, p: PeerId)
    ensures Replay(events + outs, p) == Played(Replay(events, p), outs, p)
    decreases |outs|
  {
    if outs == [] {
      assert events + outs == events;
    } else {
      var k := |outs| - 1;
      assert (events + outs)[..|events| + k] == events + outs[..k];
      ReplayMore(events, outs[..k], p);
    }
  }

  /** Events about other peers do not show. */
  lemma {:induction false} PlayedOther(seen: Seen, outs: seq<Out>, p: PeerId)
    requires forall i :: 0 <= i < |outs| ==> outs[i].peer != p
    ensures Played(seen, outs, p) == seen
    decreases |outs|
  {
    if outs != [] { PlayedOther(seen, outs[..|outs| - 1], p); }
  }

  lemma PlayedTwo(seen: Seen, outs: seq<Out>, p: PeerId)
    requires |outs| <= 2
    ensures |outs| == 0 ==> Played(seen, outs, p) == seen
    ensures |outs| == 1 ==> Played(seen, outs, p) == PlayedOne(seen, outs[0], p)
    ensures |outs| == 2 ==> Played(seen, outs, p) == PlayedOne(PlayedOne(seen, outs[0], p), outs[1], p)
  {
    if |outs| == 1 { assert outs[..0] == []; }
    if |outs| == 2 { assert outs[..1] == [outs[0]] && outs[..1][..0] == []; }
  }

  /** One event of one peer: what it gives out leads from the old state's view to the new one's. */
  lemma EventPlayed(p: PeerId, s: PeerState, ev: Event, id: nat)
    requires Inhabited(s)
    ensures var (s', outs) := OnEvent(p, s, ev, id);
      |outs| <= 2 && (forall i :: 0 <= i < |outs| ==> outs[i].peer == p)
      && Played(Seen(true, s.ProtocolOpened?), outs, p) == Seen(true, s'.ProtocolOpened?)
  {
    var (s', outs) := OnEvent(p, s, ev, id);
    PlayedTwo(Seen(true, s.ProtocolOpened?), outs, p);
  }

  // ---------------------------------------------------------------- over runs of the whole network

  ghost predicate PeerGood(n: Network, p: PeerId) {
    Inhabited(StateOf(n, p)) && Disjoint(StateOf(n, p)) && Replay(n.events, p) == Seen(true, StateOf(n, p).ProtocolOpened?)
  }

  /** A connection, waiting or open, that came in under this id. */
  predicate Holds(s: PeerState, id: nat, conn: ConnectionId) {
    Waits(s, id, conn) || (s.ProtocolOpened? && conn in s.openList && s.openList[conn].incoming == Some(id))
  }

  /** Ids in use have been given out, an unanswered id belongs to the peer it was asked for, and no two
      connections came in under one id. */
  ghost predicate IdsOk(n: Network) {
    && (forall id :: id in n.incoming ==> id < n.nextIncoming)
    && (forall p: PeerId, id: nat, c: ConnectionId :: Holds(StateOf(n, p), id, c) ==> id < n.nextIncoming && (id in n.incoming ==> n.incoming[id] == p))
    && (forall p: PeerId, q: PeerId, id: nat, c: ConnectionId, d: ConnectionId :: Holds(StateOf(n, p), id, c) && Holds(StateOf(n, q), id, d) ==> p == q && c == d)
  }

  ghost predicate Good(n: Network) {
    (forall p: PeerId :: PeerGood(n, p)) && IdsOk(n)
  }

  /** The only id an event brings in is the one it takes. */
  lemma HeldBefore(p: PeerId, s: PeerState, ev: Event, next: nat, id: nat, c: ConnectionId)
    requires Holds(OnEvent(p, s, ev, next).0, id, c)
    ensures Holds(s, id, c) || (TakesId(s, ev) && id == next && c == ev.conn)
  {
  }

  lemma EventIds(n: Network, p: PeerId, ev: Event)
    requires IdsOk(n)
    ensures IdsOk(Next(n, At(p, ev)))
  {
    hide OnEvent, Holds;
    var (s, n') := (StateOf(n, p), Next(n, At(p, ev)));
    forall q: PeerId, id: nat, c: ConnectionId | Holds(StateOf(n', q), id, c)
      ensures Holds(StateOf(n, q), id, c) || (TakesId(s, ev) && q == p && id == n.nextIncoming && c == ev.conn)
    {
      if q == p { HeldBefore(p, s, ev, n.nextIncoming, id, c); }
    }
  }

  lemma AnswerIds(n: Network, input: Input)
    requires IdsOk(n) && !input.At?
    ensures IdsOk(Next(n, input))
  {
    hide OnAccept, Holds;
    var n' := Next(n, input);
    assert forall q: PeerId :: StateOf(n', q) == StateOf(n, q);
  }

  predicate FreshInput(n: Network, input: Input) {
    input.At? ==> Fresh(StateOf(n, input.peer), input.ev)
  }

  lemma EventGood(n: Network, p: PeerId, ev: Event)
    requires Good(n) && Fresh(StateOf(n, p), ev)
    ensures Good(Next(n, At(p, ev)))
  {
    hide OnEvent, Replay, Played, Inhabited, IdsOk;
    var (s, n') := (StateOf(n, p), Next(n, At(p, ev)));
    var outs := OnEvent(p, s, ev, n.nextIncoming).1;
    EventIds(n, p, ev);
    forall q: PeerId ensures PeerGood(n', q) {
      assert PeerGood(n, q) && PeerGood(n, p);
      ReplayMore(n.events, outs, q);
      EventPlayed(p, s, ev, n.nextIncoming);
      if q == p {
        EventInhabited(p, s, ev, n.nextIncoming);
        EventDisjoint(p, s, ev, n.nextIncoming);
      } else {
        PlayedOther(Replay(n.events, q), outs, q);
      }
    }
  }

  lemma PlayedSilent(seen: Seen, outs: seq<Out>, p: PeerId)
    requires |outs| <= 1 && forall i :: 0 <= i < |outs| ==> !outs[i].ProtocolOpen? && !outs[i].ProtocolClose?
    ensures Played(seen, outs, p) == seen
  {
    PlayedTwo(seen, outs, p);
  }

  lemma AnswerGood(n: Network, input: Input)
    requires Good(n) && !input.At?
    ensures Good(Next(n, input))
  {
    var n' := Next(n, input);
    AnswerIds(n, input);
    if input.id in n.incoming {
      var outs := n'.events[|n.events|..];
      assert n'.events == n.events + outs && |outs| <= 1;
      hide Replay, Played, OnAccept, IdsOk;
      forall q: PeerId ensures PeerGood(n', q) {
        assert PeerGood(n, q);
        ReplayMore(n.events, outs, q);
        PlayedSilent(Replay(n.events, q), outs, q);
      }
    }
  }

  lemma NextGood(n: Network, input: Input)
    requires Good(n) && FreshInput(n, input)
    ensures Good(Next(n, input))
  {
    hide Good, Next, Fresh;
    if input.At? { EventGood(n, input.peer, input.ev); } else { AnswerGood(n, input); }
  }

  ghost function Run(inputs: seq<Input>): Network
    decreases |inputs|
  {
    if inputs == [] then QUIET else Next(Run(inputs[..|inputs| - 1]), inputs[|inputs| - 1])
  }

  /** Over every run in which connection ids are new when established: for every peer, opens and closes
      strictly alternate, the peer is opened exactly when its last event is an open, the two lists are
      disjoint, an opened peer has an open connection and a connected one a connection; and every
      incoming id belongs to one connection of one peer. */
  lemma {:induction false} RunGood(inputs: seq<Input>)
    requires forall k :: 0 <= k < |inputs| ==> FreshInput(Run(inputs[..k]), inputs[k])
    ensures Good(Run(inputs))
    decreases |inputs|
  {
    hide Next, FreshInput, PeerGood, IdsOk;
    if inputs == [] {
      StartGood();
    } else {
      var k := |inputs| - 1;
      var before := inputs[..k];
      assert forall j :: 0 <= j < k ==> before[..j] == inputs[..j] && before[j] == inputs[j];
      RunGood(before);
      NextGood(Run(before), inputs[k]);
    }
  }

  lemma StartGood()
    ensures Good(QUIET)
  {
    forall p: PeerId ensures PeerGood(QUIET, p) { }
  }

  /** An id is given out and answered at most once: an answered id is never asked for again. */
  lemma AnsweredOnce(n: Network, input: Input, id: nat)
    requires IdsOk(n) && id < n.nextIncoming && id !in n.incoming
    ensures id < Next(n, input).nextIncoming && id !in Next(n, input).incoming
  {
    hide OnEvent, OnAccept;
  }

  /** A connection that is open already and established once more is in both lists. */
  lemma EstablishedTwice()
    ensures var s := ProtocolOpened(map[], map[1 := Connection(true, None)]);
      Disjoint(s) && Inhabited(s) && !Disjoint(OnEvent(0, s, Established(1, true, false), 0).0)
  {
    var s := ProtocolOpened(map[], map[1 := Connection(true, None)]);
    EventDisjoint(0, s, Established(1, true, false), 0);
    assert 1 in s.openList;
  }

  /** A peer leaves its last listed connection behind exactly when the peer manager is told so. */
  lemma DroppedMeans(p: PeerId, s: PeerState, ev: Event, id: nat)
    requires Inhabited(s) && !s.Init?
    ensures OnEvent(p, s, ev, id).0.Init? <==> Dropped(p) in OnEvent(p, s, ev, id).1
  {
  }

  /** A further connection is kept and told to open, or left out and told to close, never anything else;
      which of the two is decided by who dialled. */
  lemma EstablishedAnswered(p: PeerId, s: PeerState, conn: ConnectionId, dialer: bool, delayed: bool, id: nat)
    requires !s.Init? && !Knows(s, conn)
    ensures var (s', outs) := OnEvent(p, s, Established(conn, dialer, delayed), id);
      (Knows(s', conn) <==> dialer || DialerExists(s.connected))
      && outs == [Notify(p, One(conn), if Knows(s', conn) then Open else Close)]
      && s'.ProtocolOpened? == s.ProtocolOpened? && (s.ProtocolOpened? ==> s'.openList == s.openList)
  {
  }

  // ---------------------------------------------------------------- what each event brings about

  /** The connections that wait to be opened, and those that are open. */
  function WaitingOf(s: PeerState): Connections { if s.Init? then map[] else s.connected }
  function OpenOf(s: PeerState): Connections { if s.ProtocolOpened? then s.openList else map[] }

  /** The state of a peer with these connections. */
  predicate Standing(s: PeerState, waiting: Connections, open: Connections) {
    WaitingOf(s) == waiting && OpenOf(s) == open
    && (s.ProtocolOpened? <==> open != map[]) && (s.Init? <==> waiting == map[] && open == map[]) && (s.Init? ==> !s.pendingDial)
  }

  /** A connection comes up. The first one of a peer is opened if we dialled it, closed while the peer is
      to be kept away, and otherwise offered to the peer manager under the next id; a further one is kept
      and opened if we dialled it or another one that waits, and otherwise closed and not kept. */
  predicate Established1(p: PeerId, s: PeerState, conn: ConnectionId, dialer: bool, delayed: bool, id: nat, s': PeerState, outs: seq<Out>) {
    if s.Init? then
      var offered := !dialer && !delayed;
      && s' == Connected(map[conn := Connection(dialer, if offered then Some(id) else None)])
      && outs == [if dialer then Notify(p, One(conn), Open) else if delayed then Notify(p, One(conn), Close) else Incoming(p, id)]
    else if dialer || exists c :: c in s.connected && s.connected[c].dialer then
      && WaitingOf(s') == WaitingOf(s)[conn := Connection(dialer, None)] && OpenOf(s') == OpenOf(s)
      && s'.Init? == s.Init? && s'.ProtocolOpened? == s.ProtocolOpened? && outs == [Notify(p, One(conn), Open)]
    else s' == s && outs == [Notify(p, One(conn), Close)]
  }

  /** A connection goes: nothing of it stays. With the last open one the protocol closes, and with the last
      one of all the peer manager is told. */
  predicate Closed1(p: PeerId, s: PeerState, conn: ConnectionId, s': PeerState, outs: seq<Out>) {
    if s.Init? then s' == s && outs == []
    else
      var waiting: Connections := WaitingOf(s) - {conn};
      var open: Connections := OpenOf(s) - {conn};
      && Standing(s', waiting, open)
      && outs == (if conn in OpenOf(s) && open == map[] then [ProtocolClose(p, OpenOf(s)[conn])] else [])
               + (if waiting == map[] && open == map[] then [Dropped(p)] else [])
  }

  /** A waiting connection opens, the first one with the protocol; the last open one that closes waits
      again, any other is forgotten. */
  predicate Handled(p: PeerId, s: PeerState, conn: ConnectionId, opens: bool, s': PeerState, outs: seq<Out>) {
    var waiting: Connections := WaitingOf(s);
    var open: Connections := OpenOf(s);
    if opens && conn in waiting then
      && Standing(s', waiting - {conn}, open[conn := waiting[conn]])
      && outs == if s.ProtocolOpened? then [] else [ProtocolOpen(p, waiting[conn])]
    else if !opens && conn in open then
      if open.Keys == {conn} then Standing(s', waiting[conn := open[conn]], map[]) && outs == [ProtocolClose(p, open[conn])]
      else Standing(s', waiting, open - {conn}) && outs == []
    else s' == s && outs == []
  }

  predicate Reacts(p: PeerId, s: PeerState, ev: Event, id: nat, s': PeerState, outs: seq<Out>) {
    match ev
    case Established(conn, dialer, delayed) => Established1(p, s, conn, dialer, delayed, id, s', outs)
    case Closed(conn) => Closed1(p, s, conn, s', outs)
    case HandlerOpened(conn) => Handled(p, s, conn, true, s', outs)
    case HandlerClosed(conn) => Handled(p, s, conn, false, s', outs)
    case HandlerFailed(conn, disconnect) => s' == s && outs == if disconnect && Knows(s, conn) then [Notify(p, One(conn), Close), Report(p)] else []
    case HandlerMessage => s' == s && outs == [Message(p)]
    case DialFailed => if s.Init? then s' == Init(false) && outs == [Report(p), Dropped(p)] else s' == s && outs == []
    case PendingDialDue => if s == Init(true) then s' == Init(false) && outs == [Dial(p)] else s' == s && outs == []
    case ManagerConnect(isSelf, delayed) =>
      if !s.Init? || isSelf then s' == s && outs == []
      else if delayed then s' == Init(true) && outs == []
      else s' == s && outs == if s.pendingDial then [] else [Dial(p)]
    case DropPeer => s' == s && outs == if s.Init? then [] else [Notify(p, All, Close)]
    case Send(conn) => s' == s && outs == if conn in OpenOf(s) then [Notify(p, One(conn), SendMessage)] else []
  }

  lemma EventReacts(p: PeerId, s: PeerState, ev: Event, id: nat)
    requires Inhabited(s) && Disjoint(s)
    ensures Reacts(p, s, ev, id, OnEvent(p, s, ev, id).0, OnEvent(p, s, ev, id).1)
  {
    match ev
    case Closed(conn) => ClosedReacts(p, s, conn);
    case HandlerOpened(conn) => OpenedReacts(p, s, conn);
    case HandlerClosed(conn) => HandlerReacts(p, s, conn);
    case _ =>
  }

  lemma ClosedReacts(p: PeerId, s: PeerState, conn: ConnectionId)
    requires Inhabited(s) && Disjoint(s)
    ensures Closed1(p, s, conn, OnClosed(p, s, conn).0, OnClosed(p, s, conn).1)
  {
    if s.ProtocolOpened? && conn !in s.openList { assert s.openList - {conn} == s.openList; }
    if s.Connected? { assert map[] - {conn} == OpenOf(s); }
  }

  lemma OpenedReacts(p: PeerId, s: PeerState, conn: ConnectionId)
    requires Inhabited(s) && Disjoint(s)
    ensures Handled(p, s, conn, true, OnHandlerOpened(p, s, conn).0, OnHandlerOpened(p, s, conn).1)
  {
    if !s.Init? && conn in s.connected { assert conn in OpenOf(s)[conn := s.connected[conn]]; }
  }

  lemma OnlyKey(m: Connections, c: ConnectionId)
    requires c in m
    ensures m - {c} == map[] <==> m.Keys == {c}
  {
    assert (m - {c}).Keys == m.Keys - {c};
    if m - {c} == map[] {
      forall d | d in m.Keys ensures d in {c} { assert d !in m.Keys - {c}; }
    }
  }

  lemma HandlerReacts(p: PeerId, s: PeerState, conn: ConnectionId)
    requires Inhabited(s) && Disjoint(s)
    ensures Handled(p, s, conn, false, OnHandlerClosed(p, s, conn).0, OnHandlerClosed(p, s, conn).1)
  {
    if s.ProtocolOpened? && conn in s.openList {
      OnlyKey(s.openList, conn);
      assert conn in s.connected[conn := s.openList[conn]];
    }
  }

  /** An answer of the peer manager: an id not in use changes nothing. An accepted one opens the connection
      that waits for it, or tells that the peer is gone; a refused one closes all of its peer. */
  ghost predicate AnswerTaken(n: Network, input: Input, after: Network)
    requires !input.At?
  {
    if input.id !in n.incoming then after == n
    else
      var (p, s) := (n.incoming[input.id], StateOf(n, n.incoming[input.id]));
      && (forall q: PeerId :: StateOf(after, q) == StateOf(n, q)) && after.incoming == n.incoming - {input.id} && after.nextIncoming == n.nextIncoming
      && (input.Reject? ==> after.events == n.events + if s.Init? then [] else [Notify(p, All, Close)])
      && (input.Accept? && s.Init? ==> after.events == n.events + [Dropped(p)])
      && (input.Accept? && !s.Init? ==> forall c :: Waits(s, input.id, c) ==> after.events == n.events + [Notify(p, One(c), Open)])
      && (input.Accept? && !s.Init? && (forall c :: !Waits(s, input.id, c)) ==> after.events == n.events)
  }

  lemma AnswerDoes(n: Network, input: Input)
    requires Good(n) && !input.At?
    ensures AnswerTaken(n, input, Next(n, input))
  {
    hide Good;
    if input.Accept? && input.id in n.incoming {
      var (p, s) := (n.incoming[input.id], StateOf(n, n.incoming[input.id]));
      forall c | Waits(s, input.id, c) ensures OnAccept(p, s, input.id) == [Notify(p, One(c), Open)] { AcceptOpens(n, p, input.id, c); }
    }
  }

  // ---------------------------------------------------------------- live connections that nobody lists

  function Listed(s: PeerState): (r: set<ConnectionId>)
    ensures forall c :: c in r <==> Knows(s, c)
  {
    match s
    case Init(_) => {}
    case Connected(connected) => connected.Keys
    case ProtocolOpened(connected, openList) => connected.Keys + openList.Keys
  }

  /** A further connection is refused, or the handler of an open one closes while another is open. */
  predicate Forgets(s: PeerState, ev: Event) {
    || (ev.Established? && !s.Init? && !ShouldOpen(s.connected, ev.dialer))
    || (ev.HandlerClosed? && s.ProtocolOpened? && ev.conn in s.openList && s.openList - {ev.conn} != map[])
  }

  datatype Links = Links(live: set<ConnectionId>, forgotten: set<ConnectionId>)

  function Linked(k: Links, s: PeerState, ev: Event): Links {
    var k1 := if ev.Established? then k.(live := k.live + {ev.conn})
              else if ev.Closed? then Links(k.live - {ev.conn}, k.forgotten - {ev.conn})
              else k;
    if Forgets(s, ev) then k1.(forgotten := k1.forgotten + {ev.conn}) else k1
  }

  /** The connections of a peer that are up, and those of them the machine has forgotten. */
  ghost function LinksOf(inputs: seq<Input>, p: PeerId): Links
    decreases |inputs|
  {
    if inputs == [] then Links({}, {})
    else
      var (before, input) := (inputs[..|inputs| - 1], inputs[|inputs| - 1]);
      var k := LinksOf(before, p);
      if input.At? && input.peer == p then Linked(k, StateOf(Run(before), p), input.ev) else k
  }

  /** A connection id is not one of a connection that is up when it is established. */
  ghost predicate NewIds(inputs: seq<Input>) {
    forall k :: 0 <= k < |inputs| ==> NewAt(inputs, k)
  }

  ghost predicate NewAt(inputs: seq<Input>, k: nat)
    requires k < |inputs|
  {
    inputs[k].At? && inputs[k].ev.Established? ==> inputs[k].ev.conn !in LinksOf(inputs[..k], inputs[k].peer).live
  }

  predicate LinksOk(s: PeerState, k: Links) {
    Listed(s) == k.live - k.forgotten && k.forgotten <= k.live
  }

  lemma EventLinks(p: PeerId, s: PeerState, k: Links, ev: Event, id: nat)
    requires Inhabited(s) && Disjoint(s) && LinksOk(s, k) && (ev.Established? ==> ev.conn !in k.live)
    ensures LinksOk(OnEvent(p, s, ev, id).0, Linked(k, s, ev))
  {
    var s' := OnEvent(p, s, ev, id).0;
    match ev
    case Established(conn, dialer, delayed) => assert Listed(s') == Listed(s) + if Forgets(s, ev) then {} else {conn};
    case Closed(conn) => ClosedLinks(p, s, conn);
    case HandlerOpened(conn) => assert Listed(s') == Listed(s);
    case HandlerClosed(conn) => HandlerLinks(p, s, conn);
    case _ => assert Listed(s') == Listed(s);
  }

  lemma HandlerLinks(p: PeerId, s: PeerState, conn: ConnectionId)
    requires Disjoint(s)
    ensures Listed(OnHandlerClosed(p, s, conn).0) == Listed(s) - if Forgets(s, HandlerClosed(conn)) then {conn} else {}
  {
    if s.ProtocolOpened? && conn in s.openList {
      var (left, s') := (s.openList - {conn}, OnHandlerClosed(p, s, conn).0);
      assert left.Keys == s.openList.Keys - {conn} && conn !in s.connected;
      if left == map[] {
        assert s.openList.Keys == {conn} && Listed(s') == s.connected.Keys + {conn};
      } else {
        assert Listed(s') == s.connected.Keys + left.Keys;
      }
    }
  }

  lemma ClosedLinks(p: PeerId, s: PeerState, conn: ConnectionId)
    requires Inhabited(s) && Disjoint(s)
    ensures Listed(OnClosed(p, s, conn).0) == Listed(s) - {conn}
  {
    match s
    case Init(_) =>
    case Connected(connected) => assert (connected - {conn}).Keys == connected.Keys - {conn};
    case ProtocolOpened(connected, openList) =>
      var (left, open, s') := (connected - {conn}, openList - {conn}, OnClosed(p, s, conn).0);
      assert left.Keys == connected.Keys - {conn} && open.Keys == openList.Keys - {conn};
      if conn !in openList { assert open == openList; }
      assert Listed(s') == left.Keys + open.Keys;
  }

  /** Over every run with new ids the machine lists exactly the connections that are up and that it has
      not forgotten. So a peer counts as gone exactly when it has forgotten all of them. */
  lemma {:induction false} RunLinks(inputs: seq<Input>, p: PeerId)
    requires NewIds(inputs)
    ensures Good(Run(inputs)) && LinksOk(StateOf(Run(inputs), p), LinksOf(inputs, p))
    ensures StateOf(Run(inputs), p).Init? <==> LinksOf(inputs, p).live == LinksOf(inputs, p).forgotten
    decreases |inputs|
  {
    hide NewAt, OnEvent, Linked, IdsOk, Replay;
    if inputs == [] {
      StartGood();
    } else {
      var (k, before, input) := (|inputs| - 1, inputs[..|inputs| - 1], inputs[|inputs| - 1]);
      NewBefore(inputs);
      RunLinks(before, p);
      if input.At? { RunLinks(before, input.peer); }
      assert NewAt(inputs, k);
      StepLinks(inputs, p);
    }
    GoodAt(Run(inputs), p);
    InitLists(StateOf(Run(inputs), p));
    NothingLeft(LinksOf(inputs, p));
  }

  lemma NothingLeft(k: Links)
    ensures k.live - k.forgotten == {} <==> k.live <= k.forgotten
  {
    if k.live - k.forgotten == {} {
      forall c | c in k.live ensures c in k.forgotten { assert c !in k.live - k.forgotten; }
    }
  }

  lemma NewBefore(inputs: seq<Input>)
    requires NewIds(inputs) && inputs != []
    ensures NewIds(inputs[..|inputs| - 1])
  {
    var before := inputs[..|inputs| - 1];
    forall k | 0 <= k < |before| ensures NewAt(before, k) {
      assert NewAt(inputs, k) && before[..k] == inputs[..k] && before[k] == inputs[k];
    }
  }

  lemma StepLinks(inputs: seq<Input>, p: PeerId)
    requires inputs != [] && NewAt(inputs, |inputs| - 1) && Good(Run(inputs[..|inputs| - 1]))
    requires var before := inputs[..|inputs| - 1]; LinksOk(StateOf(Run(before), p), LinksOf(before, p))
    requires var (before, input) := (inputs[..|inputs| - 1], inputs[|inputs| - 1]);
      input.At? ==> LinksOk(StateOf(Run(before), input.peer), LinksOf(before, input.peer))
    ensures Good(Run(inputs)) && LinksOk(StateOf(Run(inputs), p), LinksOf(inputs, p))
  {
    hide OnEvent, Linked, IdsOk, Replay, Good, PeerGood, OnAccept;
    var (before, input) := (inputs[..|inputs| - 1], inputs[|inputs| - 1]);
    var n := Run(before);
    assert FreshInput(n, input);
    NextGood(n, input);
    if input.At? && input.peer == p {
      GoodAt(n, p);
      EventLinks(p, StateOf(n, p), LinksOf(before, p), input.ev, n.nextIncoming);
    }
  }

  lemma GoodAt(n: Network, p: PeerId)
    requires Good(n)
    ensures Inhabited(StateOf(n, p)) && Disjoint(StateOf(n, p))
  {
    assert PeerGood(n, p);
  }

  lemma InitLists(s: PeerState)
    requires Inhabited(s)
    ensures s.Init? <==> Listed(s) == {}
  {
    if s.Connected? { assert s.connected.Keys != {}; }
    if s.ProtocolOpened? { assert s.openList.Keys != {}; }
  }

  /** Both connections of a peer are open; the handler of the first closes, then the second connection: the
      peer counts as gone and the peer manager is told, while the first connection is up. */
  lemma GoneWithALink()
    ensures var inputs := [At(0, Established(1, true, false)), At(0, Established(2, true, false)), At(0, HandlerOpened(1)),
                           At(0, HandlerOpened(2)), At(0, HandlerClosed(1)), At(0, Closed(2))];
      StateOf(Run(inputs), 0).Init? && Dropped(0) in Run(inputs).events && LinksOf(inputs, 0) == Links({1}, {1})
  {
    hide OnEvent, Linked;
    var inputs := [At(0, Established(1, true, false)), At(0, Established(2, true, false)), At(0, HandlerOpened(1)),
                   At(0, HandlerOpened(2)), At(0, HandlerClosed(1)), At(0, Closed(2))];
    var c := Connection(true, None);
    BothOpen(inputs);
    var (s4, s5) := (ProtocolOpened(map[], map[1 := c, 2 := c]), ProtocolOpened(map[], map[2 := c]));
    LastSteps(s4, s5, c);
    LinkStep(inputs, 4, s4, s5, Links({1, 2}, {}), Links({1, 2}, {1}));
    LinkStep(inputs, 5, s5, Init(false), Links({1, 2}, {1}), Links({1}, {1}));
    assert inputs[..6] == inputs;
  }

  lemma LastSteps(s4: PeerState, s5: PeerState, c: Connection)
    requires c == Connection(true, None) && s4 == ProtocolOpened(map[], map[1 := c, 2 := c]) && s5 == ProtocolOpened(map[], map[2 := c])
    ensures forall id :: OnEvent(0, s4, HandlerClosed(1), id) == (s5, [])
    ensures forall id :: OnEvent(0, s5, Closed(2), id) == (Init(false), [ProtocolClose(0, c), Dropped(0)])
    ensures Linked(Links({1, 2}, {}), s4, HandlerClosed(1)) == Links({1, 2}, {1})
    ensures Linked(Links({1, 2}, {1}), s5, Closed(2)) == Links({1}, {1})
  {
    assert s4.openList - {1} == map[2 := c] && s5.openList - {2} == map[];
    assert 2 in map[2 := c] && map[2 := c] != map[];
  }

  lemma BothOpen(inputs: seq<Input>)
    requires |inputs| >= 4 && inputs[..4] == [At(0, Established(1, true, false)), At(0, Established(2, true, false)), At(0, HandlerOpened(1)), At(0, HandlerOpened(2))]
    ensures var c := Connection(true, None);
      StateOf(Run(inputs[..4]), 0) == ProtocolOpened(map[], map[1 := c, 2 := c]) && LinksOf(inputs[..4], 0) == Links({1, 2}, {})
  {
    hide Linked, OnEvent;
    FirstSteps();
    var c := Connection(true, None);
    assert inputs[..0] == [] && forall i :: 0 <= i < 4 ==> inputs[i] == inputs[..4][i];
    var (s1, s2) := (Connected(map[1 := c]), Connected(map[1 := c, 2 := c]));
    LinkAdded(Links({}, {}), Init(false), 1);
    LinkStep(inputs, 0, Init(false), s1, Links({}, {}), Links({1}, {}));
    LinkAdded(Links({1}, {}), s1, 2);
    LinkStep(inputs, 1, s1, s2, Links({1}, {}), Links({1, 2}, {}));
    var (s3, s4) := (ProtocolOpened(map[2 := c], map[1 := c]), ProtocolOpened(map[], map[1 := c, 2 := c]));
    LinkUnchanged(Links({1, 2}, {}), s2, 1);
    LinkStep(inputs, 2, s2, s3, Links({1, 2}, {}), Links({1, 2}, {}));
    LinkUnchanged(Links({1, 2}, {}), s3, 2);
    LinkStep(inputs, 3, s3, s4, Links({1, 2}, {}), Links({1, 2}, {}));
  }

  lemma FirstSteps()
    ensures var c := Connection(true, None);
      && (forall id :: OnEvent(0, Init(false), Established(1, true, false), id).0 == Connected(map[1 := c]))
      && (forall id :: OnEvent(0, Connected(map[1 := c]), Established(2, true, false), id).0 == Connected(map[1 := c, 2 := c]))
      && (forall id :: OnEvent(0, Connected(map[1 := c, 2 := c]), HandlerOpened(1), id).0 == ProtocolOpened(map[2 := c], map[1 := c]))
      && (forall id :: OnEvent(0, ProtocolOpened(map[2 := c], map[1 := c]), HandlerOpened(2), id).0 == ProtocolOpened(map[], map[1 := c, 2 := c]))
  {
    var c := Connection(true, None);
    assert map[1 := c, 2 := c] - {1} == map[2 := c] && map[2 := c] - {2} == map[];
  }

  lemma LinkAdded(k: Links, s: PeerState, conn: ConnectionId)
    ensures Linked(k, s, Established(conn, true, false)) == k.(live := k.live + {conn})
  {
  }

  lemma LinkUnchanged(k: Links, s: PeerState, conn: ConnectionId)
    ensures Linked(k, s, HandlerOpened(conn)) == k
  {
  }

  lemma LinkStep(inputs: seq<Input>, i: nat, s: PeerState, s': PeerState, k: Links, k': Links)
    requires i < |inputs| && inputs[i].At? && inputs[i].peer == 0
    requires StateOf(Run(inputs[..i]), 0) == s && LinksOf(inputs[..i], 0) == k
    requires (forall id :: OnEvent(0, s, inputs[i].ev, id).0 == s') && Linked(k, s, inputs[i].ev) == k'
    ensures StateOf(Run(inputs[..i + 1]), 0) == s' && LinksOf(inputs[..i + 1], 0) == k'
  {
    assert inputs[..i + 1][..i] == inputs[..i];
  }

  /** Messages go out to opened peers alone, over an open connection, and there always is one. */
  lemma SendsWhenOpen(inputs: seq<Input>, p: PeerId)
    requires forall k :: 0 <= k < |inputs| ==> FreshInput(Run(inputs[..k]), inputs[k])
    ensures var n := Run(inputs);
      Replay(n.events, p).open <==> exists c: ConnectionId :: Next(n, At(p, Send(c))).events == n.events + [Notify(p, One(c), SendMessage)]
  {
    RunGood(inputs);
    var n := Run(inputs);
    var s := StateOf(n, p);
    assert PeerGood(n, p);
    hide Run, Good, Next, Replay;
    if s.ProtocolOpened? {
      var c :| c in s.openList;
      SendShown(n, p, c);
    } else {
      forall c: ConnectionId ensures Next(n, At(p, Send(c))).events != n.events + [Notify(p, One(c), SendMessage)] { SendShown(n, p, c); }
    }
  }

  lemma SendShown(n: Network, p: PeerId, c: ConnectionId)
    ensures var s := StateOf(n, p);
      Next(n, At(p, Send(c))).events == n.events + if s.ProtocolOpened? && c in s.openList then [Notify(p, One(c), SendMessage)] else []
  {
  }

  // ---------------------------------------------------------------- the behaviour as an object

  class Protocol {
    var peers: map<PeerId, PeerState>
    var incomingPeers: map<nat, PeerId>
    var nextIncoming: nat
    var events: seq<Out>

    ghost function Snapshot(): Network
      reads this
    {
      Network(peers, events, nextIncoming, incomingPeers)
    }

    constructor ()
      ensures Snapshot() == QUIET && Good(Snapshot())
    {
      peers, incomingPeers, nextIncoming, events := map[], map[], 0, [];
      new;
      StartGood();
    }

    method Current(p: PeerId) returns (s: PeerState)
      ensures s == StateOf(Snapshot(), p)
    {
      s := if p in peers then peers[p] else Init(false);
    }

    /** Replace the peer's state and queue what goes out. */
    method Settle(p: PeerId, s: PeerState, outs: seq<Out>)
      modifies this`peers, this`events
      ensures Snapshot() == Network(old(peers)[p := s], old(events) + outs, nextIncoming, incomingPeers)
    {
      peers := peers[p := s];
      events := events + outs;
    }

    /** A first connection asks the peer manager, under an id never used before, or opens; a further one
        opens or closes. No other peer is touched. */
    method InjectConnectionEstablished(p: PeerId, conn: ConnectionId, dialer: bool, delayed: bool)
      requires Good(Snapshot())
      modifies this
      ensures Snapshot() == Next(old(Snapshot()), At(p, Established(conn, dialer, delayed)))
      ensures old(events) <= events
      ensures Reacts(p, StateOf(old(Snapshot()), p), Established(conn, dialer, delayed), old(nextIncoming), StateOf(Snapshot(), p), events[|old(events)|..])
      ensures !Knows(StateOf(old(Snapshot()), p), conn) ==> Good(Snapshot())
      ensures nextIncoming > old(nextIncoming) ==> old(nextIncoming) !in old(incomingPeers) && Waits(StateOf(Snapshot(), p), old(nextIncoming), conn)
    {
      EventShown(Snapshot(), p, Established(conn, dialer, delayed));
      hide Reacts;
      if !Knows(StateOf(Snapshot(), p), conn) { EventGood(Snapshot(), p, Established(conn, dialer, delayed)); }
      hide PeerGood, Good;
      var s := Current(p);
      if s.Init? {
        if dialer {
          Settle(p, Connected(map[conn := Connection(true, None)]), [Notify(p, One(conn), Open)]);
        } else if delayed {
          Settle(p, Connected(map[conn := Connection(false, None)]), [Notify(p, One(conn), Close)]);
        } else {
          var id := nextIncoming;
          UnusedId(Snapshot());
          nextIncoming := nextIncoming + 1;
          incomingPeers := incomingPeers[id := p];
          Settle(p, Connected(map[conn := Connection(false, Some(id))]), [Incoming(p, id)]);
        }
        return;
      }
      var shouldOpen := dialer || exists c :: c in s.connected && s.connected[c].dialer;
      if !shouldOpen {
        Settle(p, s, [Notify(p, One(conn), Close)]);
      } else {
        var connected := s.connected[conn := Connection(dialer, None)];
        Settle(p, if s.Connected? then Connected(connected) else ProtocolOpened(connected, s.openList), [Notify(p, One(conn), Open)]);
      }
    }

    /** The peer is left without listed connections exactly when the peer manager is told. */
    method InjectConnectionClosed(p: PeerId, conn: ConnectionId)
      requires Good(Snapshot())
      modifies this`peers, this`events
      ensures Snapshot() == Next(old(Snapshot()), At(p, Closed(conn)))
      ensures old(events) <= events
      ensures Reacts(p, StateOf(old(Snapshot()), p), Closed(conn), old(nextIncoming), StateOf(Snapshot(), p), events[|old(events)|..])
      ensures Good(Snapshot()) && !Knows(StateOf(Snapshot(), p), conn)
      ensures !StateOf(old(Snapshot()), p).Init? ==>
        (StateOf(Snapshot(), p).Init? <==> Dropped(p) in events[|old(events)|..])
    {
      EventShown(Snapshot(), p, Closed(conn));
      hide Reacts;
      ClosedTells(Snapshot(), p, conn);
      EventGood(Snapshot(), p, Closed(conn));
      hide PeerGood, Good;
      var s := Current(p);
      match s {
        case Init(_) => Settle(p, s, []);
        case Connected(connected) =>
          var left := connected - {conn};
          if left == map[] { Settle(p, Init(false), [Dropped(p)]); } else { Settle(p, Connected(left), []); }
        case ProtocolOpened(connected, openList) =>
          var closed: Option<Connection> := None;
          if conn in connected { closed := Some(connected[conn]); }
          if conn in openList { closed := Some(openList[conn]); }
          var (left, open) := (connected - {conn}, openList - {conn});
          if closed.Some? && open == map[] {
            if left == map[] { Settle(p, Init(false), [ProtocolClose(p, closed.value), Dropped(p)]); }
            else { Settle(p, Connected(left), [ProtocolClose(p, closed.value)]); }
          } else {
            Settle(p, ProtocolOpened(left, open), []);
          }
      }
    }

    /** A connection that waited is open afterwards, and the outside has seen the peer open. */
    method InjectProtocolOpen(p: PeerId, conn: ConnectionId)
      requires Good(Snapshot())
      modifies this`peers, this`events
      ensures Snapshot() == Next(old(Snapshot()), At(p, HandlerOpened(conn)))
      ensures old(events) <= events
      ensures Reacts(p, StateOf(old(Snapshot()), p), HandlerOpened(conn), old(nextIncoming), StateOf(Snapshot(), p), events[|old(events)|..])
      ensures Good(Snapshot())
      ensures Knows(StateOf(old(Snapshot()), p), conn) ==>
        Replay(events, p).open && StateOf(Snapshot(), p).ProtocolOpened? && conn in StateOf(Snapshot(), p).openList
    {
      EventShown(Snapshot(), p, HandlerOpened(conn));
      hide Reacts;
      if Knows(StateOf(Snapshot(), p), conn) { OpenedShows(Snapshot(), p, conn); }
      EventGood(Snapshot(), p, HandlerOpened(conn));
      hide PeerGood, Good, Replay;
      var s := Current(p);
      if s.Connected? && conn in s.connected {
        Settle(p, ProtocolOpened(s.connected - {conn}, map[conn := s.connected[conn]]), [ProtocolOpen(p, s.connected[conn])]);
      } else if s.ProtocolOpened? && conn in s.connected {
        Settle(p, ProtocolOpened(s.connected - {conn}, s.openList[conn := s.connected[conn]]), []);
      } else {
        Settle(p, s, []);
      }
    }

    /** No open connection is left under this id; the outside sees the peer closed exactly when it was the
        last one. */
    method InjectProtocolClose(p: PeerId, conn: ConnectionId)
      requires Good(Snapshot())
      modifies this`peers, this`events
      ensures Snapshot() == Next(old(Snapshot()), At(p, HandlerClosed(conn)))
      ensures old(events) <= events
      ensures Reacts(p, StateOf(old(Snapshot()), p), HandlerClosed(conn), old(nextIncoming), StateOf(Snapshot(), p), events[|old(events)|..])
      ensures Good(Snapshot())
      ensures var s := StateOf(old(Snapshot()), p);
        Replay(events, p).open <==> s.ProtocolOpened? && s.openList - {conn} != map[]
    {
      EventShown(Snapshot(), p, HandlerClosed(conn));
      hide Reacts;
      ClosedShows(Snapshot(), p, conn);
      EventGood(Snapshot(), p, HandlerClosed(conn));
      hide PeerGood, Good, Replay;
      var s := Current(p);
      if s.ProtocolOpened? && conn in s.openList {
        var open := s.openList - {conn};
        if open == map[] {
          Settle(p, Connected(s.connected[conn := s.openList[conn]]), [ProtocolClose(p, s.openList[conn])]);
        } else {
          Settle(p, ProtocolOpened(s.connected, open), []);
        }
      } else {
        Settle(p, s, []);
      }
    }

    /** The connection of this peer that waits for the id; there is at most one. */
    method FindWaiting(p: PeerId, id: nat) returns (found: Option<ConnectionId>)
      requires Good(Snapshot()) && p in peers
      ensures found.Some? <==> exists c :: Waits(peers[p], id, c)
      ensures found.Some? ==> Waits(peers[p], id, found.value) && forall q: PeerId, c :: Waits(StateOf(Snapshot(), q), id, c) ==> q == p && c == found.value
    {
      found := None;
      if peers[p].Init? { return; }
      var left := peers[p].connected.Keys;
      while left != {}
        invariant left <= peers[p].connected.Keys
        invariant forall c :: c in peers[p].connected && c !in left ==> !Waits(peers[p], id, c)
        decreases left
      {
        var c :| c in left;
        if peers[p].connected[c].incoming == Some(id) {
          OneWaits(Snapshot(), p, id, c);
          return Some(c);
        }
        left := left - {c};
      }
    }

    /** An accepted id is looked up and forgotten, an unknown one changes nothing. */
    method PeerManagerAccept(id: nat)
      requires Good(Snapshot())
      modifies this`peers, this`events, this`incomingPeers
      ensures Snapshot() == Next(old(Snapshot()), Accept(id))
      ensures Good(Snapshot()) && id !in incomingPeers
      ensures AnswerTaken(old(Snapshot()), Accept(id), Snapshot())
    {
      hide AnswerTaken;
      AnswerGood(Snapshot(), Accept(id));
      AnswerDoes(Snapshot(), Accept(id));
      if id !in incomingPeers { return; }
      var p := incomingPeers[id];
      var s := Current(p);
      var outs := [];
      if s.Init? {
        outs := [Dropped(p)];
      } else {
        var c := FindWaiting(p, id);
        if c.Some? {
          outs := [Notify(p, One(c.value), Open)];
          AcceptOpens(Snapshot(), p, id, c.value);
        }
      }
      assert outs == OnAccept(p, s, id);
      hide PeerGood, Good, OnAccept;
      incomingPeers := incomingPeers - {id};
      Settle(p, s, outs);
    }
  }

  lemma EventShown(n: Network, p: PeerId, ev: Event)
    requires Good(n)
    ensures var n' := Next(n, At(p, ev));
      n.events <= n'.events && Reacts(p, StateOf(n, p), ev, n.nextIncoming, StateOf(n', p), n'.events[|n.events|..])
  {
    assert PeerGood(n, p);
    EventReacts(p, StateOf(n, p), ev, n.nextIncoming);
    var outs := OnEvent(p, StateOf(n, p), ev, n.nextIncoming).1;
    assert (n.events + outs)[|n.events|..] == outs;
    hide OnEvent, Reacts, PeerGood;
  }

  lemma UnusedId(n: Network)
    requires Good(n)
    ensures n.nextIncoming !in n.incoming
  {
  }

  lemma OneWaits(n: Network, p: PeerId, id: nat, c: ConnectionId)
    requires Good(n) && Waits(StateOf(n, p), id, c)
    ensures forall q: PeerId, d :: Waits(StateOf(n, q), id, d) ==> q == p && d == c
  {
    hide PeerGood;
    forall q: PeerId, d | Waits(StateOf(n, q), id, d) ensures q == p && d == c {
      assert Holds(StateOf(n, q), id, d) && Holds(StateOf(n, p), id, c);
    }
  }

  lemma AcceptOpens(n: Network, p: PeerId, id: nat, c: ConnectionId)
    requires Good(n) && Waits(StateOf(n, p), id, c)
    ensures OnAccept(p, StateOf(n, p), id) == [Notify(p, One(c), Open)]
  {
    OneWaits(n, p, id, c);
    var d :| Waits(StateOf(n, p), id, d) && OnAccept(p, StateOf(n, p), id) == [Notify(p, One(d), Open)];
  }

  lemma ClosedTells(n: Network, p: PeerId, conn: ConnectionId)
    requires Good(n)
    ensures var (s, n') := (StateOf(n, p), Next(n, At(p, Closed(conn)))); var s' := StateOf(n', p);
      !Knows(s', conn) && n.events <= n'.events && (!s.Init? ==> (s'.Init? <==> Dropped(p) in n'.events[|n.events|..]))
  {
    assert PeerGood(n, p);
    if !StateOf(n, p).Init? { DroppedMeans(p, StateOf(n, p), Closed(conn), n.nextIncoming); }
    var outs := OnEvent(p, StateOf(n, p), Closed(conn), n.nextIncoming).1;
    assert (n.events + outs)[|n.events|..] == outs;
  }

  lemma OpenedShows(n: Network, p: PeerId, conn: ConnectionId)
    requires Good(n) && Knows(StateOf(n, p), conn)
    ensures var n' := Next(n, At(p, HandlerOpened(conn))); var s' := StateOf(n', p);
      s'.ProtocolOpened? && conn in s'.openList && Replay(n'.events, p).open
  {
    EventGood(n, p, HandlerOpened(conn));
    assert PeerGood(Next(n, At(p, HandlerOpened(conn))), p);
  }

  lemma ClosedShows(n: Network, p: PeerId, conn: ConnectionId)
    requires Good(n)
    ensures var (s, n') := (StateOf(n, p), Next(n, At(p, HandlerClosed(conn))));
      Replay(n'.events, p).open <==> s.ProtocolOpened? && s.openList - {conn} != map[]
  {
    EventGood(n, p, HandlerClosed(conn));
    assert PeerGood(Next(n, At(p, HandlerClosed(conn))), p) && PeerGood(n, p);
    var s := StateOf(n, p);
    if s.ProtocolOpened? && conn !in s.openList { assert s.openList - {conn} == s.openList; }
  }
}
