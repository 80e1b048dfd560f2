/** Both chains, their channels, and every packet and acknowledgement in flight. The host follows ICS-004,
    "Channel lifecycle management" and "Packet flow & handling", for ordered channels. */
module IbcProtocol {
  import opened Wrappers
  import opened IbcMsg
  import Reflect
  import A = IbcReflectSend
  import B = IbcReflect

  datatype End = Absent | Init | TryOpen | Open | Closed

  datatype Side = SideA | SideB

  datatype Returning = Returning(packet: Packet, ack: Ack)

  /** One channel: its identifier on each chain, the state of each end, packets on their way from A to B and
      acknowledgements on their way back, both in order. */
  datatype Link = Link(
    a: Channel, b: Channel, initiator: Side, order: Order, version: string,
    aEnd: End, bEnd: End, packets: seq<Packet>, acks: seq<Returning>)

  /** A transfer A asked for, and a dispatch an account of B carried out. */
  datatype Transfer = Transfer(channel: Channel, to: Reflect.Addr)
  datatype Relay = Relay(channel: Channel, account: Reflect.Addr)

  /** `valid` is chain B's `addr_validate`. `registered` remembers every account B ever registered; the logs
      remember what was done. They are history only: no handler reads them. */
  datatype World = World(
    admin: string, aAccounts: A.Accounts,
    self: Reflect.Addr, valid: string -> bool, bState: B.State, contracts: Reflect.Contracts,
    links: seq<Link>,
    registered: map<Channel, Reflect.Addr>, transfers: seq<Transfer>, relays: seq<Relay>)

  datatype Event =
    | OpenInit(side: Side, a: Channel, b: Channel, order: Order, version: string)
    | OpenTry(link: nat, counterpartyVersion: string)
    | Connect(link: nat, side: Side, address: Reflect.Addr)
    | Close(link: nat, side: Side, balance: Coins, sendSucceeds: bool)
    | Receive(link: nat, balance: Coins)
    | Acknowledge(link: nat, now: nat)
    | Timeout(link: nat)
    | UpdateAdmin(sender: string, admin: string)
    | Send(sender: string, channel: Channel, packet: Packet)
    | SendFunds(funds: Coins, channel: Channel)
    | CallReflect(sender: Reflect.Addr, target: Reflect.Addr, msg: Reflect.ExecuteMsg)
    | CreateReflect(sender: Reflect.Addr, address: Reflect.Addr)

  function EndOf(l: Link, side: Side): End {
    if side == SideA then l.aEnd else l.bEnd
  }

  function OtherEnd(l: Link, side: Side): End {
    if side == SideA then l.bEnd else l.aEnd
  }

  function WithEnd(l: Link, side: Side, e: End): Link {
    if side == SideA then l.(aEnd := e) else l.(bEnd := e)
  }

  function Opposite(side: Side): Side {
    if side == SideA then SideB else SideA
  }

  /** An end becomes open by the acknowledgement (at the initiator) or the confirmation (at the other end) of
      the handshake. The proof it carries may be older than the other end's present state. */
  predicate CanConnect(l: Link, side: Side) {
    if side == l.initiator then EndOf(l, side) == Init && OtherEnd(l, side) in {TryOpen, Open, Closed}
    else EndOf(l, side) == TryOpen && OtherEnd(l, side) in {Open, Closed}
  }

  function SetLink(w: World, i: nat, l: Link): World
    requires i < |w.links|
  {
    w.(links := w.links[i := l])
  }

  function ConnectA(w: World, i: nat): World
    requires i < |w.links|
  {
    var l := w.links[i];
    SetLink(w, i, l.(aEnd := Open, packets := l.packets + [WhoAmI]))
    .(aAccounts := A.Connected(w.aAccounts, l.a))
  }

  /** The events the chain reports for an instantiation. */
  function InstantiateEvents(addr: Reflect.Addr): seq<B.Event> {
    [B.Event("instantiate", [B.Attribute("_contract_address", addr), B.Attribute("code_id", "")])]
  }

  /** B's connect, the instantiation it asks for, and the reply, all in one transaction. */
  function ConnectB(w: World, i: nat, address: Reflect.Addr): World
    requires i < |w.links|
  {
    var l := w.links[i];
    var s1 := B.ChannelConnect(w.bState, l.b);
    var made := Reflect.Instantiate(w.contracts, w.self, address);
    if made.Failed? then w
    else
      var r := B.Reply(s1, B.INIT_CALLBACK_ID, B.SubOk(InstantiateEvents(address)), w.valid);
      if r.Err? then w
      else SetLink(w, i, l.(bEnd := Open))
           .(bState := r.value.0, contracts := made.contracts, registered := w.registered[l.b := address])
  }

  function CloseB(w: World, i: nat, balance: Coins, sendSucceeds: bool): World
    requires i < |w.links|
  {
    var l := w.links[i];
    var r := B.ChannelClose(w.bState, l.b, balance, sendSucceeds);
    if r.Err? then w
    else if r.value.2 == [] then SetLink(w, i, l.(bEnd := Closed)).(bState := r.value.0)
    else
      var sent := Reflect.Execute(w.contracts, w.self, r.value.1, Reflect.ReflectMsg(r.value.2));
      if sent.Failed? then w
      else SetLink(w, i, l.(bEnd := Closed)).(bState := r.value.0, contracts := sent.contracts)
  }

  /** The relayed call of a dispatch; a failure is undone and turned into an error acknowledgement. */
  function RelayOutcome(w: World, account: Reflect.Addr, msgs: seq<Reflect.CosmosMsg>): Reflect.Outcome {
    Reflect.Execute(w.contracts, w.self, account, Reflect.ReflectMsg(msgs))
  }

  function ReceiveB(w: World, i: nat, balance: Coins): World
    requires i < |w.links| && w.links[i].packets != []
  {
    var l := w.links[i];
    var packet := l.packets[0];
    var response := B.PacketReceive(w.bState, l.b, packet, balance);
    if response.relay.None? then
      SetLink(w, i, l.(packets := l.packets[1..], acks := l.acks + [Returning(packet, response.ack)]))
    else
      var (account, msgs) := response.relay.value;
      var sent := RelayOutcome(w, account, msgs);
      if sent.Done? then
        SetLink(w, i, l.(packets := l.packets[1..], acks := l.acks + [Returning(packet, response.ack)]))
        .(contracts := sent.contracts, relays := w.relays + [Relay(l.b, account)])
      else
        var r := B.Reply(w.bState, B.RECEIVE_DISPATCH_ID, B.SubErr("execution failed"), w.valid);
        if r.Err? || r.value.1.None? then w
        else SetLink(w, i, l.(packets := l.packets[1..], acks := l.acks + [Returning(packet, r.value.1.value)]))
             .(bState := r.value.0)
  }

  /** An acknowledgement the contract rejects stays in flight. */
  function AcknowledgeA(w: World, i: nat, now: nat): World
    requires i < |w.links| && w.links[i].acks != []
  {
    var l := w.links[i];
    var r := A.PacketAck(w.aAccounts, now, l.a, l.acks[0].packet, l.acks[0].ack);
    if r.Err? then w else SetLink(w, i, l.(acks := l.acks[1..])).(aAccounts := r.value)
  }

  ghost predicate FreshIds(w: World, a: Channel, b: Channel) {
    forall l | l in w.links :: l.a != a && l.b != b
  }

  ghost function FindLink(w: World, a: Channel): Option<nat> {
    if i: nat :| i < |w.links| && w.links[i].a == a then Some(i) else None
  }

  /** A step of the two chains; an event that is not enabled, or whose transaction fails, changes nothing. */
  ghost function Step(w: World, e: Event): World {
    match e
    case OpenInit(side, a, b, order, version) =>
      if !FreshIds(w, a, b) || ChannelOpen(order, version, None).Err? then w
      else w.(links := w.links + [WithEnd(Link(a, b, side, order, version, Absent, Absent, [], []), side, Init)])
    case OpenTry(i, counterpartyVersion) =>
      if i >= |w.links| then w else
      var l := w.links[i];
      var side := Opposite(l.initiator);
      if EndOf(l, side) != Absent || counterpartyVersion != l.version
         || ChannelOpen(l.order, l.version, Some(counterpartyVersion)).Err? then w
      else SetLink(w, i, WithEnd(l, side, TryOpen))
    case Connect(i, side, address) =>
      if i >= |w.links| || !CanConnect(w.links[i], side) then w
      else if side == SideA then ConnectA(w, i) else ConnectB(w, i, address)
    case Close(i, side, balance, sendSucceeds) =>
      if i >= |w.links| || EndOf(w.links[i], side) in {Absent, Closed} then w
      else if side == SideA then
        SetLink(w, i, w.links[i].(aEnd := Closed)).(aAccounts := A.Disconnected(w.aAccounts, w.links[i].a))
      else CloseB(w, i, balance, sendSucceeds)
    case Receive(i, balance) =>
      if i >= |w.links| || w.links[i].bEnd != Open || w.links[i].packets == [] then w else ReceiveB(w, i, balance)
    case Acknowledge(i, now) =>
      if i >= |w.links| || w.links[i].aEnd != Open || w.links[i].acks == [] then w else AcknowledgeA(w, i, now)
    case Timeout(i) =>
      if i >= |w.links| || w.links[i].packets == [] then w
      else SetLink(w, i, w.links[i].(aEnd := Closed, packets := []))
    case UpdateAdmin(sender, admin) => if sender == w.admin then w.(admin := admin) else w
    case Send(sender, channel, packet) =>
      var r := A.SendPacket(w.admin, w.aAccounts, sender, channel, packet);
      var at := FindLink(w, channel);
      if r.Err? || at.None? || w.links[at.value].aEnd != Open then w
      else SetLink(w, at.value, w.links[at.value].(packets := w.links[at.value].packets + [r.value]))
    case SendFunds(funds, channel) =>
      var r := A.SendFunds(w.aAccounts, funds, channel);
      if r.Err? then w else w.(transfers := w.transfers + [Transfer(channel, r.value)])
    case CallReflect(sender, target, msg) =>
      if sender == w.self then w else
      var r := Reflect.Execute(w.contracts, sender, target, msg);
      if r.Failed? then w else w.(contracts := r.contracts)
    case CreateReflect(sender, address) =>
      if sender == w.self then w else
      var r := Reflect.Instantiate(w.contracts, sender, address);
      if r.Failed? then w else w.(contracts := r.contracts)
  }

  ghost function Run(w: World, es: seq<Event>): World
    decreases |es|
  {
    if es == [] then w else Run(Step(w, es[0]), es[1..])
  }

  /** Both contracts just instantiated; other reflect accounts and foreign contracts may exist. */
  ghost predicate Initial(w: World) {
    && w.aAccounts == map[] && w.bState == B.State(map[], None)
    && w.links == [] && w.registered == map[] && w.transfers == [] && w.relays == []
    && w.self in w.contracts.used && w.self !in w.contracts.owners
    && w.contracts.owners.Keys <= w.contracts.used && w.self !in w.contracts.foreign
  }
}
