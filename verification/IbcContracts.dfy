/** The reflect account contract: it relays messages for its current owner. `Contracts` is the part of chain
    B that reflect calls can touch: which addresses are reflect accounts, and who owns each. */
module Reflect {
  import opened Wrappers

  type Addr = string

  /** What a contract is asked to send. `Other` is a message to a chain module; `ok` is the outcome the chain
      gives it. `InstantiateReflect` names the address the chain will assign. `CallForeign` calls a contract with
      other code, which succeeds or not and in turn sends any messages under its own address. */
  datatype CosmosMsg =
    | Other(data: string, ok: bool)
    | InstantiateReflect(at: Addr)
    | ExecuteReflect(target: Addr, msg: ExecuteMsg)
    | CallForeign(at: Addr, ok: bool, subs: seq<SubMsg>)

  /** A submessage and whether its failure is handed to the reply handler. */
  datatype SubMsg = SubMsg(msg: CosmosMsg, replyOnError: bool)

  /** `newOwner` is `None` when the given text is not a valid address. */
  datatype ExecuteMsg =
    | ReflectMsg(msgs: seq<CosmosMsg>)
    | ReflectSubMsg(subs: seq<SubMsg>)
    | ChangeOwner(newOwner: Option<Addr>)

  datatype ReflectError =
    | NotCurrentOwner(expected: Addr, actual: Addr)
    | MessagesEmpty
    | InvalidAddress
    | NoSuchContract
    | Refused

  datatype Outcome = Done(contracts: Contracts) | Failed(error: ReflectError)

  /** Reflect accounts with their owners, the addresses in use, and the addresses of contracts with other code. */
  datatype Contracts = Contracts(owners: map<Addr, Addr>, used: set<Addr>, foreign: set<Addr>)

  /** Addresses are assigned by the chain and never assigned twice. */
  function Instantiate(c: Contracts, sender: Addr, at: Addr): Outcome {
    if at in c.used then Failed(Refused)
    else Done(c.(owners := c.owners[at := sender], used := c.used + {at}))
  }

  function Execute(c: Contracts, sender: Addr, target: Addr, msg: ExecuteMsg): Outcome
    decreases msg, 1
  {
    if target !in c.owners then Failed(NoSuchContract)
    else if sender != c.owners[target] then Failed(NotCurrentOwner(c.owners[target], sender))
    else
      match msg
      case ReflectMsg(msgs) => if msgs == [] then Failed(MessagesEmpty) else SendAll(c, target, msgs)
      case ReflectSubMsg(subs) => if subs == [] then Failed(MessagesEmpty) else SendSubs(c, target, subs)
      case ChangeOwner(newOwner) =>
        if newOwner.None? then Failed(InvalidAddress)
        else Done(c.(owners := c.owners[target := newOwner.value]))
  }

  function SendOne(c: Contracts, sender: Addr, m: CosmosMsg): Outcome
    decreases m, 1
  {
    match m
    case Other(_, ok) => if ok then Done(c) else Failed(Refused)
    case InstantiateReflect(at) => Instantiate(c, sender, at)
    case ExecuteReflect(target, msg) => Execute(c, sender, target, msg)
    case CallForeign(at, ok, subs) => if at !in c.foreign || !ok then Failed(Refused) else SendSubs(c, at, subs)
  }

  function SendAll(c: Contracts, sender: Addr, msgs: seq<CosmosMsg>): Outcome
    decreases msgs, 0
  {
    if msgs == [] then Done(c)
    else
      var r := SendOne(c, sender, msgs[0]);
      if r.Failed? then r else SendAll(r.contracts, sender, msgs[1..])
  }

  /** A failing submessage is undone; it fails its parent unless the reply handler takes the error. */
  function SendSubs(c: Contracts, sender: Addr, subs: seq<SubMsg>): Outcome
    decreases subs, 0
  {
    if subs == [] then Done(c)
    else
      var r := SendSub(c, sender, subs[0]);
      if r.Failed? && !subs[0].replyOnError then r
      else SendSubs(if r.Failed? then c else r.contracts, sender, subs[1..])
  }

  function SendSub(c: Contracts, sender: Addr, sub: SubMsg): Outcome
    decreases sub, 0
  {
    SendOne(c, sender, sub.msg)
  }
}

/** Packets and acknowledgements between the two contracts. */
module IbcMsg {
  import opened Wrappers
  import Reflect

  type Channel = string
  type Coins = seq<(string, nat)>

  datatype Order = Ordered | Unordered

  const IBC_VERSION := "ibc-reflect-v1"

  datatype Packet =
    | Dispatch(msgs: seq<Reflect.CosmosMsg>)
    | WhoAmI
    | Balances

  datatype Ack =
    | DispatchOk
    | WhoAmIOk(account: Reflect.Addr)
    | BalancesOk(account: Reflect.Addr, balances: Coins)
    | AckErr(error: string)

  /** Both contracts accept only ordered channels of their version. */
  function ChannelOpen(order: Order, version: string, counterparty: Option<string>): Result<()> {
    if order != Ordered then Err(Generic("Only supports ordered channels"))
    else if version != IBC_VERSION then Err(Generic("Must set version"))
    else if counterparty.Some? && counterparty.value != IBC_VERSION then Err(Generic("Counterparty version must match"))
    else Ok(())
  }
}

/** Chain A: the contract that controls remote accounts. */
module IbcReflectSend {
  import opened Wrappers
  import opened IbcMsg
  import Reflect

  datatype AccountData = AccountData(lastUpdate: nat, remoteAddr: Option<Reflect.Addr>, remoteBalance: Coins)

  const DEFAULT_ACCOUNT := AccountData(0, None, [])

  type Accounts = map<Channel, AccountData>

  const NO_ACCOUNT := Generic("no account to update")
  const REMOTE_CHANGED := Generic("remote account changed")
  const UNREADABLE := Generic("acknowledgement does not parse")

  /** A connected channel gets an account without a remote address; a closed one loses it. */
  function Connected(accounts: Accounts, channel: Channel): Accounts {
    accounts[channel := DEFAULT_ACCOUNT]
  }

  function Disconnected(accounts: Accounts, channel: Channel): Accounts {
    accounts - {channel}
  }

  function AcknowledgeWhoAmI(accounts: Accounts, caller: Channel, account: Reflect.Addr): Result<Accounts> {
    if caller !in accounts then Err(NO_ACCOUNT)
    else
      var acct := accounts[caller];
      Ok(accounts[caller := if acct.remoteAddr.None? then acct.(remoteAddr := Some(account)) else acct])
  }

  function AcknowledgeBalances(accounts: Accounts, now: nat, caller: Channel, account: Reflect.Addr, balances: Coins)
    : Result<Accounts>
  {
    if caller !in accounts then Err(NO_ACCOUNT)
    else
      var acct := accounts[caller];
      if acct.remoteAddr.Some? && acct.remoteAddr.value != account then Err(REMOTE_CHANGED)
      else Ok(accounts[caller := AccountData(now, Some(account), balances)])
  }

  /** The acknowledgement is read according to the packet that was sent. */
  function PacketAck(accounts: Accounts, now: nat, caller: Channel, packet: Packet, ack: Ack): Result<Accounts> {
    match packet
    case Dispatch(_) => if ack.DispatchOk? || ack.AckErr? then Ok(accounts) else Err(UNREADABLE)
    case WhoAmI =>
      if ack.WhoAmIOk? then AcknowledgeWhoAmI(accounts, caller, ack.account)
      else if ack.AckErr? then Ok(accounts)
      else Err(UNREADABLE)
    case Balances =>
      if ack.BalancesOk? then AcknowledgeBalances(accounts, now, caller, ack.account, ack.balances)
      else if ack.AckErr? then Ok(accounts)
      else Err(UNREADABLE)
  }

  /** `handle_send_msgs` and `handle_check_remote_balance`: only the admin, only on a registered channel. */
  function SendPacket(admin: string, accounts: Accounts, sender: string, channel: Channel, packet: Packet)
    : Result<Packet>
  {
    if sender != admin then Err(Generic("Only admin may send messages"))
    else if channel !in accounts then Err(NotFound)
    else Ok(packet)
  }

  /** `handle_send_funds`: anyone, with exactly one coin, to the stored remote address. */
  function SendFunds(accounts: Accounts, funds: Coins, channel: Channel): Result<Reflect.Addr> {
    if funds == [] then Err(Generic("you must send the coins you wish to ibc transfer"))
    else if |funds| > 1 then Err(Generic("you can only ibc transfer one coin"))
    else if channel !in accounts then Err(NotFound)
    else if accounts[channel].remoteAddr.None? then Err(Generic("We don't have the remote address for this channel"))
    else Ok(accounts[channel].remoteAddr.value)
  }

  /** The contract as an object: the handlers that write its `accounts`. */
  class Contract {
    var admin: string
    var accounts: Accounts

    constructor (sender: string)
      ensures admin == sender && accounts == map[]
    {
      admin := sender;
      accounts := map[];
    }

    method ChannelConnect(channel: Channel) returns (packet: Packet)
      modifies this`accounts
      ensures accounts == Connected(old(accounts), channel) && packet == WhoAmI
    {
      accounts := accounts[channel := DEFAULT_ACCOUNT];
      packet := WhoAmI;
    }

    method ChannelClose(channel: Channel)
      modifies this`accounts
      ensures accounts == Disconnected(old(accounts), channel)
    {
      accounts := accounts - {channel};
    }

    method IbcPacketAck(now: nat, caller: Channel, packet: Packet, ack: Ack) returns (r: Result<()>)
      modifies this`accounts
      ensures var spec := PacketAck(old(accounts), now, caller, packet, ack);
              if spec.Ok? then r == Ok(()) && accounts == spec.value
              else r == Err(spec.error) && accounts == old(accounts)
    {
      r := Ok(());
      if ack.AckErr? {
        return;
      }
      match packet {
        case Dispatch(_) =>
          if !ack.DispatchOk? { r := Err(UNREADABLE); }
        case WhoAmI =>
          if !ack.WhoAmIOk? { return Err(UNREADABLE); }
          if caller !in accounts { return Err(NO_ACCOUNT); }
          var acct := accounts[caller];
          if acct.remoteAddr.None? {
            acct := acct.(remoteAddr := Some(ack.account));
          }
          accounts := accounts[caller := acct];
        case Balances =>
          if !ack.BalancesOk? { return Err(UNREADABLE); }
          if caller !in accounts { return Err(NO_ACCOUNT); }
          var remote := accounts[caller].remoteAddr;
          if remote.Some? && remote.value != ack.account { return Err(REMOTE_CHANGED); }
          accounts := accounts[caller := AccountData(now, Some(ack.account), ack.balances)];
      }
    }
  }
}

/** Chain B: the contract that gives every channel its own reflect account. */
module IbcReflect {
  import opened Wrappers
  import opened IbcMsg
  import Reflect

  datatype State = State(accounts: map<Channel, Reflect.Addr>, pending: Option<Channel>)

  datatype Attribute = Attribute(key: string, value: string)
  datatype Event = Event(ty: string, attributes: seq<Attribute>)

  datatype SubMsgResult = SubOk(events: seq<Event>) | SubErr(error: string)

  const RECEIVE_DISPATCH_ID := 1234
  const INIT_CALLBACK_ID := 7890
  const INVALID_ADDRESS := Generic("invalid address")

  function FindAttribute(attrs: seq<Attribute>): Option<string> {
    if attrs == [] then None
    else if attrs[0].key == "_contract_address" then Some(attrs[0].value)
    else FindAttribute(attrs[1..])
  }

  function ParseContract(events: seq<Event>): Option<string> {
    if events == [] then None
    else if events[0].ty == "instantiate" then FindAttribute(events[0].attributes)
    else ParseContract(events[1..])
  }

  /** Connecting only notes the channel; the account arrives with the reply. */
  function ChannelConnect(s: State, channel: Channel): State {
    s.(pending := Some(channel))
  }

  function InitCallback(s: State, events: seq<Event>, valid: string -> bool): Result<State> {
    if s.pending.None? then Err(NotFound)
    else
      var addr := ParseContract(events);
      if addr.None? then Err(Generic("No _contract_address found in callback events"))
      else if !valid(addr.value) then Err(INVALID_ADDRESS)
      else if s.pending.value in s.accounts then Err(Generic("Cannot register over an existing channel"))
      else Ok(State(s.accounts[s.pending.value := addr.value], None))
  }

  /** The reply entry point: the new state, and the acknowledgement data it sets. `valid` is the chain's
      `addr_validate`. */
  function Reply(s: State, id: int, result: SubMsgResult, valid: string -> bool): Result<(State, Option<Ack>)> {
    if id == RECEIVE_DISPATCH_ID && result.SubErr? then Ok((s, Some(AckErr(result.error))))
    else if id == INIT_CALLBACK_ID && result.SubOk? then
      var s' :- InitCallback(s, result.events, valid);
      Ok((s', None))
    else Err(Generic("invalid reply id or result"))
  }

  /** Closing forgets the account and empties it: the messages it is asked to reflect. */
  function ChannelClose(s: State, channel: Channel, balance: Coins, sendSucceeds: bool)
    : Result<(State, Reflect.Addr, seq<Reflect.CosmosMsg>)>
  {
    if channel !in s.accounts then Err(NotFound)
    else Ok((s.(accounts := s.accounts - {channel}), s.accounts[channel],
             if balance == [] then [] else [Reflect.Other("send all to ibc-reflect", sendSucceeds)]))
  }

  /** A response to a packet: the acknowledgement, and for a dispatch the account that must relay. */
  datatype Response = Response(ack: Ack, relay: Option<(Reflect.Addr, seq<Reflect.CosmosMsg>)>)

  /** Every application error becomes an error acknowledgement. */
  function PacketReceive(s: State, caller: Channel, packet: Packet, balance: Coins): Response {
    if caller !in s.accounts then Response(AckErr("invalid packet"), None)
    else
      var account := s.accounts[caller];
      match packet
      case Dispatch(msgs) => Response(DispatchOk, Some((account, msgs)))
      case WhoAmI => Response(WhoAmIOk(account), None)
      case Balances => Response(BalancesOk(account, balance), None)
  }

  class Contract {
    var accounts: map<Channel, Reflect.Addr>
    var pending: Option<Channel>

    constructor ()
      ensures View() == State(map[], None)
    {
      accounts := map[];
      pending := None;
    }

    function View(): State
      reads this
    {
      State(accounts, pending)
    }

    method IbcChannelConnect(channel: Channel)
      modifies this
      ensures View() == ChannelConnect(old(View()), channel)
    {
      pending := Some(channel);
    }

    /** On an error the host restores what was written before it. */
    method HandleInitCallback(events: seq<Event>, valid: string -> bool) returns (r: Result<()>)
      modifies this
      ensures var spec := InitCallback(old(View()), events, valid);
              if spec.Ok? then r == Ok(()) && View() == spec.value else r == Err(spec.error)
      ensures old(pending).Some? ==> pending == None
    {
      if pending.None? { return Err(NotFound); }
      var id := pending.value;
      pending := None;
      var addr := ParseContract(events);
      if addr.None? { return Err(Generic("No _contract_address found in callback events")); }
      if !valid(addr.value) { return Err(INVALID_ADDRESS); }
      if id in accounts { return Err(Generic("Cannot register over an existing channel")); }
      accounts := accounts[id := addr.value];
      return Ok(());
    }

    method IbcChannelClose(channel: Channel, balance: Coins, sendSucceeds: bool)
      returns (r: Result<(Reflect.Addr, seq<Reflect.CosmosMsg>)>)
      modifies this
      ensures var spec := ChannelClose(old(View()), channel, balance, sendSucceeds);
              if spec.Ok? then r == Ok((spec.value.1, spec.value.2)) && View() == spec.value.0
              else r == Err(spec.error) && View() == old(View())
    {
      if channel !in accounts { return Err(NotFound); }
      var account := accounts[channel];
      accounts := accounts - {channel};
      var msgs := [];
      if balance != [] {
        msgs := [Reflect.Other("send all to ibc-reflect", sendSucceeds)];
      }
      return Ok((account, msgs));
    }
  }
}
