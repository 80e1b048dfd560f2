/** Safety of the two-chain protocol over every run: what A believes about a channel's remote account is what
    B registered, it never changes, and every account obeys only its own channel. */
module IbcProofs {
  import opened Wrappers
  import opened IbcMsg
  import opened IbcProtocol
  import Reflect
  import A = IbcReflectSend
  import B = IbcReflect

  // ----- calls between reflect accounts -----

  /** The bookkeeping of chain B: `self` is in use but is neither a reflect account nor a foreign contract. */
  ghost predicate Sane(c: Reflect.Contracts, self: Reflect.Addr) {
    self in c.used && self !in c.owners && c.owners.Keys <= c.used && self !in c.foreign
  }

  /** No account owned by `self` is lost or handed over, and nothing becomes unused. */
  ghost predicate Guarded(c: Reflect.Contracts, d: Reflect.Contracts, self: Reflect.Addr) {
    && Sane(d, self)
    && c.used <= d.used
    && forall x | x in c.owners && c.owners[x] == self :: x in d.owners && d.owners[x] == self
  }

  /** The failure is not an ownership failure of a call made by `self`. */
  ghost predicate NotOurs(r: Reflect.Outcome, self: Reflect.Addr) {
    r.Failed? && r.error.NotCurrentOwner? ==> r.error.actual != self
  }

  ghost predicate SafeOutcome(c: Reflect.Contracts, r: Reflect.Outcome, self: Reflect.Addr) {
    (r.Done? ==> Guarded(c, r.contracts, self)) && NotOurs(r, self)
  }

  lemma {:induction false} ExecuteSafe(c: Reflect.Contracts, self: Reflect.Addr, sender: Reflect.Addr,
                                       target: Reflect.Addr, msg: Reflect.ExecuteMsg)
    requires Sane(c, self)
    requires sender != self || (msg.ReflectMsg? && target in c.owners && c.owners[target] == self)
    ensures SafeOutcome(c, Reflect.Execute(c, sender, target, msg), self)
    decreases msg, 1
  {
    if target in c.owners && sender == c.owners[target] {
      match msg
      case ReflectMsg(msgs) => SendAllSafe(c, self, target, msgs);
      case ReflectSubMsg(subs) => SendSubsSafe(c, self, target, subs);
      case ChangeOwner(_) =>
    }
  }

  lemma {:induction false} SendOneSafe(c: Reflect.Contracts, self: Reflect.Addr, sender: Reflect.Addr,
                                       m: Reflect.CosmosMsg)
    requires Sane(c, self) && sender != self
    ensures SafeOutcome(c, Reflect.SendOne(c, sender, m), self)
    decreases m, 1
  {
    if m.ExecuteReflect? {
      ExecuteSafe(c, self, sender, m.target, m.msg);
    } else if m.CallForeign? && m.at in c.foreign {
      SendSubsSafe(c, self, m.at, m.subs);
    }
  }

  lemma {:induction false} SendAllSafe(c: Reflect.Contracts, self: Reflect.Addr, sender: Reflect.Addr,
                                       msgs: seq<Reflect.CosmosMsg>)
    requires Sane(c, self) && sender != self
    ensures SafeOutcome(c, Reflect.SendAll(c, sender, msgs), self)
    decreases msgs, 0
  {
    if msgs != [] {
      SendOneSafe(c, self, sender, msgs[0]);
      var r := Reflect.SendOne(c, sender, msgs[0]);
      if r.Done? {
        SendAllSafe(r.contracts, self, sender, msgs[1..]);
      }
    }
  }

  lemma {:induction false} SendSubsSafe(c: Reflect.Contracts, self: Reflect.Addr, sender: Reflect.Addr,
                                        subs: seq<Reflect.SubMsg>)
    requires Sane(c, self) && sender != self
    ensures SafeOutcome(c, Reflect.SendSubs(c, sender, subs), self)
    decreases subs, 0
  {
    if subs != [] {
      SendSubSafe(c, self, sender, subs[0]);
      var r := Reflect.SendSub(c, sender, subs[0]);
      if r.Done? {
        SendSubsSafe(r.contracts, self, sender, subs[1..]);
      } else if subs[0].replyOnError {
        SendSubsSafe(c, self, sender, subs[1..]);
      }
    }
  }

  lemma {:induction false} SendSubSafe(c: Reflect.Contracts, self: Reflect.Addr, sender: Reflect.Addr,
                                       sub: Reflect.SubMsg)
    requires Sane(c, self) && sender != self
    ensures SafeOutcome(c, Reflect.SendSub(c, sender, sub), self)
    decreases sub, 0
  {
    SendOneSafe(c, self, sender, sub.msg);
  }

  // ----- the invariant -----

  ghost predicate Registered(w: World, l: Link, account: Reflect.Addr) {
    l.b in w.registered && w.registered[l.b] == account
  }

  /** An acknowledgement fits its packet, and an account it names is the registered one. */
  ghost predicate AckOk(w: World, l: Link, r: Returning) {
    r.ack.AckErr? ||
    match r.packet
    case Dispatch(_) => r.ack.DispatchOk?
    case WhoAmI => r.ack.WhoAmIOk? && Registered(w, l, r.ack.account)
    case Balances => r.ack.BalancesOk? && Registered(w, l, r.ack.account)
  }

  ghost predicate LinkOk(w: World, l: Link) {
    && l.order == Ordered && l.version == IBC_VERSION
    && (l.aEnd in {Absent, Init, TryOpen} ==> l.a !in w.aAccounts)
    && (l.aEnd == Open ==> l.a in w.aAccounts)
    && (l.a in w.aAccounts && w.aAccounts[l.a].remoteAddr.Some? ==> Registered(w, l, w.aAccounts[l.a].remoteAddr.value))
    && (l.bEnd in {Absent, Init, TryOpen} ==> l.b !in w.registered)
    && (l.bEnd == Open ==> l.b in w.bState.accounts)
    && (l.bEnd == Closed ==> l.b !in w.bState.accounts)
    && forall r | r in l.acks :: AckOk(w, l, r)
  }

  ghost predicate DistinctIds(w: World) {
    forall i, j | 0 <= i < j < |w.links| :: w.links[i].a != w.links[j].a && w.links[i].b != w.links[j].b
  }

  ghost predicate LinksOk(w: World) {
    forall i | 0 <= i < |w.links| :: LinkOk(w, w.links[i])
  }

  ghost predicate KnownA(w: World, a: Channel) {
    exists l :: l in w.links && l.a == a
  }

  ghost predicate KnownB(w: World, b: Channel) {
    exists l :: l in w.links && l.b == b
  }

  /** A logged transfer went to the account registered for its channel. */
  ghost predicate TransferOk(w: World, t: Transfer) {
    exists l :: l in w.links && l.a == t.channel && Registered(w, l, t.to)
  }

  ghost predicate RelayOk(w: World, r: Relay) {
    r.channel in w.registered && w.registered[r.channel] == r.account
  }

  /** B's side: nothing pending, registered accounts are distinct and still owned by the contract. */
  ghost predicate OwnedAndDistinct(w: World) {
    && w.bState.pending == None
    && Sane(w.contracts, w.self)
    && (forall b | b in w.bState.accounts :: b in w.registered && w.registered[b] == w.bState.accounts[b])
    && (forall b | b in w.registered ::
          w.registered[b] in w.contracts.owners && w.contracts.owners[w.registered[b]] == w.self)
    && (forall b, c | b in w.registered && c in w.registered && b != c :: w.registered[b] != w.registered[c])
  }

  ghost predicate AccountsOk(w: World) {
    OwnedAndDistinct(w) && forall b | b in w.registered :: KnownB(w, b)
  }

  ghost predicate Inv(w: World) {
    && DistinctIds(w) && LinksOk(w) && AccountsOk(w)
    && (forall a | a in w.aAccounts :: KnownA(w, a))
    && (forall t | t in w.transfers :: TransferOk(w, t))
    && (forall r | r in w.relays :: RelayOk(w, r))
  }

  /** What every step keeps: identifiers stay, registrations stay, an address once learnt is not replaced, and
      a closed and forgotten channel stays so. */
  ghost predicate Kept(w: World, w': World) {
    && |w.links| <= |w'.links|
    && (forall b | b in w.registered :: b in w'.registered && w'.registered[b] == w.registered[b])
    && forall i | 0 <= i < |w.links| :: LinkKept(w, w', w.links[i], w'.links[i])
  }

  ghost predicate Gone(w: World, l: Link) {
    l.aEnd == Closed && l.a !in w.aAccounts
  }

  ghost predicate LinkKept(w: World, w': World, l: Link, l': Link) {
    && l'.a == l.a && l'.b == l.b
    && (Gone(w, l) ==> Gone(w', l'))
    && (l.a in w.aAccounts && w.aAccounts[l.a].remoteAddr.Some? ==>
          Gone(w', l') || (l.a in w'.aAccounts && w'.aAccounts[l.a].remoteAddr == w.aAccounts[l.a].remoteAddr))
  }

  // ----- framing -----

  /** Two worlds agree on everything a link's condition reads. */
  ghost predicate SameFor(w: World, w': World, l: Link) {
    && (l.a in w.aAccounts <==> l.a in w'.aAccounts)
    && (l.a in w.aAccounts ==> w'.aAccounts[l.a] == w.aAccounts[l.a])
    && (l.b in w.registered <==> l.b in w'.registered)
    && (l.b in w.registered ==> w'.registered[l.b] == w.registered[l.b])
    && (l.b in w.bState.accounts <==> l.b in w'.bState.accounts)
  }

  lemma LinkFrame(w: World, w': World, l: Link)
    requires LinkOk(w, l) && SameFor(w, w', l)
    ensures LinkOk(w', l) && LinkKept(w, w', l, l)
  {
    forall r | r in l.acks ensures AckOk(w', l, r) {
      assert AckOk(w, l, r);
    }
  }

  ghost predicate Extends(r: map<Channel, Reflect.Addr>, r': map<Channel, Reflect.Addr>) {
    forall b | b in r :: b in r' && r'[b] == r[b]
  }

  /** A step that touches link i alone: what remains to show is that link's own condition and B's side. */
  lemma LinkStep(w: World, w': World, i: nat)
    requires Inv(w) && i < |w.links| == |w'.links|
    requires forall j | 0 <= j < |w.links| && j != i :: w'.links[j] == w.links[j] && SameFor(w, w', w.links[j])
    requires LinkOk(w', w'.links[i]) && LinkKept(w, w', w.links[i], w'.links[i])
    requires Extends(w.registered, w'.registered)
    requires w'.aAccounts.Keys <= w.aAccounts.Keys + {w.links[i].a}
    requires w'.transfers == w.transfers
    requires forall r | r in w'.relays :: r in w.relays || RelayOk(w', r)
    requires AccountsKept(w, w', w.links[i].b)
    ensures Inv(w') && Kept(w, w')
  {
    forall j | 0 <= j < |w.links| ensures LinkOk(w', w'.links[j]) && LinkKept(w, w', w.links[j], w'.links[j]) {
      if j != i {
        LinkFrame(w, w', w.links[j]);
      }
    }
    Carry(w, w');
    forall a | a in w'.aAccounts ensures KnownA(w', a) {
      if a == w.links[i].a {
        assert w'.links[i] in w'.links;
      } else {
        assert KnownA(w, a);
      }
    }
    forall r | r in w'.relays ensures RelayOk(w', r) {
      if r in w.relays {
        assert RelayOk(w, r);
      }
    }
    assert w'.links[i] in w'.links;
    assert KnownB(w', w.links[i].b);
    forall b | b in w'.registered ensures KnownB(w', b) {
      if b != w.links[i].b {
        assert b in w.registered;
      }
    }
  }

  /** B's side without the clause about links; only channel b may newly be registered. */
  ghost predicate AccountsKept(w: World, w': World, b: Channel) {
    OwnedAndDistinct(w') && w'.registered.Keys <= w.registered.Keys + {b}
  }

  /** Facts about a channel survive as long as the links keep their identifiers and registrations stay. */
  lemma Carry(w: World, w': World)
    requires |w.links| <= |w'.links| && Extends(w.registered, w'.registered)
    requires forall j | 0 <= j < |w.links| :: w'.links[j].a == w.links[j].a && w'.links[j].b == w.links[j].b
    ensures forall a :: KnownA(w, a) ==> KnownA(w', a)
    ensures forall b :: KnownB(w, b) ==> KnownB(w', b)
    ensures forall t :: TransferOk(w, t) ==> TransferOk(w', t)
  {
    forall l | l in w.links ensures exists m :: m in w'.links && m.a == l.a && m.b == l.b {
      var j :| 0 <= j < |w.links| && w.links[j] == l;
      assert w'.links[j] in w'.links;
    }
    forall t | TransferOk(w, t) ensures TransferOk(w', t) {
      var l :| l in w.links && l.a == t.channel && Registered(w, l, t.to);
      var m :| m in w'.links && m.a == l.a && m.b == l.b;
      assert Registered(w', m, t.to);
    }
  }

  lemma FreshUnknown(w: World, a: Channel, b: Channel)
    requires Inv(w) && FreshIds(w, a, b)
    ensures a !in w.aAccounts && b !in w.registered
  {
    assert !KnownA(w, a) && !KnownB(w, b);
  }

  lemma OtherIds(w: World, i: nat, j: nat)
    requires DistinctIds(w) && i < |w.links| && j < |w.links| && i != j
    ensures w.links[i].a != w.links[j].a && w.links[i].b != w.links[j].b
  {
    if i < j {
    } else {
      assert 0 <= j < i < |w.links|;
    }
  }

  lemma SameId(w: World, i: nat, j: nat)
    requires DistinctIds(w) && i < |w.links| && j < |w.links| && w.links[i].a == w.links[j].a
    ensures i == j
  {
    if i != j {
      OtherIds(w, i, j);
    }
  }

  /** Chain A's part of a step: link i and its entry in A's accounts. */
  lemma TouchA(w: World, l': Link, i: nat, accounts: A.Accounts)
    requires Inv(w) && i < |w.links|
    requires accounts.Keys <= w.aAccounts.Keys + {w.links[i].a}
    requires accounts - {w.links[i].a} == w.aAccounts - {w.links[i].a}
    requires LinkOk(w.(aAccounts := accounts), l') && LinkKept(w, w.(aAccounts := accounts), w.links[i], l')
    ensures var w' := SetLink(w, i, l').(aAccounts := accounts); Inv(w') && Kept(w, w')
  {
    var w' := SetLink(w, i, l').(aAccounts := accounts);
    LinkFrame(w.(aAccounts := accounts), w', l');
    var a := w.links[i].a;
    forall x | x != a
      ensures x in accounts <==> x in w.aAccounts
      ensures x in accounts ==> accounts[x] == w.aAccounts[x]
    {
      assert x in accounts - {a} <==> x in accounts;
      assert x in w.aAccounts - {a} <==> x in w.aAccounts;
      if x in accounts {
        assert (accounts - {a})[x] == (w.aAccounts - {a})[x];
      }
    }
    forall j | 0 <= j < |w.links| && j != i ensures w'.links[j] == w.links[j] && SameFor(w, w', w.links[j]) {
      OtherIds(w, i, j);
    }
    LinkStep(w, w', i);
  }

  /** Chain B's part of a step: link i, its registration, and the contracts of the chain. */
  ghost predicate TouchesB(w: World, w': World, i: nat)
    requires i < |w.links|
  {
    && |w.links| == |w'.links|
    && w' == SetLink(w, i, w'.links[i]).(bState := w'.bState, contracts := w'.contracts,
                                         registered := w'.registered, relays := w'.relays)
    && (forall x | x != w.links[i].b ::
          && (x in w'.registered <==> x in w.registered)
          && (x in w.bState.accounts <==> x in w'.bState.accounts))
    && Extends(w.registered, w'.registered)
    && LinkOk(w', w'.links[i]) && LinkKept(w, w', w.links[i], w'.links[i])
    && (forall r | r in w'.relays :: r in w.relays || RelayOk(w', r))
    && AccountsKept(w, w', w.links[i].b)
  }

  lemma TouchB(w: World, w': World, i: nat)
    requires Inv(w) && i < |w.links| && TouchesB(w, w', i)
    ensures Inv(w') && Kept(w, w')
  {
    forall j | 0 <= j < |w.links| && j != i ensures w'.links[j] == w.links[j] && SameFor(w, w', w.links[j]) {
      OtherIds(w, i, j);
    }
    LinkStep(w, w', i);
  }

  /** Guarded changes to the contracts of chain B, with registrations only read, keep B's side. */
  lemma BSideKept(w: World, w': World, b: Channel)
    requires OwnedAndDistinct(w) && w'.self == w.self && w'.registered == w.registered && w'.bState.pending == None
    requires Guarded(w.contracts, w'.contracts, w.self)
    requires forall c | c in w'.bState.accounts ::
               c in w.bState.accounts && w'.bState.accounts[c] == w.bState.accounts[c]
    ensures AccountsKept(w, w', b)
  {
  }

  // ----- steps -----

  lemma NewLinkKeeps(w: World, l: Link)
    requires Inv(w) && FreshIds(w, l.a, l.b)
    requires l.order == Ordered && l.version == IBC_VERSION && l.acks == []
    requires l.aEnd in {Absent, Init} && l.bEnd in {Absent, Init}
    ensures var w' := w.(links := w.links + [l]); Inv(w') && Kept(w, w')
  {
    var w' := w.(links := w.links + [l]);
    forall j | 0 <= j < |w.links| ensures LinkOk(w', w.links[j]) && LinkKept(w, w', w.links[j], w.links[j]) {
      LinkFrame(w, w', w.links[j]);
    }
    FreshUnknown(w, l.a, l.b);
    Carry(w, w');
    forall r | r in w'.relays ensures RelayOk(w', r) {
      assert RelayOk(w, r);
    }
  }

  lemma OpenInitKeeps(w: World, side: Side, a: Channel, b: Channel, order: Order, version: string)
    requires Inv(w)
    ensures var w' := Step(w, OpenInit(side, a, b, order, version)); Inv(w') && Kept(w, w')
  {
    Unmoved(w);
    if FreshIds(w, a, b) && ChannelOpen(order, version, None).Ok? {
      NewLinkKeeps(w, WithEnd(Link(a, b, side, order, version, Absent, Absent, [], []), side, Init));
    }
  }

  lemma TryEffect(w: World, l: Link, side: Side)
    requires LinkOk(w, l) && EndOf(l, side) == Absent
    ensures LinkOk(w, WithEnd(l, side, TryOpen)) && LinkKept(w, w, l, WithEnd(l, side, TryOpen))
  {
    forall r | r in l.acks ensures AckOk(w, WithEnd(l, side, TryOpen), r) {
      assert AckOk(w, l, r);
    }
  }

  lemma OpenTryKeeps(w: World, i: nat, version: string)
    requires Inv(w)
    ensures var w' := Step(w, OpenTry(i, version)); Inv(w') && Kept(w, w')
  {
    Unmoved(w);
    if i < |w.links| {
      var l := w.links[i];
      var side := Opposite(l.initiator);
      if EndOf(l, side) == Absent {
        var l' := WithEnd(l, side, TryOpen);
        TryEffect(w, l, side);
        TouchA(w, l', i, w.aAccounts);
      }
    }
  }

  lemma ConnectAEffect(w: World, l: Link)
    requires LinkOk(w, l) && l.aEnd in {Init, TryOpen}
    ensures var w' := w.(aAccounts := A.Connected(w.aAccounts, l.a));
            var l' := l.(aEnd := Open, packets := l.packets + [WhoAmI]);
            LinkOk(w', l') && LinkKept(w, w', l, l')
  {
    var w', l' := w.(aAccounts := A.Connected(w.aAccounts, l.a)), l.(aEnd := Open, packets := l.packets + [WhoAmI]);
    forall r | r in l.acks ensures AckOk(w', l', r) {
      assert AckOk(w, l, r);
    }
  }

  lemma ConnectAKeeps(w: World, i: nat)
    requires Inv(w) && i < |w.links| && CanConnect(w.links[i], SideA)
    ensures Inv(ConnectA(w, i)) && Kept(w, ConnectA(w, i))
    ensures w.links[i].a !in w.aAccounts
  {
    var l := w.links[i];
    assert LinkOk(w, l);
    ConnectAEffect(w, l);
    TouchA(w, l.(aEnd := Open, packets := l.packets + [WhoAmI]), i, A.Connected(w.aAccounts, l.a));
  }

  lemma ParsesAddress(addr: Reflect.Addr)
    ensures B.ParseContract(InstantiateEvents(addr)) == Some(addr)
  {
  }

  lemma NewAccountKept(w: World, w': World, b: Channel, address: Reflect.Addr)
    requires OwnedAndDistinct(w) && w'.self == w.self && address !in w.contracts.used && b !in w.registered
    requires w'.contracts ==
             w.contracts.(owners := w.contracts.owners[address := w.self], used := w.contracts.used + {address})
    requires w'.bState == B.State(w.bState.accounts[b := address], None)
    requires w'.registered == w.registered[b := address]
    ensures AccountsKept(w, w', b)
  {
    assert forall c | c in w.registered :: w.registered[c] in w.contracts.owners.Keys;
    assert address !in w.contracts.owners.Keys && address != w.self;
  }

  /** B's end is open, with one fresh account, owned by the contract and registered for a channel that had none. */
  ghost predicate NewlyRegistered(w: World, w': World, i: nat, address: Reflect.Addr)
    requires i < |w.links|
  {
    var l := w.links[i];
    && address !in w.contracts.used && l.b !in w.bState.accounts
    && w' == SetLink(w, i, l.(bEnd := Open)).(
               bState := B.State(w.bState.accounts[l.b := address], None),
               contracts := w.contracts.(owners := w.contracts.owners[address := w.self],
                                         used := w.contracts.used + {address}),
               registered := w.registered[l.b := address])
  }

  lemma ConnectBShape(w: World, i: nat, address: Reflect.Addr)
    requires i < |w.links|
    ensures ConnectB(w, i, address) != w ==> NewlyRegistered(w, ConnectB(w, i, address), i, address)
  {
    ParsesAddress(address);
  }

  lemma ConnectBEffect(w: World, w': World, l: Link, address: Reflect.Addr)
    requires LinkOk(w, l) && l.bEnd in {Init, TryOpen}
    requires w'.aAccounts == w.aAccounts && w'.registered == w.registered[l.b := address]
    requires w'.bState.accounts == w.bState.accounts[l.b := address]
    ensures LinkOk(w', l.(bEnd := Open)) && LinkKept(w, w', l, l.(bEnd := Open))
  {
    forall r | r in l.acks ensures AckOk(w', l.(bEnd := Open), r) {
      assert AckOk(w, l, r);
    }
  }

  lemma RegisteredTouchesB(w: World, w': World, i: nat, address: Reflect.Addr)
    requires OwnedAndDistinct(w) && i < |w.links| && LinkOk(w, w.links[i]) && w.links[i].bEnd in {Init, TryOpen}
    requires NewlyRegistered(w, w', i, address)
    ensures TouchesB(w, w', i)
  {
    var l := w.links[i];
    ConnectBEffect(w, w', l, address);
    NewAccountKept(w, w', l.b, address);
  }

  lemma ConnectBKeeps(w: World, i: nat, address: Reflect.Addr)
    requires Inv(w) && i < |w.links| && CanConnect(w.links[i], SideB)
    ensures Inv(ConnectB(w, i, address)) && Kept(w, ConnectB(w, i, address))
    ensures ConnectB(w, i, address) != w ==> NewlyRegistered(w, ConnectB(w, i, address), i, address)
  {
    var w' := ConnectB(w, i, address);
    Unmoved(w);
    ConnectBShape(w, i, address);
    if w' != w {
      RegisteredTouchesB(w, w', i, address);
      TouchB(w, w', i);
    }
  }

  lemma CloseAEffect(w: World, l: Link)
    requires LinkOk(w, l)
    ensures var w', l' := w.(aAccounts := A.Disconnected(w.aAccounts, l.a)), l.(aEnd := Closed);
            LinkOk(w', l') && LinkKept(w, w', l, l')
  {
    var w', l' := w.(aAccounts := A.Disconnected(w.aAccounts, l.a)), l.(aEnd := Closed);
    forall r | r in l.acks ensures AckOk(w', l', r) {
      assert AckOk(w, l, r);
    }
  }

  lemma CloseAKeeps(w: World, i: nat)
    requires Inv(w) && i < |w.links|
    ensures var w' := SetLink(w, i, w.links[i].(aEnd := Closed))
                      .(aAccounts := A.Disconnected(w.aAccounts, w.links[i].a));
            Inv(w') && Kept(w, w')
  {
    var l := w.links[i];
    assert LinkOk(w, l);
    CloseAEffect(w, l);
    TouchA(w, l.(aEnd := Closed), i, A.Disconnected(w.aAccounts, l.a));
  }

  /** B's end is closed, its account forgotten, and every account left with its owner. */
  ghost predicate Forgotten(w: World, w': World, i: nat)
    requires i < |w.links|
  {
    var l := w.links[i];
    && l.b in w.bState.accounts
    && Guarded(w.contracts, w'.contracts, w.self)
    && w' == SetLink(w, i, l.(bEnd := Closed))
             .(bState := B.State(w.bState.accounts - {l.b}, None), contracts := w'.contracts)
  }

  lemma CloseShape(w: World, i: nat, balance: Coins, sendSucceeds: bool)
    requires Inv(w) && i < |w.links|
    ensures var w' := CloseB(w, i, balance, sendSucceeds); w' != w ==> Forgotten(w, w', i)
  {
    var l := w.links[i];
    var r := B.ChannelClose(w.bState, l.b, balance, sendSucceeds);
    if r.Ok? {
      ExecuteSafe(w.contracts, w.self, w.self, r.value.1, Reflect.ReflectMsg(r.value.2));
    }
  }

  lemma CloseBEffect(w: World, w': World, l: Link)
    requires LinkOk(w, l) && w'.aAccounts == w.aAccounts && w'.registered == w.registered
    requires w'.bState.accounts == w.bState.accounts - {l.b} && l.b in w.registered
    ensures LinkOk(w', l.(bEnd := Closed)) && LinkKept(w, w', l, l.(bEnd := Closed))
  {
    forall r | r in l.acks ensures AckOk(w', l.(bEnd := Closed), r) {
      assert AckOk(w, l, r);
    }
  }

  lemma ForgottenTouchesB(w: World, w': World, i: nat)
    requires OwnedAndDistinct(w) && i < |w.links| && LinkOk(w, w.links[i]) && Forgotten(w, w', i)
    ensures TouchesB(w, w', i)
  {
    var l := w.links[i];
    CloseBEffect(w, w', l);
    BSideKept(w, w', l.b);
  }

  lemma CloseBKeeps(w: World, i: nat, balance: Coins, sendSucceeds: bool)
    requires Inv(w) && i < |w.links|
    ensures Inv(CloseB(w, i, balance, sendSucceeds)) && Kept(w, CloseB(w, i, balance, sendSucceeds))
  {
    CloseShape(w, i, balance, sendSucceeds);
    Unmoved(w);
    var w' := CloseB(w, i, balance, sendSucceeds);
    if w' != w {
      ForgottenTouchesB(w, w', i);
      TouchB(w, w', i);
    }
  }

  /** B consumed one packet and queued one fitting acknowledgement, relaying at most through the account of
      the packet's own channel. */
  ghost predicate Received(w: World, w': World, i: nat)
    requires i < |w.links| && w.links[i].packets != []
  {
    var l := w.links[i];
    && l.b in w.bState.accounts
    && Guarded(w.contracts, w'.contracts, w.self)
    && (w'.relays == w.relays || w'.relays == w.relays + [Relay(l.b, w.bState.accounts[l.b])])
    && w' == w.(links := w'.links, contracts := w'.contracts, relays := w'.relays)
    && |w'.links| == |w.links|
    && w'.links == w.links[i := w'.links[i]]
    && exists ack ::
         && w'.links[i] == l.(packets := l.packets[1..], acks := l.acks + [Returning(l.packets[0], ack)])
         && AckOk(w, l, Returning(l.packets[0], ack))
  }

  /** What receiving a packet on an open channel does, case by case. */
  lemma ReceiveShape(w: World, i: nat, balance: Coins)
    requires Inv(w) && i < |w.links| && w.links[i].bEnd == Open && w.links[i].packets != []
    ensures Received(w, ReceiveB(w, i, balance), i)
  {
    var l := w.links[i];
    assert LinkOk(w, l);
    assert l.b in w.registered && w.registered[l.b] == w.bState.accounts[l.b];
    var ack := B.PacketReceive(w.bState, l.b, l.packets[0], balance).ack;
    assert AckOk(w, l, Returning(l.packets[0], ack));
    if l.packets[0].Dispatch? {
      ExecuteSafe(w.contracts, w.self, w.self, w.bState.accounts[l.b], Reflect.ReflectMsg(l.packets[0].msgs));
      assert AckOk(w, l, Returning(l.packets[0], AckErr("execution failed")));
    }
  }

  lemma ReceivedTouchesB(w: World, w': World, i: nat)
    requires OwnedAndDistinct(w) && i < |w.links| && LinkOk(w, w.links[i])
    requires w.links[i].packets != [] && Received(w, w', i)
    ensures TouchesB(w, w', i)
  {
    var l := w.links[i];
    forall r | r in w'.links[i].acks ensures AckOk(w', w'.links[i], r) {
      assert AckOk(w, l, r);
    }
    BSideKept(w, w', l.b);
  }

  lemma ReceiveKeeps(w: World, i: nat, balance: Coins)
    requires Inv(w) && i < |w.links| && w.links[i].bEnd == Open && w.links[i].packets != []
    ensures Inv(ReceiveB(w, i, balance)) && Kept(w, ReceiveB(w, i, balance))
  {
    ReceiveShape(w, i, balance);
    ReceivedTouchesB(w, ReceiveB(w, i, balance), i);
    TouchB(w, ReceiveB(w, i, balance), i);
  }

  /** Every acknowledgement that can be delivered is accepted: no missing account, no unreadable answer, and
      in particular never "remote account changed". */
  lemma AcknowledgeNeverFails(w: World, i: nat, now: nat)
    requires Inv(w) && i < |w.links| && w.links[i].aEnd == Open && w.links[i].acks != []
    ensures A.PacketAck(w.aAccounts, now, w.links[i].a, w.links[i].acks[0].packet, w.links[i].acks[0].ack).Ok?
  {
    var l := w.links[i];
    assert LinkOk(w, l) && AckOk(w, l, l.acks[0]);
  }

  /** The acknowledgement's effect on its own channel. */
  lemma AcknowledgeEffect(w: World, l: Link, now: nat)
    requires LinkOk(w, l) && l.aEnd == Open && l.acks != []
    ensures var r := A.PacketAck(w.aAccounts, now, l.a, l.acks[0].packet, l.acks[0].ack);
            && r.Ok? && r.value.Keys == w.aAccounts.Keys
            && r.value - {l.a} == w.aAccounts - {l.a}
            && LinkOk(w.(aAccounts := r.value), l.(acks := l.acks[1..]))
            && LinkKept(w, w.(aAccounts := r.value), l, l.(acks := l.acks[1..]))
  {
    assert AckOk(w, l, l.acks[0]);
    var r := A.PacketAck(w.aAccounts, now, l.a, l.acks[0].packet, l.acks[0].ack);
    var w' := w.(aAccounts := r.value);
    forall x | x in l.acks[1..] ensures AckOk(w', l.(acks := l.acks[1..]), x) {
      assert AckOk(w, l, x);
    }
  }

  lemma AcknowledgeKeeps(w: World, i: nat, now: nat)
    requires Inv(w) && i < |w.links| && w.links[i].aEnd == Open && w.links[i].acks != []
    ensures Inv(AcknowledgeA(w, i, now)) && Kept(w, AcknowledgeA(w, i, now))
  {
    var l := w.links[i];
    assert LinkOk(w, l);
    AcknowledgeEffect(w, l, now);
    var r := A.PacketAck(w.aAccounts, now, l.a, l.acks[0].packet, l.acks[0].ack).value;
    var l' := l.(acks := l.acks[1..]);
    TouchA(w, l', i, r);
  }

  lemma QueueEffect(w: World, l: Link, e: End, packets: seq<Packet>)
    requires LinkOk(w, l) && (e == l.aEnd || e == Closed)
    ensures LinkOk(w, l.(aEnd := e, packets := packets)) && LinkKept(w, w, l, l.(aEnd := e, packets := packets))
  {
    forall r | r in l.acks ensures AckOk(w, l.(aEnd := e, packets := packets), r) {
      assert AckOk(w, l, r);
    }
  }

  lemma QueueKeeps(w: World, i: nat, e: End, packets: seq<Packet>)
    requires Inv(w) && i < |w.links| && (e == w.links[i].aEnd || e == Closed)
    ensures var w' := SetLink(w, i, w.links[i].(aEnd := e, packets := packets)); Inv(w') && Kept(w, w')
  {
    assert LinkOk(w, w.links[i]);
    QueueEffect(w, w.links[i], e, packets);
    TouchA(w, w.links[i].(aEnd := e, packets := packets), i, w.aAccounts);
  }

  /** Steps that touch no link: administration, transfers, and calls from outside to reflect accounts. */
  lemma AsideKeeps(w: World, w': World)
    requires Inv(w)
    requires w' == w.(admin := w'.admin, contracts := w'.contracts, transfers := w'.transfers)
    requires Guarded(w.contracts, w'.contracts, w.self)
    requires forall t | t in w'.transfers :: t in w.transfers || TransferOk(w, t)
    ensures Inv(w') && Kept(w, w')
  {
    forall j | 0 <= j < |w.links| ensures LinkOk(w', w.links[j]) && LinkKept(w, w', w.links[j], w.links[j]) {
      LinkFrame(w, w', w.links[j]);
    }
    Carry(w, w');
    forall r | r in w'.relays ensures RelayOk(w', r) {
      assert RelayOk(w, r);
    }
  }

  lemma SendFundsOk(w: World, funds: Coins, channel: Channel)
    requires Inv(w) && A.SendFunds(w.aAccounts, funds, channel).Ok?
    ensures TransferOk(w, Transfer(channel, A.SendFunds(w.aAccounts, funds, channel).value))
  {
    assert KnownA(w, channel);
    var l :| l in w.links && l.a == channel;
    var j :| 0 <= j < |w.links| && w.links[j] == l;
    assert LinkOk(w, w.links[j]);
  }

  lemma ChannelStepKeeps(w: World, e: Event)
    requires Inv(w) && (e.OpenInit? || e.OpenTry? || e.Connect? || e.Close?)
    ensures Inv(Step(w, e)) && Kept(w, Step(w, e))
  {
    Unmoved(w);
    match e
    case OpenInit(side, a, b, order, version) => OpenInitKeeps(w, side, a, b, order, version);
    case OpenTry(i, version) => OpenTryKeeps(w, i, version);
    case Connect(i, side, address) =>
      if i < |w.links| && CanConnect(w.links[i], side) {
        if side == SideA { ConnectAKeeps(w, i); } else { ConnectBKeeps(w, i, address); }
      }
    case Close(i, side, balance, sendSucceeds) =>
      if i < |w.links| {
        if side == SideA { CloseAKeeps(w, i); } else { CloseBKeeps(w, i, balance, sendSucceeds); }
      }
  }

  lemma PacketStepKeeps(w: World, e: Event)
    requires Inv(w) && (e.Receive? || e.Acknowledge? || e.Timeout?)
    ensures Inv(Step(w, e)) && Kept(w, Step(w, e))
  {
    Unmoved(w);
    match e
    case Receive(i, balance) =>
      if i < |w.links| && w.links[i].bEnd == Open && w.links[i].packets != [] {
        ReceiveKeeps(w, i, balance);
      }
    case Acknowledge(i, now) =>
      if i < |w.links| && w.links[i].aEnd == Open && w.links[i].acks != [] {
        AcknowledgeKeeps(w, i, now);
      }
    case Timeout(i) =>
      if i < |w.links| {
        QueueKeeps(w, i, Closed, []);
      }
  }

  lemma SendKeeps(w: World, sender: string, channel: Channel, packet: Packet)
    requires Inv(w)
    ensures var w' := Step(w, Send(sender, channel, packet)); Inv(w') && Kept(w, w')
  {
    Unmoved(w);
    var at := FindLink(w, channel);
    if at.Some? {
      QueueKeeps(w, at.value, w.links[at.value].aEnd, w.links[at.value].packets + [packet]);
    }
  }

  lemma SendFundsKeeps(w: World, funds: Coins, channel: Channel)
    requires Inv(w)
    ensures var w' := Step(w, SendFunds(funds, channel)); Inv(w') && Kept(w, w')
  {
    Unmoved(w);
    if A.SendFunds(w.aAccounts, funds, channel).Ok? {
      SendFundsOk(w, funds, channel);
      TransferKeeps(w, Transfer(channel, A.SendFunds(w.aAccounts, funds, channel).value));
    }
  }

  lemma TransferKeeps(w: World, t: Transfer)
    requires Inv(w) && TransferOk(w, t)
    ensures Inv(w.(transfers := w.transfers + [t])) && Kept(w, w.(transfers := w.transfers + [t]))
  {
    AsideKeeps(w, w.(transfers := w.transfers + [t]));
  }

  lemma OutsideKeeps(w: World, contracts: Reflect.Contracts)
    requires Inv(w) && Guarded(w.contracts, contracts, w.self)
    ensures Inv(w.(contracts := contracts)) && Kept(w, w.(contracts := contracts))
  {
    AsideKeeps(w, w.(contracts := contracts));
  }

  lemma AsideStepKeeps(w: World, e: Event)
    requires Inv(w) && (e.UpdateAdmin? || e.CallReflect? || e.CreateReflect?)
    ensures Inv(Step(w, e)) && Kept(w, Step(w, e))
  {
    Unmoved(w);
    match e
    case UpdateAdmin(_, admin) =>
      AsideKeeps(w, w.(admin := admin));
    case CallReflect(sender, target, msg) =>
      if sender != w.self {
        ExecuteSafe(w.contracts, w.self, sender, target, msg);
        var r := Reflect.Execute(w.contracts, sender, target, msg);
        if r.Done? {
          OutsideKeeps(w, r.contracts);
        }
      }
    case CreateReflect(sender, address) =>
      if sender != w.self && address !in w.contracts.used {
        OutsideKeeps(w, Reflect.Instantiate(w.contracts, sender, address).contracts);
      }
  }

  lemma StepKeeps(w: World, e: Event)
    requires Inv(w)
    ensures Inv(Step(w, e)) && Kept(w, Step(w, e))
  {
    if e.OpenInit? || e.OpenTry? || e.Connect? || e.Close? {
      ChannelStepKeeps(w, e);
    } else if e.Receive? || e.Acknowledge? || e.Timeout? {
      PacketStepKeeps(w, e);
    } else if e.Send? {
      SendKeeps(w, e.sender, e.channel, e.packet);
    } else if e.SendFunds? {
      SendFundsKeeps(w, e.funds, e.channel);
    } else {
      AsideStepKeeps(w, e);
    }
  }

  lemma Unmoved(w: World)
    ensures Kept(w, w)
  {
    assert forall i | 0 <= i < |w.links| :: LinkKept(w, w, w.links[i], w.links[i]);
  }

  // ----- runs -----

  lemma KeptTransitive(w: World, x: World, y: World)
    requires Kept(w, x) && Kept(x, y)
    ensures Kept(w, y)
  {
    forall i | 0 <= i < |w.links| ensures LinkKept(w, y, w.links[i], y.links[i]) {
      assert LinkKept(w, x, w.links[i], x.links[i]);
      assert LinkKept(x, y, x.links[i], y.links[i]);
    }
  }

  /** Every run keeps the invariant, and what was learnt or closed along the way. */
  lemma {:induction false} RunKeeps(w: World, es: seq<Event>)
    requires Inv(w)
    ensures Inv(Run(w, es)) && Kept(w, Run(w, es))
    decreases |es|
  {
    if es == [] {
      Unmoved(w);
    } else {
      StepKeeps(w, es[0]);
      RunKeeps(Step(w, es[0]), es[1..]);
      KeptTransitive(w, Step(w, es[0]), Run(w, es));
    }
  }

  lemma InitialInv(w: World)
    requires Initial(w)
    ensures Inv(w)
  {
  }

  /** Along any run of the protocol: a remote address stored for a channel is the account B registered for
      its other end, and while the entry lives it is never replaced. */
  lemma RemoteAddressIsWriteOnce(w: World, es: seq<Event>, fs: seq<Event>, i: nat)
    requires Initial(w)
    requires var x := Run(w, es);
             i < |x.links| && x.links[i].a in x.aAccounts && x.aAccounts[x.links[i].a].remoteAddr.Some?
    ensures var x, y := Run(w, es), Run(Run(w, es), fs);
            var a, b := x.links[i].a, x.links[i].b;
            && b in x.registered && x.aAccounts[a].remoteAddr == Some(x.registered[b])
            && (a in y.aAccounts ==> y.aAccounts[a].remoteAddr == Some(x.registered[b]))
  {
    InitialInv(w);
    RunKeeps(w, es);
    var x := Run(w, es);
    RunKeeps(x, fs);
    assert LinkOk(x, x.links[i]);
    assert LinkKept(x, Run(x, fs), x.links[i], Run(x, fs).links[i]);
  }

  /** Every acknowledgement in flight that names an account names the one B registered for the channel. */
  lemma InFlightAcksNameTheAccount(w: World, es: seq<Event>, i: nat, r: Returning)
    requires Initial(w) && i < |Run(w, es).links| && r in Run(w, es).links[i].acks
    ensures var x := Run(w, es);
            var b := x.links[i].b;
            r.ack.WhoAmIOk? || r.ack.BalancesOk? ==> b in x.registered && r.ack.account == x.registered[b]
  {
    InitialInv(w);
    RunKeeps(w, es);
    var x := Run(w, es);
    assert LinkOk(x, x.links[i]) && AckOk(x, x.links[i], r);
  }

  lemma SameReceiver(w: World, t: Transfer, u: Transfer)
    requires DistinctIds(w) && TransferOk(w, t) && TransferOk(w, u) && t.channel == u.channel
    ensures t.to == u.to
  {
    var l :| l in w.links && l.a == t.channel && Registered(w, l, t.to);
    var m :| m in w.links && m.a == u.channel && Registered(w, m, u.to);
    var i: nat :| i < |w.links| && w.links[i] == l;
    var j: nat :| j < |w.links| && w.links[j] == m;
    SameId(w, i, j);
  }

  /** In no run is a deliverable acknowledgement ever rejected, so an ordered channel never gets stuck on A. */
  lemma AcksAreAlwaysAccepted(w: World, es: seq<Event>, i: nat, now: nat)
    requires Initial(w)
    requires i < |Run(w, es).links| && Run(w, es).links[i].aEnd == Open && Run(w, es).links[i].acks != []
    ensures var l := Run(w, es).links[i];
            A.PacketAck(Run(w, es).aAccounts, now, l.a, l.acks[0].packet, l.acks[0].ack).Ok?
  {
    InitialInv(w);
    RunKeeps(w, es);
    AcknowledgeNeverFails(Run(w, es), i, now);
  }

  /** In every reachable state: funds can be sent exactly when one coin is attached and the channel's remote
      address is known, and then they go to the account B registered for that channel's other end, which still
      is the contract's. */
  lemma FundsGoToTheAccount(w: World, es: seq<Event>, funds: Coins, channel: Channel)
    requires Initial(w)
    ensures var x := Run(w, es);
            var r := A.SendFunds(x.aAccounts, funds, channel);
            && (r.Ok? <==> |funds| == 1 && channel in x.aAccounts && x.aAccounts[channel].remoteAddr.Some?)
            && (r.Ok? ==> exists l :: l in x.links && l.a == channel && Registered(x, l, r.value)
                                      && r.value in x.contracts.owners && x.contracts.owners[r.value] == x.self)
  {
    InitialInv(w);
    RunKeeps(w, es);
    var x := Run(w, es);
    if A.SendFunds(x.aAccounts, funds, channel).Ok? {
      SendFundsOk(x, funds, channel);
    }
  }

  /** Once A's end is closed and its account removed, the account never comes back in any later state, and funds
      can no longer be sent for the channel. */
  lemma ClosedStaysForgotten(w: World, es: seq<Event>, i: nat, fs: seq<Event>, funds: Coins)
    requires Initial(w)
    requires var x := Run(w, es); i < |x.links| && Gone(x, x.links[i])
    ensures var x, y := Run(w, es), Run(Run(w, es), fs);
            x.links[i].a !in y.aAccounts && A.SendFunds(y.aAccounts, funds, x.links[i].a).Err?
  {
    InitialInv(w);
    RunKeeps(w, es);
    var x := Run(w, es);
    RunKeeps(x, fs);
    assert LinkKept(x, Run(x, fs), x.links[i], Run(x, fs).links[i]);
  }

  /** All funds ever sent for one channel went to one address. */
  lemma TransfersAgree(w: World, es: seq<Event>, t: Transfer, u: Transfer)
    requires Initial(w) && t in Run(w, es).transfers && u in Run(w, es).transfers && t.channel == u.channel
    ensures t.to == u.to
  {
    InitialInv(w);
    RunKeeps(w, es);
    SameReceiver(Run(w, es), t, u);
  }

  /** Between transactions nothing is pending, open channels have distinct accounts, and each account is
      still owned by the contract. */
  lemma AccountsAreOwnedAndDistinct(w: World, es: seq<Event>, b: Channel, c: Channel)
    requires Initial(w)
    requires b in Run(w, es).bState.accounts && c in Run(w, es).bState.accounts
    ensures var x := Run(w, es);
            && x.bState.pending == None
            && x.bState.accounts[b] in x.contracts.owners && x.contracts.owners[x.bState.accounts[b]] == x.self
            && (b != c ==> x.bState.accounts[b] != x.bState.accounts[c])
  {
    InitialInv(w);
    RunKeeps(w, es);
  }

  /** A dispatch is relayed by its own channel's account, never refused for ownership, and whatever messages
      it carries no account of the contract changes hands. */
  lemma DispatchObeyed(w: World, es: seq<Event>, b: Channel, msgs: seq<Reflect.CosmosMsg>)
    requires Initial(w) && b in Run(w, es).bState.accounts
    ensures var x := Run(w, es);
            var r := RelayOutcome(x, x.bState.accounts[b], msgs);
            && (r.Failed? && r.error.NotCurrentOwner? ==> r.error.actual != x.self)
            && (r.Done? ==> forall c | c in x.registered ::
                              x.registered[c] in r.contracts.owners && r.contracts.owners[x.registered[c]] == x.self)
  {
    InitialInv(w);
    RunKeeps(w, es);
    var x := Run(w, es);
    ExecuteSafe(x.contracts, x.self, x.self, x.bState.accounts[b], Reflect.ReflectMsg(msgs));
  }

  /** Every relay in the log was carried out by the account of the channel the packet came from, and that
      account serves no other channel. */
  lemma RelaysStayInTheirChannel(w: World, es: seq<Event>, r: Relay, q: Relay)
    requires Initial(w) && r in Run(w, es).relays && q in Run(w, es).relays
    ensures r.account == q.account <==> r.channel == q.channel
  {
    InitialInv(w);
    RunKeeps(w, es);
    var x := Run(w, es);
    assert RelayOk(x, r) && RelayOk(x, q);
  }
}
