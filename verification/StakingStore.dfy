/** The staking contract on its raw byte store. Every handler, working through serialized singletons and
    buckets that share one store, simulates the typed state: three cells and two maps. */
module StakingStore {
  import opened Wrappers
  import opened Bytes
  import opened Math
  import opened OrderedMap
  import opened LengthPrefixed
  import opened TypedStorage
  import opened Staking
  import opened StakingProofs

  function Ascii(s: string): (r: Bytes)
    requires forall i | 0 <= i < |s| :: s[i] < 128 as char
    ensures |r| == |s|
  {
    seq(|s|, i requires 0 <= i < |s| => s[i] as byte)
  }

  const KEY_INVESTMENT := Ascii("invest")
  const KEY_TOKEN_INFO := Ascii("token")
  const KEY_TOTAL_SUPPLY := Ascii("total_supply")
  const PREFIX_BALANCE := Ascii("balance")
  const PREFIX_CLAIMS := Ascii("claim")

  lemma NamesDistinct()
    ensures KEY_TOKEN_INFO != PREFIX_CLAIMS
    ensures |KEY_INVESTMENT| == 6 && |KEY_TOKEN_INFO| == 5 && |KEY_TOTAL_SUPPLY| == 12
    ensures |PREFIX_BALANCE| == 7 && |PREFIX_CLAIMS| == 5
  {
    assert KEY_TOKEN_INFO[0] != PREFIX_CLAIMS[0];
  }

  /** Keys of different names never meet, whatever follows the encoded name. */
  lemma KeysApart(x: Bytes, y: Bytes, k: Bytes, l: Bytes)
    requires Fits(x) && Fits(y) && x != y
    ensures Enc(x) + k != Enc(y) + l
  {
    if Enc(x) + k == Enc(y) + l {
      EncCancel(x, k, y, l);
    }
  }

  datatype Codecs = Codecs(
    token: Codec<TokenInfo>, invest: Codec<InvestmentInfo>, supply: Codec<Supply>, amount: Codec<Uint128>)

  ghost predicate AllLawful(c: Codecs) {
    Lawful(c.token) && Lawful(c.invest) && Lawful(c.supply) && Lawful(c.amount)
  }

  function CellKey(name: Bytes): Bytes
    requires Fits(name)
  {
    Enc(name)
  }

  function EntryKey(name: Bytes, a: Bytes): Bytes
    requires Fits(name)
  {
    Enc(name) + a
  }

  function Stored(c: Codecs, m: Accounts, a: Bytes): Option<Bytes> {
    if a in m then Some(c.amount.encode(m[a])) else None
  }

  ghost predicate StoresMap(d: Records, c: Codecs, name: Bytes, m: Accounts)
    requires Fits(name)
  {
    forall a :: Get(d, EntryKey(name, a)) == Stored(c, m, a)
  }

  /** The byte store holds exactly this typed state under the contract's five names. */
  ghost predicate Represents(d: Records, c: Codecs, st: State)
  {
    && Sorted(d)
    && Get(d, CellKey(KEY_TOKEN_INFO)) == Some(c.token.encode(st.token))
    && Get(d, CellKey(KEY_INVESTMENT)) == Some(c.invest.encode(st.invest))
    && Get(d, CellKey(KEY_TOTAL_SUPPLY)) == Some(c.supply.encode(st.supply))
    && StoresMap(d, c, PREFIX_BALANCE, st.balances)
    && StoresMap(d, c, PREFIX_CLAIMS, st.claims)
  }

  lemma SaveSupply(d: Records, c: Codecs, st: State, s: Supply)
    requires Represents(d, c, st)
    ensures Represents(Put(d, CellKey(KEY_TOTAL_SUPPLY), c.supply.encode(s)), c, st.(supply := s))
  {
    NamesDistinct();
    var k, v := CellKey(KEY_TOTAL_SUPPLY), c.supply.encode(s);
    assert k == EntryKey(KEY_TOTAL_SUPPLY, []);
    PutSound(d, k, v, k);
    OtherCell(d, KEY_TOTAL_SUPPLY, [], v, KEY_TOKEN_INFO);
    OtherCell(d, KEY_TOTAL_SUPPLY, [], v, KEY_INVESTMENT);
    OtherMap(d, c, KEY_TOTAL_SUPPLY, [], v, PREFIX_BALANCE, st.balances);
    OtherMap(d, c, KEY_TOTAL_SUPPLY, [], v, PREFIX_CLAIMS, st.claims);
  }

  lemma SaveBalance(d: Records, c: Codecs, st: State, a: Bytes, x: Uint128)
    requires Represents(d, c, st)
    ensures Represents(Put(d, EntryKey(PREFIX_BALANCE, a), c.amount.encode(x)), c, st.(balances := st.balances[a := x]))
  {
    NamesDistinct();
    var v := c.amount.encode(x);
    PutSound(d, EntryKey(PREFIX_BALANCE, a), v, []);
    OtherCell(d, PREFIX_BALANCE, a, v, KEY_TOKEN_INFO);
    OtherCell(d, PREFIX_BALANCE, a, v, KEY_INVESTMENT);
    OtherCell(d, PREFIX_BALANCE, a, v, KEY_TOTAL_SUPPLY);
    SameMap(d, c, PREFIX_BALANCE, a, x, st.balances);
    OtherMap(d, c, PREFIX_BALANCE, a, v, PREFIX_CLAIMS, st.claims);
  }

  lemma SaveClaim(d: Records, c: Codecs, st: State, a: Bytes, x: Uint128)
    requires Represents(d, c, st)
    ensures Represents(Put(d, EntryKey(PREFIX_CLAIMS, a), c.amount.encode(x)), c, st.(claims := st.claims[a := x]))
  {
    NamesDistinct();
    var v := c.amount.encode(x);
    PutSound(d, EntryKey(PREFIX_CLAIMS, a), v, []);
    OtherCell(d, PREFIX_CLAIMS, a, v, KEY_TOKEN_INFO);
    OtherCell(d, PREFIX_CLAIMS, a, v, KEY_INVESTMENT);
    OtherCell(d, PREFIX_CLAIMS, a, v, KEY_TOTAL_SUPPLY);
    SameMap(d, c, PREFIX_CLAIMS, a, x, st.claims);
    OtherMap(d, c, PREFIX_CLAIMS, a, v, PREFIX_BALANCE, st.balances);
  }

  lemma OtherCell(d: Records, name: Bytes, a: Bytes, v: Bytes, cell: Bytes)
    requires Sorted(d) && Fits(name) && Fits(cell) && name != cell
    ensures Get(Put(d, EntryKey(name, a), v), CellKey(cell)) == Get(d, CellKey(cell))
  {
    KeysApart(name, cell, a, []);
    assert Enc(cell) + [] == Enc(cell);
    PutSound(d, EntryKey(name, a), v, CellKey(cell));
  }

  lemma OtherMap(d: Records, c: Codecs, name: Bytes, a: Bytes, v: Bytes, other: Bytes, m: Accounts)
    requires Sorted(d) && Fits(name) && Fits(other) && name != other && StoresMap(d, c, other, m)
    ensures StoresMap(Put(d, EntryKey(name, a), v), c, other, m)
  {
    forall b ensures Get(Put(d, EntryKey(name, a), v), EntryKey(other, b)) == Stored(c, m, b) {
      KeysApart(name, other, a, b);
      PutSound(d, EntryKey(name, a), v, EntryKey(other, b));
    }
  }

  lemma SameMap(d: Records, c: Codecs, name: Bytes, a: Bytes, x: Uint128, m: Accounts)
    requires Sorted(d) && Fits(name) && StoresMap(d, c, name, m)
    ensures StoresMap(Put(d, EntryKey(name, a), c.amount.encode(x)), c, name, m[a := x])
  {
    forall b ensures Get(Put(d, EntryKey(name, a), c.amount.encode(x)), EntryKey(name, b)) == Stored(c, m[a := x], b) {
      PutSound(d, EntryKey(name, a), c.amount.encode(x), EntryKey(name, b));
      assert EntryKey(name, a)[|Enc(name)|..] == a && EntryKey(name, b)[|Enc(name)|..] == b;
    }
  }

  lemma FreshCells(c: Codecs, token: TokenInfo, invest: InvestmentInfo, supply: Supply)
    ensures Represents(
              Put(Put(Put([], CellKey(KEY_TOKEN_INFO), c.token.encode(token)),
                      CellKey(KEY_INVESTMENT), c.invest.encode(invest)),
                  CellKey(KEY_TOTAL_SUPPLY), c.supply.encode(supply)),
              c, State(token, invest, supply, map[], map[]))
  {
    NamesDistinct();
    var t, i, s := CellKey(KEY_TOKEN_INFO), CellKey(KEY_INVESTMENT), CellKey(KEY_TOTAL_SUPPLY);
    assert t == EntryKey(KEY_TOKEN_INFO, []) && i == EntryKey(KEY_INVESTMENT, []);
    assert s == EntryKey(KEY_TOTAL_SUPPLY, []);
    var d1 := Put([], t, c.token.encode(token));
    PutSound([], t, c.token.encode(token), t);
    var d2 := Put(d1, i, c.invest.encode(invest));
    PutSound(d1, i, c.invest.encode(invest), i);
    PutSound(d2, s, c.supply.encode(supply), s);
    OtherCell(d1, KEY_INVESTMENT, [], c.invest.encode(invest), KEY_TOKEN_INFO);
    OtherCell(d2, KEY_TOTAL_SUPPLY, [], c.supply.encode(supply), KEY_TOKEN_INFO);
    OtherCell(d2, KEY_TOTAL_SUPPLY, [], c.supply.encode(supply), KEY_INVESTMENT);
    EmptyMapKept(c, PREFIX_BALANCE, token, invest, supply);
    EmptyMapKept(c, PREFIX_CLAIMS, token, invest, supply);
  }

  lemma EmptyMapKept(c: Codecs, name: Bytes, token: TokenInfo, invest: InvestmentInfo, supply: Supply)
    requires name == PREFIX_BALANCE || name == PREFIX_CLAIMS
    ensures StoresMap(
              Put(Put(Put([], EntryKey(KEY_TOKEN_INFO, []), c.token.encode(token)),
                      EntryKey(KEY_INVESTMENT, []), c.invest.encode(invest)),
                  EntryKey(KEY_TOTAL_SUPPLY, []), c.supply.encode(supply)),
              c, name, map[])
  {
    NamesDistinct();
    assert StoresMap([], c, name, map[]);
    var d1 := Put([], EntryKey(KEY_TOKEN_INFO, []), c.token.encode(token));
    PutSound([], EntryKey(KEY_TOKEN_INFO, []), c.token.encode(token), []);
    OtherMap([], c, KEY_TOKEN_INFO, [], c.token.encode(token), name, map[]);
    var d2 := Put(d1, EntryKey(KEY_INVESTMENT, []), c.invest.encode(invest));
    PutSound(d1, EntryKey(KEY_INVESTMENT, []), c.invest.encode(invest), []);
    OtherMap(d1, c, KEY_INVESTMENT, [], c.invest.encode(invest), name, map[]);
    OtherMap(d2, c, KEY_TOTAL_SUPPLY, [], c.supply.encode(supply), name, map[]);
  }

  /** A handler's outcome on bytes agrees with its outcome on the typed state. */
  ghost predicate Simulates(d: Records, c: Codecs, r: Result<seq<Msg>>, spec: Result<Response>) {
    if spec.Ok? then r == Ok(spec.value.msgs) && Represents(d, c, spec.value.state) else r == Err(spec.error)
  }

  lemma EncodingDetermines<T(!new)>(c: Codec<T>, x: T, y: T)
    requires Lawful(c) && c.encode(x) == c.encode(y)
    ensures x == y
  {
    assert Ok(x) == c.decode(c.encode(x)) == c.decode(c.encode(y)) == Ok(y);
  }

  lemma MapDetermined(d: Records, c: Codecs, name: Bytes, m: Accounts, n: Accounts)
    requires Fits(name) && Lawful(c.amount) && StoresMap(d, c, name, m) && StoresMap(d, c, name, n)
    ensures m == n
  {
    forall a ensures a in m <==> a in n {
      assert Stored(c, m, a) == Get(d, EntryKey(name, a)) == Stored(c, n, a);
    }
    forall a | a in m ensures m[a] == n[a] {
      assert Stored(c, m, a) == Get(d, EntryKey(name, a)) == Stored(c, n, a);
      EncodingDetermines(c.amount, m[a], n[a]);
    }
  }

  /** The bytes determine the typed state. */
  lemma StateDetermined(d: Records, c: Codecs, st: State, st': State)
    requires AllLawful(c) && Represents(d, c, st) && Represents(d, c, st')
    ensures st == st'
  {
    NamesDistinct();
    EncodingDetermines(c.token, st.token, st'.token);
    EncodingDetermines(c.invest, st.invest, st'.invest);
    EncodingDetermines(c.supply, st.supply, st'.supply);
    MapDetermined(d, c, PREFIX_BALANCE, st.balances, st'.balances);
    MapDetermined(d, c, PREFIX_CLAIMS, st.claims, st'.claims);
  }

  /** Whatever state is read off the bytes has balanced books, and is backed and covered up to the loss. */
  ghost predicate SoundBytes(d: Records, c: Codecs, chain: Chain, loss: Loss) {
    forall st | Represents(d, c, st) :: Books(st) && Backed(World(st, chain), loss)
  }

  lemma BytesAreSound(d: Records, c: Codecs, w: World, loss: Loss)
    requires AllLawful(c) && Represents(d, c, w.st) && Books(w.st) && Backed(w, loss)
    ensures SoundBytes(d, c, w.chain, loss)
  {
    forall st | Represents(d, c, st) ensures st == w.st {
      StateDetermined(d, c, st, w.st);
    }
  }

  ghost predicate Holds(d: Records, c: Codecs, st: State) {
    AllLawful(c) && Represents(d, c, st)
  }

  class Contract {
    const storage: MemoryStorage
    const codecs: Codecs
    const api: Api
    const balances: Bucket<Uint128>
    const claims: Bucket<Uint128>
    const investInfo: Singleton<InvestmentInfo>
    const tokenInfo: Singleton<TokenInfo>
    const totalSupply: Singleton<Supply>

    constructor (storage: MemoryStorage, codecs: Codecs, api: Api)
      ensures this.storage == storage && this.codecs == codecs && this.api == api && Wired()
    {
      this.storage := storage;
      this.codecs := codecs;
      this.api := api;
      NamesDistinct();
      balances := Bucket(storage, Enc(PREFIX_BALANCE), codecs.amount);
      claims := Bucket(storage, Enc(PREFIX_CLAIMS), codecs.amount);
      investInfo := Singleton(storage, Enc(KEY_INVESTMENT), codecs.invest);
      tokenInfo := Singleton(storage, Enc(KEY_TOKEN_INFO), codecs.token);
      totalSupply := Singleton(storage, Enc(KEY_TOTAL_SUPPLY), codecs.supply);
    }

    ghost predicate Wired() {
      && balances == Bucket(storage, Enc(PREFIX_BALANCE), codecs.amount)
      && claims == Bucket(storage, Enc(PREFIX_CLAIMS), codecs.amount)
      && investInfo == Singleton(storage, Enc(KEY_INVESTMENT), codecs.invest)
      && tokenInfo == Singleton(storage, Enc(KEY_TOKEN_INFO), codecs.token)
      && totalSupply == Singleton(storage, Enc(KEY_TOTAL_SUPPLY), codecs.supply)
    }

    ghost predicate Ready(st: State)
      reads storage
    {
      Wired() && Holds(storage.data, codecs, st)
    }

    /** Instantiation writes the three cells of a fresh store. */
    method Instantiate(sender: string, msg: InstantiateMsg, validators: seq<string>, bondedDenom: string)
      returns (r: Result<()>)
      requires Wired() && AllLawful(codecs) && storage.data == []
      modifies storage
      ensures var spec := DoInstantiate(sender, msg, validators, bondedDenom);
              if spec.Ok? then r == Ok(()) && Ready(spec.value) else r == Err(spec.error) && storage.data == []
    {
      if msg.validator !in validators {
        return Err(Generic("not in the current validator set"));
      }
      NamesDistinct();
      var token := TokenInfo(msg.name, msg.symbol, msg.decimals);
      var invest := InvestmentInfo(sender, bondedDenom, msg.exitTax, msg.validator, msg.minWithdrawal);
      var _ := tokenInfo.Save(token);
      var _ := investInfo.Save(invest);
      var _ := totalSupply.Save(Supply(0, 0, 0));
      FreshCells(codecs, token, invest, Supply(0, 0, 0));
      r := Ok(());
    }

    /** `accounts.update(addr, |b| Ok(b.unwrap_or_default() + x))` */
    method CreditBalance(a: Bytes, x: Uint128, ghost st: State) returns (r: Result<Uint128>)
      requires Ready(st)
      modifies storage
      ensures r == Add(Held(st.balances, a), x)
      ensures r.Ok? ==> Ready(st.(balances := st.balances[a := r.value]))
      ensures r.Err? ==> Ready(st)
    {
      NamesDistinct();
      ghost var d := storage.data;
      assert Get(d, EntryKey(PREFIX_BALANCE, a)) == Stored(codecs, st.balances, a);
      r := balances.Update(a, (b: Option<Uint128>) => Add(if b.Some? then b.value else 0, x));
      if r.Ok? {
        SaveBalance(d, codecs, st, a, r.value);
      }
    }

    method DebitBalance(a: Bytes, x: Uint128, ghost st: State) returns (r: Result<Uint128>)
      requires Ready(st)
      modifies storage
      ensures r == CheckedSub(Held(st.balances, a), x)
      ensures r.Ok? ==> Ready(st.(balances := st.balances[a := r.value]))
      ensures r.Err? ==> Ready(st)
    {
      NamesDistinct();
      ghost var d := storage.data;
      assert Get(d, EntryKey(PREFIX_BALANCE, a)) == Stored(codecs, st.balances, a);
      r := balances.Update(a, (b: Option<Uint128>) => CheckedSub(if b.Some? then b.value else 0, x));
      if r.Ok? {
        SaveBalance(d, codecs, st, a, r.value);
      }
    }

    method UpdateClaim(a: Bytes, action: Option<Uint128> -> Result<Uint128>, ghost st: State)
      returns (r: Result<Uint128>)
      requires Ready(st)
      modifies storage
      ensures r == action(if a in st.claims then Some(st.claims[a]) else None)
      ensures r.Ok? ==> Ready(st.(claims := st.claims[a := r.value]))
      ensures r.Err? ==> Ready(st)
    {
      NamesDistinct();
      ghost var d := storage.data;
      assert Get(d, EntryKey(PREFIX_CLAIMS, a)) == Stored(codecs, st.claims, a);
      r := claims.Update(a, action);
      if r.Ok? {
        SaveClaim(d, codecs, st, a, r.value);
      }
    }

    method LoadClaim(a: Bytes, ghost st: State) returns (claim: Option<Uint128>)
      requires Ready(st)
      ensures claim == if a in st.claims then Some(st.claims[a]) else None
    {
      NamesDistinct();
      assert Get(storage.data, EntryKey(PREFIX_CLAIMS, a)) == Stored(codecs, st.claims, a);
      var r := claims.MayLoad(a);
      claim := r.value;
    }

    method SaveTotals(supply: Supply, ghost st: State)
      requires Ready(st)
      modifies storage
      ensures Ready(st.(supply := supply))
    {
      NamesDistinct();
      ghost var d := storage.data;
      var _ := totalSupply.Save(supply);
      SaveSupply(d, codecs, st, supply);
    }

    method Load(ghost st: State) returns (invest: InvestmentInfo, supply: Supply)
      requires Ready(st)
      ensures invest == st.invest && supply == st.supply
    {
      NamesDistinct();
      var i := investInfo.Load();
      var s := totalSupply.Load();
      return i.value, s.value;
    }

    method TransferTokens(sender: string, recipient: string, amount: Uint128, ghost st: State)
      returns (r: Result<seq<Msg>>)
      requires Ready(st)
      modifies storage
      ensures Simulates(storage.data, codecs, r, DoTransfer(st, api, sender, recipient, amount))
    {
      var rcpt := api(recipient);
      if rcpt.Err? { return Err(rcpt.error); }
      var from := api(sender);
      if from.Err? { return Err(from.error); }
      var debited := DebitBalance(from.value, amount, st);
      if debited.Err? { return Err(debited.error); }
      ghost var st1 := st.(balances := st.balances[from.value := debited.value]);
      var credited := CreditBalance(rcpt.value, amount, st1);
      if credited.Err? { return Err(credited.error); }
      return Ok([]);
    }

    method BondTokens(q: Querier, sender: string, funds: seq<Coin>, ghost st: State) returns (r: Result<seq<Msg>>)
      requires Ready(st)
      modifies storage
      ensures Simulates(storage.data, codecs, r, DoBond(st, api, q, sender, funds))
    {
      var from := api(sender);
      if from.Err? { return Err(from.error); }
      var invest, supply := Load(st);
      var payment := FindCoin(funds, invest.bondDenom);
      if payment == None { return Err(Generic("No tokens of the bond denom sent")); }
      var bonded := GetBonded(q);
      if bonded.Err? { return Err(bonded.error); }
      var check := AssertBonds(supply, bonded.value);
      if check.Err? { return Err(check.error); }
      var minted := ToMint(supply, bonded.value, payment.value.amount);
      if minted.Err? { return Err(minted.error); }
      var bonded' := Add(bonded.value, payment.value.amount);
      if bonded'.Err? { return Err(bonded'.error); }
      var issued' := Add(supply.issued, minted.value);
      if issued'.Err? { return Err(issued'.error); }
      var supply' := Supply(issued'.value, bonded'.value, supply.claims);
      SaveTotals(supply', st);
      var credited := CreditBalance(from.value, minted.value, st.(supply := supply'));
      if credited.Err? { return Err(credited.error); }
      return Ok([Delegate(invest.validator, payment.value)]);
    }

    /** The sender pays the whole amount, the owner receives the tax. */
    method DeductBalances(from: Bytes, owner: Bytes, amount: Uint128, tax: Uint128, ghost st: State)
      returns (r: Result<()>)
      requires Ready(st)
      modifies storage
      ensures var spec := Deduct(st.balances, from, owner, amount, tax);
              if spec.Ok? then r == Ok(()) && Ready(st.(balances := spec.value)) else r == Err(spec.error)
    {
      var debited := DebitBalance(from, amount, st);
      if debited.Err? { return Err(debited.error); }
      if tax > 0 {
        var credited := CreditBalance(owner, tax, st.(balances := st.balances[from := debited.value]));
        if credited.Err? { return Err(credited.error); }
      }
      return Ok(());
    }

    method UnbondTokens(q: Querier, sender: string, amount: Uint128, ghost st: State) returns (r: Result<seq<Msg>>)
      requires Ready(st)
      modifies storage
      ensures Simulates(storage.data, codecs, r, DoUnbond(st, api, q, sender, amount))
    {
      var invest, _ := Load(st);
      if amount < invest.minWithdrawal { return Err(Generic("Must unbond at least the minimum")); }
      var from := api(sender);
      if from.Err? { return Err(from.error); }
      var owner := api(invest.owner);
      if owner.Err? { return Err(owner.error); }
      var tax := MulDecimal(amount, invest.exitTax);
      if tax.Err? { return Err(tax.error); }
      var deducted := DeductBalances(from.value, owner.value, amount, tax.value, st);
      if deducted.Err? { return Err(deducted.error); }
      ghost var st1 := st.(balances := Deduct(st.balances, from.value, owner.value, amount, tax.value).value);
      var bonded := GetBonded(q);
      if bonded.Err? { return Err(bonded.error); }
      var remainder := CheckedSub(amount, tax.value);
      if remainder.Err? { return Err(remainder.error); }
      var _, supply := Load(st1);
      var check := AssertBonds(supply, bonded.value);
      if check.Err? { return Err(check.error); }
      var redeemed := Redeem(supply, bonded.value, remainder.value);
      if redeemed.Err? { return Err(redeemed.error); }
      var (supply', unbonded) := redeemed.value;
      SaveTotals(supply', st1);
      var claim := UpdateClaim(from.value, (c: Option<Uint128>) => Add(if c.Some? then c.value else 0, unbonded),
                               st1.(supply := supply'));
      if claim.Err? { return Err(claim.error); }
      return Ok([Undelegate(invest.validator, Coin(invest.bondDenom, unbonded))]);
    }

    method ClaimTokens(q: Querier, sender: string, ghost st: State) returns (r: Result<seq<Msg>>)
      requires Ready(st)
      modifies storage
      ensures Simulates(storage.data, codecs, r, DoClaim(st, api, q, sender))
    {
      var invest, supply := Load(st);
      if q.balance.Err? { return Err(q.balance.error); }
      var balance := q.balance.value;
      if balance < invest.minWithdrawal {
        return Err(Generic("Insufficient balance in contract to process claim"));
      }
      var from := api(sender);
      if from.Err? { return Err(from.error); }
      // the closure of the update records min(balance, claim) for the caller
      var claim := LoadClaim(from.value, st);
      var toSend := if claim.Some? then Min(balance, claim.value) else balance;
      var left := UpdateClaim(
        from.value,
        (c: Option<Uint128>) =>
          if c.None? then Err(Generic("no claim for this address")) else CheckedSub(c.value, toSend),
        st);
      if left.Err? { return Err(left.error); }
      ghost var st1 := st.(claims := st.claims[from.value := left.value]);
      var total := CheckedSub(supply.claims, toSend);
      if total.Err? { return Err(total.error); }
      SaveTotals(supply.(claims := total.value), st1);
      return Ok([Send(sender, Coin(invest.bondDenom, toSend))]);
    }

    method BondAll(q: Querier, sender: string, ghost st: State) returns (r: Result<seq<Msg>>)
      requires Ready(st)
      modifies storage
      ensures Simulates(storage.data, codecs, r, DoBondAllTokens(st, q, sender))
    {
      if sender != q.contract { return Err(Unauthorized); }
      var invest, _ := Load(st);
      if q.balance.Err? { return Err(q.balance.error); }
      var balance := q.balance.value;
      NamesDistinct();
      ghost var d := storage.data;
      var updated := totalSupply.Update((s: Supply) =>
        var surplus :- Surplus(s, invest.minWithdrawal, balance);
        var bonded :- Add(s.bonded, surplus);
        Ok(s.(bonded := bonded)));
      if updated == Err(Overflow) { return Ok([]); }
      if updated.Err? { return Err(updated.error); }
      SaveSupply(d, codecs, st, updated.value);
      return Ok([Delegate(invest.validator, Coin(invest.bondDenom, balance - updated.value.claims))]);
    }

    /** One transaction: whatever a failing handler already wrote is discarded. */
    method Transact(q: Querier, sender: string, funds: seq<Coin>, msg: ExecuteMsg, ghost st: State)
      returns (r: Result<seq<Msg>>)
      requires Ready(st)
      modifies storage
      ensures var spec := Execute(st, api, q, sender, funds, msg);
              if spec.Ok? then r == Ok(spec.value.msgs) && Ready(spec.value.state)
              else r == Err(spec.error) && storage.data == old(storage.data)
    {
      var before := storage.data;
      match msg {
        case Transfer(recipient, amount) => r := TransferTokens(sender, recipient, amount, st);
        case Bond => r := BondTokens(q, sender, funds, st);
        case Unbond(amount) => r := UnbondTokens(q, sender, amount, st);
        case Claim => r := ClaimTokens(q, sender, st);
        case Reinvest =>
          var invest, _ := Load(st);
          r := Ok([WithdrawReward(invest.validator), CallBondAllTokens]);
        case BondAllTokens => r := BondAll(q, sender, st);
      }
      if r.Err? {
        storage.data := before;
      }
    }

    /** A whole transaction with its messages: the attached funds arrive, the handler works on the bytes, and
        the chain carries out what it asked for, a reinvestment's callback included. */
    method Call(contract: string, chain: Chain, sender: string, funds: seq<Coin>, msg: ExecuteMsg, rewards: nat,
                ghost st: State)
      returns (r: Result<Chain>)
      requires Ready(st)
      modifies storage
      ensures Follows(r, Staking.Transact(Env(contract, api), World(st, chain), sender, funds, msg, rewards),
                      old(storage.data))
    {
      var invest, _ := Load(st);
      var funded := Credited(chain, Attached(funds, invest.bondDenom));
      var q := QueryChain(contract, invest.bondDenom, funded);
      var before := storage.data;
      var msgs := Transact(q, sender, funds, msg, st);
      ghost var spec := Execute(st, api, q, sender, funds, msg);
      r := Finish(contract, funded, msgs, rewards, before, spec);
    }

    /** The bytes and the chain end up where the typed world does; a failure leaves the bytes as before. */
    ghost predicate Follows(r: Result<Chain>, spec: Result<World>, before: Records)
      reads storage
    {
      if spec.Ok? then r == Ok(spec.value.chain) && Ready(spec.value.st)
      else r == Err(spec.error) && storage.data == before
    }

    method Finish(contract: string, chain: Chain, msgs: Result<seq<Msg>>, rewards: nat, before: Records,
                  ghost spec: Result<Response>)
      returns (r: Result<Chain>)
      requires if spec.Ok? then msgs == Ok(spec.value.msgs) && Ready(spec.value.state) else msgs == Err(spec.error)
      modifies storage
      ensures Follows(r, Settle(Env(contract, api), chain, spec, rewards), before)
    {
      if msgs.Err? {
        r := Err(msgs.error);
      } else {
        r := Deliver(contract, chain, msgs.value, rewards, spec.value.state);
      }
      if r.Err? {
        storage.data := before;
      }
    }

    /** The messages of a response. */
    method Deliver(contract: string, chain: Chain, msgs: seq<Msg>, rewards: nat, ghost st: State)
      returns (r: Result<Chain>)
      requires Ready(st)
      modifies storage
      ensures var spec := RunMsgs(Env(contract, api), World(st, chain), msgs, rewards);
              if spec.Ok? then r == Ok(spec.value.chain) && Ready(spec.value.st) else r == Err(spec.error)
    {
      if AsksReinvest(msgs) {
        var invest, _ := Load(st);
        var rewarded := Credited(chain, rewards);
        var q := QueryChain(contract, invest.bondDenom, rewarded);
        var more := BondAll(q, contract, st);
        r := Bank(rewarded, more, DoBondAllTokens(st, q, contract));
      } else {
        r := Bank(chain, Ok(msgs), Ok(Response(st, msgs)));
      }
    }

    method Bank(chain: Chain, msgs: Result<seq<Msg>>, ghost spec: Result<Response>) returns (r: Result<Chain>)
      requires if spec.Ok? then msgs == Ok(spec.value.msgs) && Ready(spec.value.state) else msgs == Err(spec.error)
      ensures var w := RunResponse(chain, spec);
              if w.Ok? then r == Ok(w.value.chain) && Ready(w.value.st) else r == Err(w.error)
    {
      if msgs.Err? { return Err(msgs.error); }
      r := RunBank(chain, msgs.value);
    }

    /** Any history on the bytes simulates the history on the typed state. */
    method RunEvents(contract: string, chain: Chain, es: seq<Event>, ghost st: State) returns (c: Chain)
      requires Ready(st)
      modifies storage
      ensures var w := Run(Env(contract, api), World(st, chain), es);
              c == w.chain && Ready(w.st)
    {
      c := chain;
      ghost var env := Env(contract, api);
      ghost var now := st;
      for i := 0 to |es|
        invariant Ready(now)
        invariant Run(env, World(now, c), es[i..]) == Run(env, World(st, chain), es)
      {
        assert es[i..][0] == es[i] && es[i..][1..] == es[i + 1..];
        var w := World(now, c);
        if es[i].Call? {
          if es[i].sender != contract {
            var r := Call(contract, c, es[i].sender, es[i].funds, es[i].msg, es[i].rewards, now);
            if r.Ok? { c := r.value; }
          }
        } else {
          c := Outside(c, es[i]);
        }
        now := Step(env, w, es[i]).st;
      }
    }

    /** The contract's whole life: instantiated on an empty store and then put through any history, it stores
        the state of that history; and the state its bytes spell has balanced books, at least one bonded token
        per issued one, and is backed and covers its claims up to what slashing took. */
    method Live(contract: string, sender: string, msg: InstantiateMsg, validators: seq<string>, denom: string,
                balance: nat, es: seq<Event>)
      returns (r: Result<Chain>)
      requires Wired() && AllLawful(codecs) && storage.data == []
      modifies storage
      ensures var made := DoInstantiate(sender, msg, validators, denom);
              if made.Err? then r == Err(made.error) && storage.data == []
              else
                var w0 := World(made.value, Chain(0, 0, balance));
                var w := Run(Env(contract, api), w0, es);
                && r == Ok(w.chain)
                && Represents(storage.data, codecs, w.st)
                && SoundBytes(storage.data, codecs, w.chain, Losses(Env(contract, api), w0, es, NO_LOSS))
    {
      var done := Instantiate(sender, msg, validators, denom);
      if done.Err? { return Err(done.error); }
      ghost var first := DoInstantiate(sender, msg, validators, denom).value;
      ghost var w0 := World(first, Chain(0, 0, balance));
      var c := RunEvents(contract, Chain(0, 0, balance), es, first);
      ghost var w := Run(Env(contract, api), w0, es);
      InstantiateInv(sender, msg, validators, denom, balance);
      RunKeeps(Env(contract, api), w0, es, NO_LOSS);
      BytesAreSound(storage.data, codecs, w, Losses(Env(contract, api), w0, es, NO_LOSS));
      return Ok(c);
    }
  }
}
