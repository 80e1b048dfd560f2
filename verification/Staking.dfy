/** The staking derivative: a pool that mints derivative tokens for bonded native tokens. Handlers are
    functions from the stored state and the answers of the chain to the new state and the messages sent. */
module Staking {
  import opened Wrappers
  import opened Bytes
  import opened Math

  datatype Coin = Coin(denom: string, amount: Uint128)

  datatype InvestmentInfo = InvestmentInfo(
    owner: string,
    bondDenom: string,
    exitTax: Uint128,
    validator: string,
    minWithdrawal: Uint128)

  datatype TokenInfo = TokenInfo(name: string, symbol: string, decimals: nat)

  datatype Supply = Supply(issued: Uint128, bonded: Uint128, claims: Uint128)

  /** Amounts per canonical address. */
  type Accounts = map<Bytes, Uint128>

  datatype State = State(
    token: TokenInfo,
    invest: InvestmentInfo,
    supply: Supply,
    balances: Accounts,
    claims: Accounts)

  datatype Msg =
    | Delegate(validator: string, amount: Coin)
    | Undelegate(validator: string, amount: Coin)
    | Send(to: string, amount: Coin)
    | WithdrawReward(validator: string)
    | CallBondAllTokens

  datatype Response = Response(state: State, msgs: seq<Msg>)

  datatype InstantiateMsg = InstantiateMsg(
    name: string, symbol: string, decimals: nat, validator: string, exitTax: Uint128, minWithdrawal: Uint128)

  datatype ExecuteMsg =
    | Transfer(recipient: string, amount: Uint128)
    | Bond
    | Unbond(amount: Uint128)
    | Claim
    | Reinvest
    | BondAllTokens

  /** `addr_canonicalize`, supplied by the chain. */
  type Api = string -> Result<Bytes>

  /** What a handler can ask the chain: the contract's delegations and its native balance. */
  datatype Querier = Querier(contract: string, delegations: Result<seq<Coin>>, balance: Result<Uint128>)

  const FALLBACK_RATIO := DECIMAL_FRACTIONAL

  function Held(m: Accounts, a: Bytes): Uint128 {
    if a in m then m[a] else 0
  }

  function Credit(m: Accounts, a: Bytes, x: Uint128): Result<Accounts> {
    var y :- Add(Held(m, a), x);
    Ok(m[a := y])
  }

  function Debit(m: Accounts, a: Bytes, x: Uint128): Result<Accounts> {
    var y :- CheckedSub(Held(m, a), x);
    Ok(m[a := y])
  }

  function FindCoin(funds: seq<Coin>, denom: string): Option<Coin> {
    if funds == [] then None
    else if funds[0].denom == denom then Some(funds[0])
    else FindCoin(funds[1..], denom)
  }

  function SumBonds(bonds: seq<Coin>, denom: string): Result<Uint128> {
    if bonds == [] then Ok(0)
    else
      var n := |bonds| - 1;
      var acc :- SumBonds(bonds[..n], denom);
      if bonds[n].denom != denom then Err(Generic("different denoms in bonds"))
      else Add(acc, bonds[n].amount)
  }

  function GetBonded(q: Querier): Result<Uint128> {
    var bonds :- q.delegations;
    if bonds == [] then Ok(0) else SumBonds(bonds, bonds[0].denom)
  }

  function AssertBonds(supply: Supply, bonded: Uint128): Result<()> {
    if supply.bonded != bonded then Err(Generic("Stored bonded differs from query bonded")) else Ok(())
  }

  function DoInstantiate(sender: string, msg: InstantiateMsg, validators: seq<string>, bondedDenom: string)
    : Result<State>
  {
    if msg.validator !in validators then Err(Generic("not in the current validator set"))
    else Ok(State(
      TokenInfo(msg.name, msg.symbol, msg.decimals),
      InvestmentInfo(sender, bondedDenom, msg.exitTax, msg.validator, msg.minWithdrawal),
      Supply(0, 0, 0), map[], map[]))
  }

  function DoTransfer(st: State, api: Api, sender: string, recipient: string, amount: Uint128): Result<Response> {
    var rcpt :- api(recipient);
    var from :- api(sender);
    var debited :- Debit(st.balances, from, amount);
    var balances :- Credit(debited, rcpt, amount);
    Ok(Response(st.(balances := balances), []))
  }

  function ToMint(supply: Supply, bonded: Uint128, payment: Uint128): Result<Uint128> {
    if supply.issued == 0 || bonded == 0 then MulDecimal(payment, FALLBACK_RATIO)
    else MultiplyRatio(payment, supply.issued, bonded)
  }

  function DoBond(st: State, api: Api, q: Querier, sender: string, funds: seq<Coin>): Result<Response> {
    var from :- api(sender);
    var payment := FindCoin(funds, st.invest.bondDenom);
    if payment == None then Err(Generic("No tokens of the bond denom sent")) else
    var bonded :- GetBonded(q);
    var _ :- AssertBonds(st.supply, bonded);
    var minted :- ToMint(st.supply, bonded, payment.value.amount);
    var bonded' :- Add(bonded, payment.value.amount);
    var issued' :- Add(st.supply.issued, minted);
    var balances :- Credit(st.balances, from, minted);
    Ok(Response(
      st.(supply := Supply(issued', bonded', st.supply.claims), balances := balances),
      [Delegate(st.invest.validator, payment.value)]))
  }

  /** The whole amount leaves the sender; the tax, if any, goes to the owner. */
  function Deduct(balances: Accounts, from: Bytes, owner: Bytes, amount: Uint128, tax: Uint128): Result<Accounts> {
    var debited :- Debit(balances, from, amount);
    if tax > 0 then Credit(debited, owner, tax) else Ok(debited)
  }

  /** Burning derivative tokens frees their share of the pool and turns it into claims. */
  function Redeem(supply: Supply, bonded: Uint128, burnt: Uint128): Result<(Supply, Uint128)> {
    var unbonded :- MultiplyRatio(burnt, bonded, supply.issued);
    var bonded' :- CheckedSub(bonded, unbonded);
    var issued' :- CheckedSub(supply.issued, burnt);
    var claims' :- Add(supply.claims, unbonded);
    Ok((Supply(issued', bonded', claims'), unbonded))
  }

  function DoUnbond(st: State, api: Api, q: Querier, sender: string, amount: Uint128): Result<Response> {
    if amount < st.invest.minWithdrawal then Err(Generic("Must unbond at least the minimum")) else
    var from :- api(sender);
    var owner :- api(st.invest.owner);
    var tax :- MulDecimal(amount, st.invest.exitTax);
    var balances :- Deduct(st.balances, from, owner, amount, tax);
    var bonded :- GetBonded(q);
    var remainder :- CheckedSub(amount, tax);
    var _ :- AssertBonds(st.supply, bonded);
    var (supply, unbonded) :- Redeem(st.supply, bonded, remainder);
    var claims :- Credit(st.claims, from, unbonded);
    Ok(Response(
      st.(supply := supply, balances := balances, claims := claims),
      [Undelegate(st.invest.validator, Coin(st.invest.bondDenom, unbonded))]))
  }

  function Min(a: Uint128, b: Uint128): Uint128 {
    if a <= b then a else b
  }

  function DoClaim(st: State, api: Api, q: Querier, sender: string): Result<Response> {
    var balance :- q.balance;
    if balance < st.invest.minWithdrawal then Err(Generic("Insufficient balance in contract to process claim")) else
    var from :- api(sender);
    if from !in st.claims then Err(Generic("no claim for this address")) else
    var toSend := Min(balance, st.claims[from]);
    var left :- CheckedSub(st.claims[from], toSend);
    var totalClaims :- CheckedSub(st.supply.claims, toSend);
    Ok(Response(
      st.(supply := st.supply.(claims := totalClaims), claims := st.claims[from := left]),
      [Send(sender, Coin(st.invest.bondDenom, toSend))]))
  }

  function DoReinvest(st: State): Result<Response> {
    Ok(Response(st, [WithdrawReward(st.invest.validator), CallBondAllTokens]))
  }

  /** The amount to reinvest, or `Overflow` when the claims and the minimum are not covered. */
  function Surplus(supply: Supply, minWithdrawal: Uint128, balance: Uint128): Result<Uint128> {
    var surplus :- CheckedSub(balance, supply.claims);
    var _ :- CheckedSub(surplus, minWithdrawal);
    Ok(surplus)
  }

  function DoBondAllTokens(st: State, q: Querier, sender: string): Result<Response> {
    if sender != q.contract then Err(Unauthorized) else
    var balance :- q.balance;
    var surplus := Surplus(st.supply, st.invest.minWithdrawal, balance);
    if surplus == Err(Overflow) then Ok(Response(st, [])) else
    var amount :- surplus;
    var bonded' :- Add(st.supply.bonded, amount);
    Ok(Response(
      st.(supply := st.supply.(bonded := bonded')),
      [Delegate(st.invest.validator, Coin(st.invest.bondDenom, amount))]))
  }

  function Execute(st: State, api: Api, q: Querier, sender: string, funds: seq<Coin>, msg: ExecuteMsg)
    : Result<Response>
  {
    match msg
    case Transfer(recipient, amount) => DoTransfer(st, api, sender, recipient, amount)
    case Bond => DoBond(st, api, q, sender, funds)
    case Unbond(amount) => DoUnbond(st, api, q, sender, amount)
    case Claim => DoClaim(st, api, q, sender)
    case Reinvest => DoReinvest(st)
    case BondAllTokens => DoBondAllTokens(st, q, sender)
  }

  /** The nominal value reported by `query_investment`, in decimal atomics. */
  function NominalValue(supply: Supply): Result<Uint128> {
    if supply.issued == 0 then Ok(FALLBACK_RATIO) else FromRatio(supply.bonded, supply.issued)
  }

  // ----- the chain around the contract -----

  /** The chain's view of the contract's native tokens: delegated, unbonding, and in its bank account. */
  datatype Chain = Chain(delegated: nat, unbonding: nat, balance: nat)

  datatype World = World(st: State, chain: Chain)

  datatype Env = Env(contract: string, api: Api)

  /** The chain's answers to the contract at this address, which stakes this denom. */
  function QueryChain(contract: string, denom: string, c: Chain): Querier {
    Querier(
      contract,
      if c.delegated == 0 then Ok([])
      else if c.delegated < LIMIT then Ok([Coin(denom, c.delegated)])
      else Err(Generic("delegation does not fit")),
      if c.balance < LIMIT then Ok(c.balance) else Err(Generic("balance does not fit")))
  }

  function Query(env: Env, w: World): Querier {
    QueryChain(env.contract, w.st.invest.bondDenom, w.chain)
  }

  function Attached(funds: seq<Coin>, denom: string): nat {
    if funds == [] then 0
    else (if funds[0].denom == denom then funds[0].amount else 0) + Attached(funds[1..], denom)
  }

  const REFUSED := Generic("refused by the chain")

  /** Bank and staking messages as the chain carries them out. */
  function RunBank(c: Chain, msgs: seq<Msg>): Result<Chain>
    decreases |msgs|
  {
    if msgs == [] then Ok(c)
    else
      var c' :- (match msgs[0]
        case Delegate(_, coin) =>
          if coin.amount > c.balance then Err(REFUSED)
          else Ok(Chain(c.delegated + coin.amount, c.unbonding, c.balance - coin.amount))
        case Undelegate(_, coin) =>
          if coin.amount > c.delegated then Err(REFUSED)
          else Ok(Chain(c.delegated - coin.amount, c.unbonding + coin.amount, c.balance))
        case Send(_, coin) =>
          if coin.amount > c.balance then Err(REFUSED)
          else Ok(Chain(c.delegated, c.unbonding, c.balance - coin.amount))
        case WithdrawReward(_) => Err(REFUSED)
        case CallBondAllTokens => Err(REFUSED));
      RunBank(c', msgs[1..])
  }

  /** Tokens arriving in the contract's account. */
  function Credited(c: Chain, amount: nat): Chain {
    c.(balance := c.balance + amount)
  }

  /** A handler's outcome, once the chain carries out its bank and staking messages. */
  function RunResponse(c: Chain, r: Result<Response>): Result<World> {
    var response :- r;
    var c' :- RunBank(c, response.msgs);
    Ok(World(response.state, c'))
  }

  predicate AsksReinvest(msgs: seq<Msg>) {
    |msgs| == 2 && msgs[0].WithdrawReward? && msgs[1] == CallBondAllTokens
  }

  /** All messages of a response: a reinvestment withdraws the rewards and calls the contract back. */
  function RunMsgs(env: Env, w: World, msgs: seq<Msg>, rewards: nat): Result<World> {
    if AsksReinvest(msgs) then
      var c := Credited(w.chain, rewards);
      RunResponse(c, DoBondAllTokens(w.st, QueryChain(env.contract, w.st.invest.bondDenom, c), env.contract))
    else
      RunResponse(w.chain, Ok(Response(w.st, msgs)))
  }

  datatype Event =
    | Call(sender: string, funds: seq<Coin>, msg: ExecuteMsg, rewards: nat)
    | Donate(amount: nat)
    | Mature(amount: nat)
    | Slash(delegated: nat, unbonding: nat)

  /** The rest of a transaction after its handler. */
  function Settle(env: Env, c: Chain, r: Result<Response>, rewards: nat): Result<World> {
    var response :- r;
    RunMsgs(env, World(response.state, c), response.msgs, rewards)
  }

  /** One transaction: the funds arrive, the handler runs, its messages run. */
  function Transact(env: Env, w: World, sender: string, funds: seq<Coin>, msg: ExecuteMsg, rewards: nat)
    : Result<World>
  {
    var c := Credited(w.chain, Attached(funds, w.st.invest.bondDenom));
    var q := QueryChain(env.contract, w.st.invest.bondDenom, c);
    Settle(env, c, Execute(w.st, env.api, q, sender, funds, msg), rewards)
  }

  /** What happens to the contract's tokens without the contract. */
  function Outside(c: Chain, e: Event): Chain {
    match e
    case Call(_, _, _, _) => c
    case Donate(amount) => Credited(c, amount)
    case Mature(amount) =>
      if amount > c.unbonding then c else Chain(c.delegated, c.unbonding - amount, c.balance + amount)
    case Slash(delegated, unbonding) =>
      if delegated > c.delegated || unbonding > c.unbonding then c
      else Chain(c.delegated - delegated, c.unbonding - unbonding, c.balance)
  }

  /** A step of the world. A failed transaction leaves no trace; only the contract itself can send as the
      contract; unbonded tokens mature into the balance; anyone may send tokens to the contract; a misbehaving
      validator may cost the contract delegated and unbonding tokens. */
  function Step(env: Env, w: World, e: Event): World {
    match e
    case Call(sender, funds, msg, rewards) =>
      if sender == env.contract then w else
      var r := Transact(env, w, sender, funds, msg, rewards);
      if r.Ok? then r.value else w
    case _ => w.(chain := Outside(w.chain, e))
  }

  function Run(env: Env, w: World, es: seq<Event>): World
    decreases |es|
  {
    if es == [] then w else Run(env, Step(env, w, es[0]), es[1..])
  }
}
