/** What every run of the staking pool keeps: the books balance, the price of a derivative token never falls,
    and the pool is backed one to one by its delegation and covers its claims, up to what slashing took. */
module StakingProofs {
  import opened Wrappers
  import opened Bytes
  import opened Math
  import opened Staking

  ghost function Sum(m: Accounts): nat {
    if m == map[] then 0 else
    var a :| a in m;
    m[a] + Sum(m - {a})
  }

  lemma {:induction false} SumRemove(m: Accounts, a: Bytes)
    requires a in m
    ensures Sum(m) == m[a] + Sum(m - {a})
    decreases |m|
  {
    var b :| b in m && Sum(m) == m[b] + Sum(m - {b});
    if b != a {
      assert |m - {a}| < |m| && |m - {b}| < |m| by { Smaller(m, a); Smaller(m, b); }
      SumRemove(m - {b}, a);
      SumRemove(m - {a}, b);
      assert m - {a} - {b} == m - {b} - {a};
    }
  }

  lemma Smaller(m: Accounts, a: Bytes)
    requires a in m
    ensures |m - {a}| < |m|
  {
    assert (m - {a}).Keys == m.Keys - {a};
    assert |m.Keys| == |m.Keys - {a}| + 1;
  }

  lemma SumSet(m: Accounts, a: Bytes, x: Uint128)
    ensures Sum(m[a := x]) == Sum(m) - Held(m, a) + x
    ensures Held(m, a) <= Sum(m)
  {
    SumRemove(m[a := x], a);
    assert m[a := x] - {a} == m - {a};
    if a in m {
      SumRemove(m, a);
    } else {
      assert m - {a} == m;
    }
  }

  lemma SumTwo(m: Accounts, a: Bytes, b: Bytes)
    requires a != b
    ensures Held(m, a) + Held(m, b) <= Sum(m)
  {
    SumSet(m, a, 0);
    SumSet(m[a := 0], b, 0);
  }

  /** The sum of balances is what was issued, the sum of claims is what is owed, and every derivative token
      is backed by at least one native token. */
  ghost predicate Books(st: State) {
    && Sum(st.balances) == st.supply.issued
    && Sum(st.claims) == st.supply.claims
    && st.supply.issued <= st.supply.bonded
  }

  /** Tokens lost to slashing. */
  datatype Loss = Loss(delegated: nat, unbonding: nat)

  const NO_LOSS := Loss(0, 0)

  /** Up to the loss, the delegation is what the contract believes and the claims are covered. */
  ghost predicate Backed(w: World, loss: Loss) {
    && w.chain.delegated + loss.delegated == w.st.supply.bonded
    && w.chain.balance + w.chain.unbonding + loss.unbonding >= w.st.supply.claims
  }

  ghost predicate Inv(w: World) {
    Books(w.st) && Backed(w, NO_LOSS)
  }

  /** The price bonded / issued did not fall (cross multiplied). */
  predicate PriceKept(s: Supply, s': Supply) {
    s.issued > 0 ==> s'.bonded * s.issued >= s.bonded * s'.issued
  }

  /** Derivative tokens in other hands than a's. */
  ghost function Others(st: State, a: Bytes): int {
    st.supply.issued - Held(st.balances, a)
  }

  // ----- one handler at a time -----

  lemma TransferKeeps(st: State, api: Api, sender: string, recipient: string, amount: Uint128)
    requires Books(st) && DoTransfer(st, api, sender, recipient, amount).Ok?
    ensures var st' := DoTransfer(st, api, sender, recipient, amount).value.state;
            && Books(st') && st'.supply == st.supply && st'.claims == st.claims && st'.invest == st.invest
            && Others(st', api(sender).value) >= Others(st, api(sender).value)
  {
    var from, rcpt := api(sender).value, api(recipient).value;
    SumSet(st.balances, from, Held(st.balances, from) - amount);
    var debited := Debit(st.balances, from, amount).value;
    SumSet(debited, rcpt, Held(debited, rcpt) + amount);
  }

  /** A transfer moves exactly the amount, also to oneself, and succeeds exactly when it is covered. */
  lemma TransferExact(st: State, api: Api, sender: string, recipient: string, amount: Uint128)
    requires Books(st)
    ensures var r := DoTransfer(st, api, sender, recipient, amount);
            && (r.Ok? <==> api(sender).Ok? && api(recipient).Ok? && amount <= Held(st.balances, api(sender).value))
            && (r.Ok? ==>
                  var from, rcpt := api(sender).value, api(recipient).value;
                  forall a :: Held(r.value.state.balances, a) == Held(st.balances, a)
                              - (if a == from then amount else 0) + (if a == rcpt then amount else 0))
  {
    if api(sender).Ok? && api(recipient).Ok? && amount <= Held(st.balances, api(sender).value) {
      var from, rcpt := api(sender).value, api(recipient).value;
      SumSet(st.balances, from, Held(st.balances, from) - amount);
      var debited := Debit(st.balances, from, amount).value;
      SumSet(debited, rcpt, 0);
    }
  }

  lemma MintFair(supply: Supply, payment: Uint128)
    requires supply.issued <= supply.bonded
    ensures ToMint(supply, supply.bonded, payment).Ok?
    ensures var minted := ToMint(supply, supply.bonded, payment).value;
            minted <= payment && (supply.issued > 0 ==> minted * supply.bonded <= payment * supply.issued)
  {
    if supply.issued == 0 {
      RatioWhole(payment, DECIMAL_FRACTIONAL);
    } else {
      RatioAtMostOne(payment, supply.issued, supply.bonded);
      RatioFloor(payment, supply.issued, supply.bonded);
    }
  }

  lemma BondKeeps(st: State, api: Api, q: Querier, sender: string, funds: seq<Coin>)
    requires Books(st) && DoBond(st, api, q, sender, funds).Ok?
    ensures var r, coin := DoBond(st, api, q, sender, funds).value, FindCoin(funds, st.invest.bondDenom);
            && coin.Some? && Books(r.state) && PriceKept(st.supply, r.state.supply)
            && r.state.supply.bonded == st.supply.bonded + coin.value.amount
            && r.state.supply.claims == st.supply.claims && r.state.claims == st.claims && r.state.invest == st.invest
            && r.msgs == [Delegate(st.invest.validator, coin.value)]
            && Others(r.state, api(sender).value) == Others(st, api(sender).value)
  {
    var payment := FindCoin(funds, st.invest.bondDenom).value.amount;
    MintFair(st.supply, payment);
    var minted := ToMint(st.supply, st.supply.bonded, payment).value;
    var from := api(sender).value;
    SumSet(st.balances, from, Held(st.balances, from) + minted);
    MintPrice(st.supply.issued, st.supply.bonded, payment, minted);
  }

  /** Exactly what bonding gives: into an empty pool one token per coin, otherwise the largest whole number
      of tokens whose price is covered by the payment; all of it goes to the sender. */
  lemma BondExact(st: State, api: Api, q: Querier, sender: string, funds: seq<Coin>)
    requires Books(st) && DoBond(st, api, q, sender, funds).Ok?
    ensures var st', payment := DoBond(st, api, q, sender, funds).value.state,
                                FindCoin(funds, st.invest.bondDenom).value.amount;
            var minted := st'.supply.issued - st.supply.issued;
            && (st.supply.issued == 0 ==> minted == payment)
            && (st.supply.issued > 0 ==>
                  && minted * st.supply.bonded <= payment * st.supply.issued
                  && payment * st.supply.issued < minted * st.supply.bonded + st.supply.bonded)
            && forall a :: Held(st'.balances, a) == Held(st.balances, a) + if Ok(a) == api(sender) then minted else 0
  {
    var payment := FindCoin(funds, st.invest.bondDenom).value.amount;
    if st.supply.issued == 0 {
      RatioWhole(payment, DECIMAL_FRACTIONAL);
    } else {
      RatioFloor(payment, st.supply.issued, st.supply.bonded);
    }
  }

  /** Exactly what unbonding takes and gives: the sender loses the amount, the owner gains the floored tax,
      the difference is burnt, and its floored share of the pool becomes the sender's claim. */
  lemma UnbondExact(st: State, api: Api, q: Querier, sender: string, amount: Uint128)
    requires DoUnbond(st, api, q, sender, amount).Ok?
    ensures var st' := DoUnbond(st, api, q, sender, amount).value.state;
            var from, owner := api(sender).value, api(st.invest.owner).value;
            var tax := amount * st.invest.exitTax / DECIMAL_FRACTIONAL;
            && amount >= st.invest.minWithdrawal && st.supply.issued > 0 && tax <= amount
            && st'.supply.issued == st.supply.issued - (amount - tax)
            && (forall a :: Held(st'.balances, a) == Held(st.balances, a)
                            - (if a == from then amount else 0) + (if a == owner then tax else 0))
            && (forall a :: Held(st'.claims, a) == Held(st.claims, a)
                            + if a == from then (amount - tax) * st.supply.bonded / st.supply.issued else 0)
  {
    TaxExact(amount, st.invest.exitTax);
    var from, owner := api(sender).value, api(st.invest.owner).value;
    var tax := MulDecimal(amount, st.invest.exitTax).value;
    DeductExact(st.balances, from, owner, amount, tax);
    RedeemExact(st.supply, amount - tax);
  }

  lemma TaxExact(amount: Uint128, exitTax: Uint128)
    requires MulDecimal(amount, exitTax).Ok?
    ensures MulDecimal(amount, exitTax).value == amount * exitTax / DECIMAL_FRACTIONAL
  {
    assert amount == 0 || exitTax == 0 ==> amount * exitTax == 0;
  }

  lemma DeductExact(m: Accounts, from: Bytes, owner: Bytes, amount: Uint128, tax: Uint128)
    requires Deduct(m, from, owner, amount, tax).Ok?
    ensures forall a :: Held(Deduct(m, from, owner, amount, tax).value, a) == Held(m, a)
                        - (if a == from then amount else 0) + (if a == owner then tax else 0)
  {
  }

  lemma RedeemExact(s: Supply, burnt: Uint128)
    requires Redeem(s, s.bonded, burnt).Ok?
    ensures var (s', unbonded) := Redeem(s, s.bonded, burnt).value;
            && s.issued > 0 && unbonded == burnt * s.bonded / s.issued && s'.issued == s.issued - burnt
  {
  }

  lemma MintPrice(i: nat, b: nat, payment: nat, minted: nat)
    requires i > 0 ==> minted * b <= payment * i
    ensures i > 0 ==> (b + payment) * i >= b * (i + minted)
  {
    assert (b + payment) * i == b * i + payment * i;
    assert b * (i + minted) == b * i + minted * b;
  }

  lemma BurnPrice(i: nat, b: nat, rest: nat, unbonded: nat)
    requires rest <= i <= b && i > 0 && unbonded * i <= rest * b
    ensures unbonded <= b && i - rest <= b - unbonded
    ensures (b - unbonded) * i >= b * (i - rest)
  {
    assert (b - unbonded) * i == b * i - unbonded * i;
    assert b * (i - rest) == b * i - rest * b;
    MulMono(i, b, i - rest);
    MulCancel(i - rest, b - unbonded, i);
  }

  /** The parts of a successful unbonding: tax, deducted balances, and the redeemed share. */
  lemma UnbondParts(st: State, api: Api, q: Querier, sender: string, amount: Uint128)
    requires DoUnbond(st, api, q, sender, amount).Ok?
    ensures var r := DoUnbond(st, api, q, sender, amount).value;
            var from, owner, tax := api(sender), api(st.invest.owner), MulDecimal(amount, st.invest.exitTax);
            && from.Ok? && owner.Ok? && tax.Ok? && tax.value <= amount
            && Deduct(st.balances, from.value, owner.value, amount, tax.value) == Ok(r.state.balances)
            && var redeemed := Redeem(st.supply, st.supply.bonded, amount - tax.value);
               && redeemed.Ok? && r.state.supply == redeemed.value.0
               && Credit(st.claims, from.value, redeemed.value.1) == Ok(r.state.claims)
               && r.state.invest == st.invest
               && r.msgs == [Undelegate(st.invest.validator, Coin(st.invest.bondDenom, redeemed.value.1))]
  {
  }

  lemma UnbondKeeps(st: State, api: Api, q: Querier, sender: string, amount: Uint128)
    requires Books(st) && DoUnbond(st, api, q, sender, amount).Ok?
    ensures var r, from := DoUnbond(st, api, q, sender, amount).value, api(sender).value;
            var granted := Held(r.state.claims, from) - Held(st.claims, from);
            && Books(r.state) && PriceKept(st.supply, r.state.supply)
            && 0 <= granted < LIMIT
            && r.state.supply.bonded == st.supply.bonded - granted
            && r.state.supply.claims == st.supply.claims + granted
            && r.state.invest == st.invest
            && r.msgs == [Undelegate(st.invest.validator, Coin(st.invest.bondDenom, granted))]
            && Others(r.state, from) >= Others(st, from)
  {
    UnbondParts(st, api, q, sender, amount);
    var from, owner := api(sender).value, api(st.invest.owner).value;
    var tax := MulDecimal(amount, st.invest.exitTax).value;
    DeductSum(st.balances, from, owner, amount, tax);
    RedeemKeeps(st.supply, amount - tax);
    CreditSum(st.claims, from, Redeem(st.supply, st.supply.bonded, amount - tax).value.1);
  }

  lemma CreditSum(m: Accounts, a: Bytes, x: Uint128)
    requires Credit(m, a, x).Ok?
    ensures Sum(Credit(m, a, x).value) == Sum(m) + x && Held(Credit(m, a, x).value, a) == Held(m, a) + x
  {
    SumSet(m, a, Held(m, a) + x);
  }

  lemma DeductSum(m: Accounts, from: Bytes, owner: Bytes, amount: Uint128, tax: Uint128)
    requires Deduct(m, from, owner, amount, tax).Ok?
    ensures var m' := Deduct(m, from, owner, amount, tax).value;
            && Sum(m') == Sum(m) - amount + tax
            && Held(m', from) <= Held(m, from) - amount + tax
  {
    SumSet(m, from, Held(m, from) - amount);
    var debited := Debit(m, from, amount).value;
    if tax > 0 {
      SumSet(debited, owner, Held(debited, owner) + tax);
    }
  }

  lemma RedeemKeeps(s: Supply, burnt: Uint128)
    requires s.issued <= s.bonded && Redeem(s, s.bonded, burnt).Ok?
    ensures var (s', unbonded) := Redeem(s, s.bonded, burnt).value;
            && s'.issued == s.issued - burnt && s'.bonded == s.bonded - unbonded && s'.claims == s.claims + unbonded
            && s'.issued <= s'.bonded && PriceKept(s, s')
  {
    RatioFloor(burnt, s.bonded, s.issued);
    BurnPrice(s.issued, s.bonded, burnt, MultiplyRatio(burnt, s.bonded, s.issued).value);
  }

  lemma ClaimKeeps(st: State, api: Api, q: Querier, sender: string)
    requires Books(st) && DoClaim(st, api, q, sender).Ok?
    ensures var r, from := DoClaim(st, api, q, sender).value, api(sender).value;
            var paid := Min(q.balance.value, Held(st.claims, from));
            && q.balance.Ok? && Books(r.state)
            && Held(r.state.claims, from) == Held(st.claims, from) - paid
            && r.state.supply == st.supply.(claims := st.supply.claims - paid)
            && r.state.balances == st.balances && r.state.invest == st.invest
            && r.msgs == [Send(sender, Coin(st.invest.bondDenom, paid))]
  {
    var from := api(sender).value;
    var paid := Min(q.balance.value, st.claims[from]);
    SumSet(st.claims, from, st.claims[from] - paid);
  }

  lemma BondAllKeeps(st: State, q: Querier, sender: string)
    requires Books(st) && DoBondAllTokens(st, q, sender).Ok?
    ensures var r := DoBondAllTokens(st, q, sender).value;
            && q.balance.Ok? && Books(r.state) && PriceKept(st.supply, r.state.supply)
            && (r == Response(st, []) ||
                var extra := q.balance.value - st.supply.claims;
                && extra >= st.invest.minWithdrawal
                && r.state == st.(supply := st.supply.(bonded := st.supply.bonded + extra))
                && r.msgs == [Delegate(st.invest.validator, Coin(st.invest.bondDenom, extra))])
  {
    var r := DoBondAllTokens(st, q, sender).value;
    MulMono(st.supply.bonded, r.state.supply.bonded, st.supply.issued);
  }

  // ----- whole steps -----

  lemma RunBankOne(c: Chain, m: Msg)
    ensures RunBank(c, []) == Ok(c)
    ensures m.Delegate? ==> RunBank(c, [m]) ==
                            if m.amount.amount > c.balance then Err(REFUSED)
                            else Ok(Chain(c.delegated + m.amount.amount, c.unbonding, c.balance - m.amount.amount))
    ensures m.Undelegate? ==> RunBank(c, [m]) ==
                              if m.amount.amount > c.delegated then Err(REFUSED)
                              else Ok(Chain(c.delegated - m.amount.amount, c.unbonding + m.amount.amount, c.balance))
    ensures m.Send? ==> RunBank(c, [m]) ==
                        if m.amount.amount > c.balance then Err(REFUSED)
                        else Ok(Chain(c.delegated, c.unbonding, c.balance - m.amount.amount))
  {
    assert [m][1..] == [];
  }

  lemma FoundIsAttached(funds: seq<Coin>, denom: string)
    requires FindCoin(funds, denom).Some?
    ensures FindCoin(funds, denom).value.amount <= Attached(funds, denom)
  {
  }

  /** The world a handler runs in: the funds attached to the call have already arrived. */
  function Funded(w: World, funds: seq<Coin>): World {
    w.(chain := Credited(w.chain, Attached(funds, w.st.invest.bondDenom)))
  }

  lemma ReinvestKeeps(env: Env, w: World, rewards: nat, loss: Loss)
    requires Books(w.st) && RunMsgs(env, w, DoReinvest(w.st).value.msgs, rewards).Ok?
    ensures var w' := RunMsgs(env, w, DoReinvest(w.st).value.msgs, rewards).value;
            && Books(w'.st) && PriceKept(w.st.supply, w'.st.supply)
            && (Backed(w, loss) ==> Backed(w', loss))
  {
    var w2 := w.(chain := w.chain.(balance := w.chain.balance + rewards));
    var r2 := DoBondAllTokens(w2.st, Query(env, w2), env.contract).value;
    BondAllKeeps(w2.st, Query(env, w2), env.contract);
    RunBankOne(w2.chain, if r2.msgs == [] then CallBondAllTokens else r2.msgs[0]);
  }

  /** One transaction on any chain, slashed or not: the books and the price need no backing, and the backing
      changes with the books. */
  lemma CallKeeps(env: Env, w: World, sender: string, funds: seq<Coin>, msg: ExecuteMsg, rewards: nat, loss: Loss)
    requires Books(w.st) && Transact(env, w, sender, funds, msg, rewards).Ok?
    ensures var w' := Transact(env, w, sender, funds, msg, rewards).value;
            && Books(w'.st) && PriceKept(w.st.supply, w'.st.supply)
            && (Backed(w, loss) ==> Backed(w', loss))
  {
    var w1 := Funded(w, funds);
    var q := Query(env, w1);
    var r := Execute(w1.st, env.api, q, sender, funds, msg).value;
    RunBankOne(w1.chain, if r.msgs == [] then CallBondAllTokens else r.msgs[0]);
    match msg
    case Transfer(recipient, amount) =>
      TransferKeeps(w1.st, env.api, sender, recipient, amount);
    case Bond =>
      BondKeeps(w1.st, env.api, q, sender, funds);
      FoundIsAttached(funds, w.st.invest.bondDenom);
    case Unbond(amount) =>
      UnbondKeeps(w1.st, env.api, q, sender, amount);
    case Claim =>
      ClaimKeeps(w1.st, env.api, q, sender);
    case Reinvest =>
      ReinvestKeeps(env, w1, rewards, loss);
    case BondAllTokens =>
      BondAllKeeps(w1.st, q, sender);
  }

  function LossOf(w: World, e: Event): Loss {
    if e.Slash? && e.delegated <= w.chain.delegated && e.unbonding <= w.chain.unbonding
    then Loss(e.delegated, e.unbonding) else NO_LOSS
  }

  function Plus(x: Loss, y: Loss): Loss {
    Loss(x.delegated + y.delegated, x.unbonding + y.unbonding)
  }

  lemma StepKeeps(env: Env, w: World, e: Event, loss: Loss)
    requires Books(w.st)
    ensures var w' := Step(env, w, e);
            && Books(w'.st) && PriceKept(w.st.supply, w'.st.supply)
            && (Backed(w, loss) ==> Backed(w', Plus(loss, LossOf(w, e))))
  {
    if e.Call? && e.sender != env.contract && Transact(env, w, e.sender, e.funds, e.msg, e.rewards).Ok? {
      CallKeeps(env, w, e.sender, e.funds, e.msg, e.rewards, loss);
    }
  }

  /** What slashing takes over a run, on top of an earlier loss. */
  function Losses(env: Env, w: World, es: seq<Event>, loss: Loss): Loss
    decreases |es|
  {
    if es == [] then loss else Losses(env, Step(env, w, es[0]), es[1..], Plus(loss, LossOf(w, es[0])))
  }

  ghost predicate Unslashed(es: seq<Event>) {
    forall e | e in es :: !e.Slash?
  }

  lemma {:induction false} UnslashedLosesNothing(env: Env, w: World, es: seq<Event>, loss: Loss)
    requires Unslashed(es)
    ensures Losses(env, w, es, loss) == loss
    decreases |es|
  {
    if es != [] {
      var w1 := Step(env, w, es[0]);
      assert es[0] in es;
      assert Plus(loss, LossOf(w, es[0])) == loss;
      UnslashedLosesNothing(env, w1, es[1..], loss);
    }
  }

  /** At every transaction boundary of every run, for any donations, rewards, partial claims, order of maturing
      and slashing: the books balance, the delegation misses exactly what slashing took, and the coverage of the
      claims at most that. */
  lemma {:induction false} RunKeeps(env: Env, w: World, es: seq<Event>, loss: Loss)
    requires Books(w.st)
    ensures Books(Run(env, w, es).st)
    ensures Backed(w, loss) ==> Backed(Run(env, w, es), Losses(env, w, es, loss))
    decreases |es|
  {
    if es != [] {
      StepKeeps(env, w, es[0], loss);
      RunKeeps(env, Step(env, w, es[0]), es[1..], Plus(loss, LossOf(w, es[0])));
    }
  }

  /** A freshly instantiated pool, whatever its address already holds, satisfies the invariant. */
  lemma InstantiateInv(sender: string, msg: InstantiateMsg, validators: seq<string>, denom: string, balance: nat)
    requires DoInstantiate(sender, msg, validators, denom).Ok?
    ensures Inv(World(DoInstantiate(sender, msg, validators, denom).value, Chain(0, 0, balance)))
    ensures msg.validator in validators
    ensures DoInstantiate(sender, msg, validators, denom).value.invest ==
            InvestmentInfo(sender, denom, msg.exitTax, msg.validator, msg.minWithdrawal)
  {
  }

  /** From instantiation on, through any run: the sums of balances and claims are the recorded totals, and
      every issued token is recorded as backed, so the fallback ratio is never used while tokens are issued.
      The delegation falls short of `bonded` by exactly what slashing took, the coverage of the claims by no
      more: without slashing, by nothing. */
  lemma AlwaysSolvent(env: Env, sender: string, msg: InstantiateMsg, validators: seq<string>, denom: string,
                      balance: nat, es: seq<Event>)
    requires DoInstantiate(sender, msg, validators, denom).Ok?
    ensures var w0 := World(DoInstantiate(sender, msg, validators, denom).value, Chain(0, 0, balance));
            var w, loss := Run(env, w0, es), Losses(env, w0, es, NO_LOSS);
            && Sum(w.st.balances) == w.st.supply.issued
            && Sum(w.st.claims) == w.st.supply.claims
            && w.st.supply.bonded >= w.st.supply.issued
            && w.chain.delegated + loss.delegated == w.st.supply.bonded
            && w.chain.balance + w.chain.unbonding + loss.unbonding >= w.st.supply.claims
            && (Unslashed(es) ==> loss == NO_LOSS)
  {
    var w0 := World(DoInstantiate(sender, msg, validators, denom).value, Chain(0, 0, balance));
    InstantiateInv(sender, msg, validators, denom, balance);
    RunKeeps(env, w0, es, NO_LOSS);
    if Unslashed(es) {
      UnslashedLosesNothing(env, w0, es, NO_LOSS);
    }
  }

  /** From instantiation on, through any run: the bond check of `bond` and `unbond` passes exactly when no
      delegated token was ever slashed; after such a slash it never passes again. */
  lemma BondCheckPassesIffNeverSlashed(env: Env, sender: string, msg: InstantiateMsg, validators: seq<string>,
                                       denom: string, balance: nat, es: seq<Event>)
    requires DoInstantiate(sender, msg, validators, denom).Ok?
    ensures var w0 := World(DoInstantiate(sender, msg, validators, denom).value, Chain(0, 0, balance));
            BondCheck(env, Run(env, w0, es)).Ok? <==> Losses(env, w0, es, NO_LOSS).delegated == 0
  {
    var w0 := World(DoInstantiate(sender, msg, validators, denom).value, Chain(0, 0, balance));
    AlwaysSolvent(env, sender, msg, validators, denom, balance, es);
    BondCheckIff(env, Run(env, w0, es));
  }

  /** The shortest such run: bond ten tokens, lose one of them. */
  lemma SlashStopsBonding(env: Env, sender: string, msg: InstantiateMsg, validators: seq<string>, denom: string,
                          a: string)
    requires DoInstantiate(sender, msg, validators, denom).Ok? && a != env.contract && env.api(a).Ok?
    ensures var w0 := World(DoInstantiate(sender, msg, validators, denom).value, Chain(0, 0, 0));
            var w := Run(env, w0, [Call(a, [Coin(denom, 10)], Bond, 0), Slash(1, 0)]);
            && w.st.supply == Supply(10, 10, 0) && w.chain.delegated == 9
            && BondCheck(env, w).Err? && Transact(env, w, a, [Coin(denom, 10)], Bond, 0).Err?
  {
    var w0 := World(DoInstantiate(sender, msg, validators, denom).value, Chain(0, 0, 0));
    FirstBond(env, w0, a);
    RunTwo(env, w0, Call(a, [Coin(denom, 10)], Bond, 0), Slash(1, 0));
    var w := Run(env, w0, [Call(a, [Coin(denom, 10)], Bond, 0), Slash(1, 0)]);
    BondCheckIff(env, w);
    SlashedBondFails(env, w, a, [Coin(denom, 10)]);
  }

  lemma RunTwo(env: Env, w: World, e: Event, f: Event)
    ensures Run(env, w, [e, f]) == Step(env, Step(env, w, e), f)
  {
    assert [e, f][1..] == [f] && [f][1..] == [];
    var w1 := Step(env, w, e);
    assert Run(env, w1, [f]) == Run(env, Step(env, w1, f), []);
  }

  lemma SlashedBondFails(env: Env, w: World, a: string, funds: seq<Coin>)
    requires Books(w.st) && w.chain.delegated != w.st.supply.bonded
    ensures Transact(env, w, a, funds, Bond, 0).Err?
  {
    BondSucceedsIff(env, Funded(w, funds), a, funds);
  }

  lemma FirstBond(env: Env, w: World, a: string)
    requires w.st.supply == Supply(0, 0, 0) && w.st.balances == map[] && w.st.claims == map[]
    requires w.chain == Chain(0, 0, 0)
    requires a != env.contract && env.api(a).Ok?
    ensures var w' := Step(env, w, Call(a, [Coin(w.st.invest.bondDenom, 10)], Bond, 0));
            && Books(w'.st) && w'.st.supply == Supply(10, 10, 0) && w'.chain == Chain(10, 0, 0)
            && w'.st.invest == w.st.invest
  {
    var coin := Coin(w.st.invest.bondDenom, 10);
    var w1 := Funded(w, [coin]);
    assert [coin][1..] == [] && Attached([coin], coin.denom) == 10;
    BondSucceedsIff(env, w1, a, [coin]);
    BondKeeps(w1.st, env.api, Query(env, w1), a, [coin]);
    BondExact(w1.st, env.api, Query(env, w1), a, [coin]);
    RunBankOne(w1.chain, Delegate(w.st.invest.validator, coin));
  }

  ghost predicate StaysIssued(env: Env, w: World, es: seq<Event>)
    decreases |es|
  {
    w.st.supply.issued > 0 && (es != [] ==> StaysIssued(env, Step(env, w, es[0]), es[1..]))
  }

  lemma PriceTransitive(a: Supply, b: Supply, c: Supply)
    requires PriceKept(a, b) && PriceKept(b, c) && a.issued > 0 && b.issued > 0
    ensures PriceKept(a, c)
  {
    calc <= {
      a.bonded * c.issued * b.issued;
      a.bonded * b.issued * c.issued;
      { MulMono(a.bonded * b.issued, b.bonded * a.issued, c.issued); }
      b.bonded * a.issued * c.issued;
      b.bonded * c.issued * a.issued;
      { MulMono(b.bonded * c.issued, c.bonded * b.issued, a.issued); }
      c.bonded * b.issued * a.issued;
      c.bonded * a.issued * b.issued;
    }
    MulCancel(a.bonded * c.issued, c.bonded * a.issued, b.issued);
  }

  /** Over any run in which tokens stay issued, slashed or not, the price never falls. */
  lemma {:induction false} PriceNeverFalls(env: Env, w: World, es: seq<Event>)
    requires Books(w.st) && StaysIssued(env, w, es)
    ensures PriceKept(w.st.supply, Run(env, w, es).st.supply)
    decreases |es|
  {
    if es != [] {
      var w1 := Step(env, w, es[0]);
      StepKeeps(env, w, es[0], NO_LOSS);
      PriceNeverFalls(env, w1, es[1..]);
      PriceTransitive(w.st.supply, w1.st.supply, Run(env, w, es).st.supply);
    }
  }

  // ----- what can still fail -----

  function TotalAmount(bonds: seq<Coin>): nat {
    if bonds == [] then 0 else TotalAmount(bonds[..|bonds| - 1]) + bonds[|bonds| - 1].amount
  }

  lemma {:induction false} SumBondsExact(bonds: seq<Coin>, denom: string)
    ensures SumBonds(bonds, denom).Ok? <==>
            (forall i | 0 <= i < |bonds| :: bonds[i].denom == denom) && TotalAmount(bonds) < LIMIT
    ensures SumBonds(bonds, denom).Ok? ==> SumBonds(bonds, denom).value == TotalAmount(bonds)
    decreases |bonds|
  {
    if bonds != [] {
      var n := |bonds| - 1;
      SumBondsExact(bonds[..n], denom);
      assert forall i | 0 <= i < n :: bonds[..n][i] == bonds[i];
    }
  }

  /** The bonded amount is the sum of all delegations, and is refused exactly when their denoms differ or the
      sum does not fit. */
  lemma GetBondedExact(q: Querier)
    requires q.delegations.Ok?
    ensures var bonds := q.delegations.value;
            && (GetBonded(q).Ok? <==>
                  (forall i | 0 <= i < |bonds| :: bonds[i].denom == bonds[0].denom) && TotalAmount(bonds) < LIMIT)
            && (GetBonded(q).Ok? ==> GetBonded(q).value == TotalAmount(bonds))
  {
    var bonds := q.delegations.value;
    if bonds != [] {
      SumBondsExact(bonds, bonds[0].denom);
    }
  }

  /** The payment is the first coin of the bond denom. */
  lemma {:induction false} PaymentIsFirst(funds: seq<Coin>, denom: string)
    ensures FindCoin(funds, denom) == None <==> forall i | 0 <= i < |funds| :: funds[i].denom != denom
    ensures FindCoin(funds, denom).Some? ==>
              exists i :: 0 <= i < |funds| && funds[i] == FindCoin(funds, denom).value && funds[i].denom == denom
                          && forall j | 0 <= j < i :: funds[j].denom != denom
  {
    if funds != [] {
      var rest := funds[1..];
      PaymentIsFirst(rest, denom);
      assert forall i | 1 <= i < |funds| :: funds[i] == rest[i - 1];
      if funds[0].denom != denom && FindCoin(rest, denom).Some? {
        var i :| 0 <= i < |rest| && rest[i] == FindCoin(rest, denom).value && rest[i].denom == denom
                 && forall j | 0 <= j < i :: rest[j].denom != denom;
        assert funds[i + 1] == rest[i] && forall j | 0 <= j < i + 1 :: funds[j].denom != denom;
      } else if funds[0].denom == denom {
        assert funds[0] == FindCoin(funds, denom).value;
      }
    }
  }

  /** What `bond` and `unbond` check before they touch the totals. */
  function BondCheck(env: Env, w: World): Result<()> {
    var bonded :- GetBonded(Query(env, w));
    AssertBonds(w.st.supply, bonded)
  }

  /** On any chain the bond check passes exactly when the delegation still is what the books say. */
  lemma BondCheckIff(env: Env, w: World)
    ensures BondCheck(env, w).Ok? <==> w.chain.delegated == w.st.supply.bonded
    ensures BondCheck(env, w).Ok? <==> GetBonded(Query(env, w)) == Ok(w.st.supply.bonded)
  {
    var d := w.chain.delegated;
    if 0 < d < LIMIT {
      var coin := Coin(w.st.invest.bondDenom, d);
      assert [coin][..0] == [];
      assert SumBonds([], coin.denom) == Ok(0);
      assert SumBonds([coin], coin.denom) == Add(0, d);
    }
  }

  /** Bonding fails only for a slashed delegation, a bad address, a missing coin, or a pool that would overflow. */
  lemma BondSucceedsIff(env: Env, w: World, sender: string, funds: seq<Coin>)
    requires Books(w.st)
    ensures DoBond(w.st, env.api, Query(env, w), sender, funds).Ok? <==>
            && w.chain.delegated == w.st.supply.bonded
            && env.api(sender).Ok?
            && FindCoin(funds, w.st.invest.bondDenom).Some?
            && w.st.supply.bonded + FindCoin(funds, w.st.invest.bondDenom).value.amount < LIMIT
  {
    BondCheckIff(env, w);
    if env.api(sender).Ok? && FindCoin(funds, w.st.invest.bondDenom).Some? {
      MintFair(w.st.supply, FindCoin(funds, w.st.invest.bondDenom).value.amount);
      SumSet(w.st.balances, env.api(sender).value, 0);
    }
  }

  /** What the burnt part of an unbonded amount is worth. */
  ghost function Worth(s: Supply, burnt: nat): int
    requires s.issued > 0
  {
    burnt * s.bonded / s.issued
  }

  /** Unbonding: with the delegation intact, once the account covers the amount and the tax is within it, none
      of the later subtractions from `bonded` and `issued`, nor the tax credit, can fail. */
  lemma UnbondSucceedsIff(env: Env, w: World, sender: string, amount: Uint128)
    requires Books(w.st)
    ensures DoUnbond(w.st, env.api, Query(env, w), sender, amount).Ok? <==>
            && w.chain.delegated == w.st.supply.bonded
            && amount >= w.st.invest.minWithdrawal
            && env.api(sender).Ok? && env.api(w.st.invest.owner).Ok?
            && amount <= Held(w.st.balances, env.api(sender).value)
            && w.st.supply.issued > 0
            && var tax := MulDecimal(amount, w.st.invest.exitTax);
               tax.Ok? && tax.value <= amount && w.st.supply.claims + Worth(w.st.supply, amount - tax.value) < LIMIT
  {
    BondCheckIff(env, w);
    if env.api(sender).Ok? && env.api(w.st.invest.owner).Ok? {
      var from, owner := env.api(sender).value, env.api(w.st.invest.owner).value;
      var tax := MulDecimal(amount, w.st.invest.exitTax);
      if tax.Ok? && tax.value <= amount {
        DeductOkIff(w.st.balances, from, owner, amount, tax.value);
        SumSet(w.st.balances, from, 0);
        if amount <= Held(w.st.balances, from) {
          RedeemOkIff(w.st.supply, amount - tax.value);
          SumSet(w.st.claims, from, 0);
        }
      }
    }
  }

  lemma DeductOkIff(m: Accounts, from: Bytes, owner: Bytes, amount: Uint128, tax: Uint128)
    requires Sum(m) < LIMIT && tax <= amount
    ensures Deduct(m, from, owner, amount, tax).Ok? <==> amount <= Held(m, from)
  {
    SumSet(m, from, 0);
    if from != owner {
      SumTwo(m, from, owner);
    }
  }

  lemma RedeemOkIff(s: Supply, burnt: Uint128)
    requires burnt <= s.issued <= s.bonded
    ensures Redeem(s, s.bonded, burnt).Ok? <==> s.issued > 0 && s.claims + Worth(s, burnt) < LIMIT
    ensures Redeem(s, s.bonded, burnt).Ok? ==> Redeem(s, s.bonded, burnt).value.1 == Worth(s, burnt)
  {
    if s.issued > 0 {
      RatioWithin(burnt, s.bonded, s.issued);
    }
  }

  /** Claiming never breaks the total: it fails only for a bad address, an unknown claim or a poor contract. */
  lemma ClaimSucceedsIff(env: Env, w: World, sender: string)
    requires Books(w.st)
    ensures DoClaim(w.st, env.api, Query(env, w), sender).Ok? <==>
            && w.chain.balance < LIMIT && w.chain.balance >= w.st.invest.minWithdrawal
            && env.api(sender).Ok? && env.api(sender).value in w.st.claims
  {
    if env.api(sender).Ok? {
      SumSet(w.st.claims, env.api(sender).value, 0);
    }
  }

  /** Once the account covers the claims - without slashing, once everything has matured - a successful claim
      is paid in full. */
  lemma MaturedClaimIsPaidInFull(env: Env, w: World, sender: string, rewards: nat)
    requires Books(w.st) && w.chain.balance >= w.st.supply.claims
    requires Transact(env, w, sender, [], Claim, rewards).Ok?
    ensures var w', from := Transact(env, w, sender, [], Claim, rewards).value, env.api(sender).value;
            && Held(w'.st.claims, from) == 0
            && w'.chain.balance == w.chain.balance - Held(w.st.claims, from)
            && forall a | a != from :: Held(w'.st.claims, a) == Held(w.st.claims, a)
  {
    var w1 := Funded(w, []);
    var q := Query(env, w1);
    var from := env.api(sender).value;
    ClaimKeeps(w1.st, env.api, q, sender);
    SumSet(w.st.claims, from, 0);
    var r := DoClaim(w1.st, env.api, q, sender).value;
    RunBankOne(w1.chain, r.msgs[0]);
  }

  /** Reinvesting stakes everything above the claims, leaving exactly the claims in the account. */
  lemma ReinvestLeavesClaims(env: Env, w: World, sender: string, rewards: nat)
    requires Books(w.st)
    requires Transact(env, w, sender, [], Reinvest, rewards).Ok?
    ensures var w' := Transact(env, w, sender, [], Reinvest, rewards).value;
            var extra := w.chain.balance + rewards - w.st.supply.claims;
            if extra >= w.st.invest.minWithdrawal
            then w' == World(w.st.(supply := w.st.supply.(bonded := w.st.supply.bonded + extra)),
                             Chain(w.chain.delegated + extra, w.chain.unbonding, w.st.supply.claims))
            else w' == World(w.st, w.chain.(balance := w.chain.balance + rewards))
  {
    var w2 := World(w.st, w.chain.(balance := w.chain.balance + rewards));
    assert Funded(w, []) == w;
    var r2 := DoBondAllTokens(w2.st, Query(env, w2), env.contract).value;
    BondAllKeeps(w2.st, Query(env, w2), env.contract);
    RunBankOne(w2.chain, if r2.msgs == [] then CallBondAllTokens else r2.msgs[0]);
  }

  /** The reported value of a derivative token is never below one native token. */
  lemma NominalValueAtLeastOne(w: World)
    requires Books(w.st) && NominalValue(w.st.supply).Ok?
    ensures NominalValue(w.st.supply).value >= DECIMAL_FRACTIONAL
  {
    var b, i := w.st.supply.bonded, w.st.supply.issued;
    if i > 0 {
      RatioAtLeast(b, i, DECIMAL_FRACTIONAL);
    }
  }

  // ----- nobody profits from rounding -----

  /** What a's own calls in a run paid into the pool and were granted as claims, and what reinvesting added. */
  datatype Ledger = Ledger(paid: nat, granted: nat, reinvested: nat)

  ghost function Added(s: Supply, s': Supply): nat {
    if s'.bonded < s.bonded then 0 else s'.bonded - s.bonded
  }

  ghost function Book(env: Env, w: World, e: Event, l: Ledger): Ledger {
    if !e.Call? || e.sender == env.contract || Transact(env, w, e.sender, e.funds, e.msg, e.rewards).Err? then l
    else if e.msg.Bond? then
      var coin := FindCoin(e.funds, w.st.invest.bondDenom);
      l.(paid := l.paid + if coin.Some? then coin.value.amount else 0)
    else if e.msg.Unbond? then
      var from := env.api(e.sender);
      var w' := Step(env, w, e);
      if from.Err? || Held(w'.st.claims, from.value) < Held(w.st.claims, from.value) then l
      else l.(granted := l.granted + Held(w'.st.claims, from.value) - Held(w.st.claims, from.value))
    else if e.msg.Reinvest? then
      l.(reinvested := l.reinvested + Added(w.st.supply, Step(env, w, e).st.supply))
    else l
  }

  ghost function RunLedger(env: Env, w: World, es: seq<Event>, l: Ledger): Ledger
    decreases |es|
  {
    if es == [] then l else RunLedger(env, Step(env, w, es[0]), es[1..], Book(env, w, es[0], l))
  }

  /** Only a calls, except that anyone may reinvest; the chain may mature, lose and receive tokens freely. */
  ghost predicate Solo(env: Env, a: Bytes, e: Event) {
    e.Call? ==> env.api(e.sender) == Ok(a) || e.msg.Reinvest?
  }

  ghost function Net(l: Ledger): int {
    l.paid + l.reinvested - l.granted
  }

  /** Granted claims plus the exact value of a's tokens do not exceed what was paid and reinvested. */
  ghost predicate NoGain(st: State, a: Bytes, l: Ledger) {
    && Others(st, a) > 0
    && Held(st.balances, a) * st.supply.bonded <= Net(l) * st.supply.issued
  }

  /** The arithmetic core: the value held by others does not fall, so a's value grows by no more than the pool. */
  lemma ShareBound(o: int, i: int, b: int, o': int, i': int, b': int)
    requires 0 < o <= o' <= i' && o <= i && 0 <= b && 0 <= b'
    requires b' * i >= b * i'
    ensures (i' - o') * b' * i <= i' * ((i - o) * b + (b' - b) * i)
  {
    var x, y := b' * i, b * i';
    assert o * y <= o * x by { MulMono(y, x, o); }
    assert o * x <= o' * x by { MulMono(o, o', x); }
    assert (i' - o') * b' * i == i' * x - o' * x;
    assert i' * ((i - o) * b + (b' - b) * i) == i' * x - o * y by {
      assert (i - o) * b + (b' - b) * i == x - o * b;
      assert i' * (x - o * b) == i' * x - i' * (o * b);
      assert i' * (o * b) == o * y;
    }
  }

  lemma GainBound(o: int, i: int, b: int, gain: int, o': int, i': int, b': int, gain': int)
    requires 0 < o <= o' <= i' && o <= i && 0 <= b && 0 <= b'
    requires b' * i >= b * i'
    requires (i - o) * b <= gain * i && gain' - gain == b' - b
    ensures (i' - o') * b' <= gain' * i'
  {
    ShareBound(o, i, b, o', i', b');
    var value := (i - o) * b + (b' - b) * i;
    assert value <= gain' * i by {
      assert gain' * i == gain * i + (b' - b) * i;
    }
    Scaled(value, gain' * i, i');
    assert i' * (gain' * i) == gain' * i' * i;
    MulCancel((i' - o') * b', gain' * i', i);
  }

  lemma Scaled(x: int, y: int, k: int)
    requires x <= y && k >= 0
    ensures k * x <= k * y
  {
    assert k * (y - x) >= 0;
  }

  lemma NoGainStep(st: State, st': State, a: Bytes, l: Ledger, l': Ledger)
    requires Books(st) && Books(st') && NoGain(st, a, l)
    requires PriceKept(st.supply, st'.supply) && Others(st', a) >= Others(st, a)
    requires st'.supply.bonded - st.supply.bonded == Net(l') - Net(l)
    ensures NoGain(st', a, l')
  {
    SumSet(st.balances, a, 0);
    SumSet(st'.balances, a, 0);
    GainBound(Others(st, a), st.supply.issued, st.supply.bonded, Net(l),
              Others(st', a), st'.supply.issued, st'.supply.bonded, Net(l'));
  }

  /** Reinvesting touches nothing but `bonded`, which does not fall. */
  lemma ReinvestAdds(env: Env, w: World, rewards: nat)
    requires Books(w.st) && RunMsgs(env, w, DoReinvest(w.st).value.msgs, rewards).Ok?
    ensures var st' := RunMsgs(env, w, DoReinvest(w.st).value.msgs, rewards).value.st;
            st'.supply.bonded >= w.st.supply.bonded
            && st' == w.st.(supply := w.st.supply.(bonded := st'.supply.bonded))
  {
    var w2 := World(w.st, Credited(w.chain, rewards));
    BondAllKeeps(w2.st, Query(env, w2), env.contract);
  }

  lemma SoloStep(env: Env, w: World, a: Bytes, e: Event, l: Ledger)
    requires Books(w.st) && Solo(env, a, e) && NoGain(w.st, a, l)
    ensures NoGain(Step(env, w, e).st, a, Book(env, w, e, l))
  {
    if e.Call? && e.sender != env.contract && Transact(env, w, e.sender, e.funds, e.msg, e.rewards).Ok? {
      StepKeeps(env, w, e, NO_LOSS);
      var w1 := Funded(w, e.funds);
      var q := Query(env, w1);
      match e.msg {
        case Transfer(recipient, amount) => TransferKeeps(w1.st, env.api, e.sender, recipient, amount);
        case Bond => BondKeeps(w1.st, env.api, q, e.sender, e.funds);
        case Unbond(amount) => UnbondKeeps(w1.st, env.api, q, e.sender, amount);
        case Claim => ClaimKeeps(w1.st, env.api, q, e.sender);
        case Reinvest => ReinvestAdds(env, w1, e.rewards);
        case BondAllTokens =>
      }
      NoGainStep(w.st, Step(env, w, e).st, a, l, Book(env, w, e, l));
    }
  }

  lemma {:induction false} SoloRun(env: Env, w: World, a: Bytes, es: seq<Event>, l: Ledger)
    requires Books(w.st) && NoGain(w.st, a, l)
    requires forall e | e in es :: Solo(env, a, e)
    ensures NoGain(Run(env, w, es).st, a, RunLedger(env, w, es, l))
    decreases |es|
  {
    if es != [] {
      SoloStep(env, w, a, es[0], l);
      StepKeeps(env, w, es[0], NO_LOSS);
      SoloRun(env, Step(env, w, es[0]), a, es[1..], Book(env, w, es[0], l));
    }
  }

  /** A staker who starts without tokens and acts alone, by any calls, while anyone may reinvest, never ends with
      claims plus redeemable tokens worth more than what was paid in and reinvested; without reinvesting, than
      what was paid in. */
  lemma NoProfit(env: Env, w: World, a: Bytes, es: seq<Event>)
    requires Books(w.st) && w.st.supply.issued > 0 && Held(w.st.balances, a) == 0
    requires forall e | e in es :: Solo(env, a, e)
    ensures var st', l := Run(env, w, es).st, RunLedger(env, w, es, Ledger(0, 0, 0));
            && st'.supply.issued > 0
            && l.granted + Held(st'.balances, a) * st'.supply.bonded / st'.supply.issued <= l.paid + l.reinvested
            && ((forall e | e in es :: !(e.Call? && e.msg.Reinvest?)) ==> l.reinvested == 0)
  {
    SoloRun(env, w, a, es, Ledger(0, 0, 0));
    RunKeeps(env, w, es, NO_LOSS);
    if forall e | e in es :: !(e.Call? && e.msg.Reinvest?) {
      NothingReinvested(env, w, es, Ledger(0, 0, 0));
    }
    var st', l := Run(env, w, es).st, RunLedger(env, w, es, Ledger(0, 0, 0));
    SumSet(st'.balances, a, 0);
    var i, v := st'.supply.issued, Held(st'.balances, a) * st'.supply.bonded;
    Floor(v, i);
    MulCancel(v / i, Net(l), i);
  }

  lemma {:induction false} NothingReinvested(env: Env, w: World, es: seq<Event>, l: Ledger)
    requires forall e | e in es :: !(e.Call? && e.msg.Reinvest?)
    ensures RunLedger(env, w, es, l).reinvested == l.reinvested
    decreases |es|
  {
    if es != [] {
      assert es[0] in es;
      BookSameReinvested(env, w, es[0], l);
      NothingReinvested(env, Step(env, w, es[0]), es[1..], Book(env, w, es[0], l));
    }
  }

  lemma BookSameReinvested(env: Env, w: World, e: Event, l: Ledger)
    requires !(e.Call? && e.msg.Reinvest?)
    ensures Book(env, w, e, l).reinvested == l.reinvested
  {
  }
}
