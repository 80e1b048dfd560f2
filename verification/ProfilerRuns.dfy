/** Measurements as they happen. Running the instrumented code performs exactly what the pass would emit for
    the operators the original run performs, forgetting the open block at every untaken branch. From this follow
    which starts and takes meet at run time, and what they measure. */
module ProfilerRuns {
  import opened Wasm
  import opened Profiler

  // ----- what a call does in its own frame -----

  /** An operator performed, or a conditional performed on a condition of 0. */
  datatype Event = Did(op: Op) | Untaken(ty: BlockType)

  function OpOf(e: Event): Op {
    if e.Untaken? then If(e.ty) else e.op
  }

  function Performed(es: seq<Event>): seq<Op> {
    seq(|es|, i requires 0 <= i < |es| => OpOf(es[i]))
  }

  predicate AllTaken(es: seq<Event>) {
    forall e | e in es :: e.Did?
  }

  function Opening(i: Instr): Op {
    match i
    case Simple(op) => op
    case BlockI(ty, _) => Block(ty)
    case LoopI(ty, _) => Loop(ty)
    case IfI(ty, _, _, _) => If(ty)
  }

  /** The condition on top of the stack, where a conditional finds one. */
  predicate HasCondition(ty: BlockType, st: State) {
    |st.stack| >= ty.params + 1 && st.stack[|st.stack| - 1].I32?
  }

  predicate Holds(st: State)
    requires st.stack != [] && st.stack[|st.stack| - 1].I32?
  {
    st.stack[|st.stack| - 1].v != 0
  }

  function Head(i: Instr, st: State): Event {
    if i.IfI? && HasCondition(i.ty, st) && !Holds(st) then Untaken(i.ty) else Did(Opening(i))
  }

  function TraceOne(m: Machine, fuel: nat, i: Instr, st: State): seq<Event>
    decreases fuel, i, 3
  {
    [Head(i, st)] + Tail(m, fuel, i, st)
  }

  /** What a construct does after its opening operator. */
  function Tail(m: Machine, fuel: nat, i: Instr, st: State): seq<Event>
    decreases fuel, i, 2
  {
    match i
    case Simple(op) => []
    case BlockI(ty, body) => if |st.stack| < ty.params then [] else Bracket(m, fuel, body, End, st)
    case LoopI(ty, body) =>
      if |st.stack| < ty.params then []
      else
        var next := NextRound(ty, st, EvalSeq(m, fuel, body, st));
        Bracket(m, fuel, body, End, st) + if next.Some? && fuel > 0 then TraceOne(m, fuel - 1, i, next.value) else []
    case IfI(ty, thn, hasElse, els) =>
      if !HasCondition(ty, st) then []
      else if Holds(st) then Bracket(m, fuel, thn, if hasElse then Else else End, Drop(st, 1))
      else if hasElse then Bracket(m, fuel, els, End, Drop(st, 1))
      else []
  }

  /** A body, and the operator that closes it when its end is reached. */
  function Bracket(m: Machine, fuel: nat, body: seq<Instr>, close: Op, st: State): seq<Event>
    decreases fuel, body, 1
  {
    TraceSeq(m, fuel, body, st) + if EvalSeq(m, fuel, body, st).Next? then [Did(close)] else []
  }

  function TraceSeq(m: Machine, fuel: nat, code: seq<Instr>, st: State): seq<Event>
    decreases fuel, code, 0
  {
    if code == [] then []
    else
      var r := EvalOne(m, fuel, code[0], st);
      TraceOne(m, fuel, code[0], st) + if r.Next? then TraceSeq(m, fuel, code[1..], r.st) else []
  }

  lemma {:induction false} TraceAppend(m: Machine, fuel: nat, a: seq<Instr>, b: seq<Instr>, st: State)
    ensures var r := EvalSeq(m, fuel, a, st);
            TraceSeq(m, fuel, a + b, st)
            == TraceSeq(m, fuel, a, st) + if r.Next? then TraceSeq(m, fuel, b, r.st) else []
  {
    if a == [] {
      assert a + b == b;
    } else {
      assert (a + b)[1..] == a[1..] + b;
      var r := EvalOne(m, fuel, a[0], st);
      if r.Next? {
        TraceAppend(m, fuel, a[1..], b, r.st);
      }
    }
  }

  // ----- the pass over a run -----

  /** The pass, over performed operators: an untaken branch drops the open block without its take. */
  function NextAcc(acc: CodeBlock, e: Event): CodeBlock {
    if e.Untaken? then [] else After(acc, e.op)
  }

  function AccOf(acc: CodeBlock, es: seq<Event>): CodeBlock
    decreases |es|
  {
    if es == [] then acc else AccOf(NextAcc(acc, es[0]), es[1..])
  }

  function TextOf(c: Config, acc: CodeBlock, es: seq<Event>): seq<Op>
    decreases |es|
  {
    if es == [] then []
    else Before(c, acc, OpOf(es[0])) + [OpOf(es[0])] + TextOf(c, NextAcc(acc, es[0]), es[1..])
  }

  /** Over these events the pass emits this text and ends with this block accumulated. */
  ghost predicate Moves(c: Config, acc: CodeBlock, es: seq<Event>, text: seq<Op>, acc': CodeBlock) {
    TextOf(c, acc, es) == text && AccOf(acc, es) == acc'
  }

  lemma {:induction false} MovesAppend(c: Config, acc: CodeBlock, a: seq<Event>, x: seq<Op>, acc1: CodeBlock,
                                       b: seq<Event>, y: seq<Op>, acc2: CodeBlock)
    requires Moves(c, acc, a, x, acc1) && Moves(c, acc1, b, y, acc2)
    ensures Moves(c, acc, a + b, x + y, acc2)
    decreases |a|
  {
    if a == [] {
      assert a + b == b && x + y == y;
    } else {
      assert (a + b)[1..] == a[1..] + b;
      var acc0, x0 := NextAcc(acc, a[0]), TextOf(c, NextAcc(acc, a[0]), a[1..]);
      MovesAppend(c, acc0, a[1..], x0, acc1, b, y, acc2);
      assert Before(c, acc, OpOf(a[0])) + [OpOf(a[0])] + (x0 + y) == x + y;
    }
  }

  lemma MovesOne(c: Config, acc: CodeBlock, e: Event)
    ensures Moves(c, acc, [e], Before(c, acc, OpOf(e)) + [OpOf(e)], NextAcc(acc, e))
  {
    assert [e][1..] == [];
  }

  lemma MovesCons(c: Config, acc: CodeBlock, e: Event, es: seq<Event>, text: seq<Op>, acc': CodeBlock)
    requires Moves(c, NextAcc(acc, e), es, text, acc')
    ensures Moves(c, acc, [e] + es, Before(c, acc, OpOf(e)) + [OpOf(e)] + text, acc')
  {
    assert ([e] + es)[1..] == es;
  }

  lemma PerformedAppend(a: seq<Event>, b: seq<Event>)
    ensures Performed(a + b) == Performed(a) + Performed(b)
  {
  }

  ghost predicate Settled(r: Outcome) {
    !r.Trap? && !r.OutOfFuel?
  }

  /** What the text has accumulated where an outcome leads: a jump lands behind a boundary. */
  ghost function Landing(r: Outcome, acc: CodeBlock): CodeBlock {
    if r.Next? then acc else []
  }

  /** The operators of an injected group are performed one after the other. */
  lemma GroupTrace(m: Machine, fuel: nat, c: Config, acc: CodeBlock, op: Op, st: State)
    requires Imports(m, c)
    ensures Performed(TraceSeq(m, fuel, Simples(Before(c, acc, op)), st)) == Before(c, acc, op)
  {
    var g := Before(c, acc, op);
    if g != [] {
      var st1 := Push(st, I32(AsI32(c.fnIndex)));
      var st2 := Push(st1, I32(AsI32(BLOCK_COUNT)));
      TraceCons(m, fuel, g, st, st1);
      TraceCons(m, fuel, g[1..], st1, st2);
      if Boundary(op) {
        var st3 := Push(st2, I64(AsI64(c.hash(acc))));
        TraceCons(m, fuel, g[1..][1..], st2, st3);
        TraceLast(m, fuel, g[1..][1..][1..], st3);
      } else {
        TraceLast(m, fuel, g[1..][1..], st2);
      }
    }
  }

  lemma TraceCons(m: Machine, fuel: nat, ops: seq<Op>, st: State, st': State)
    requires ops != [] && EvalOp(m, fuel, ops[0], st) == Next(st')
    ensures TraceSeq(m, fuel, Simples(ops), st) == [Did(ops[0])] + TraceSeq(m, fuel, Simples(ops[1..]), st')
  {
    assert Simples(ops)[1..] == Simples(ops[1..]);
    assert EvalOne(m, fuel, Simple(ops[0]), st) == Next(st');
    assert TraceOne(m, fuel, Simple(ops[0]), st) == [Did(ops[0])];
  }

  lemma TraceLast(m: Machine, fuel: nat, ops: seq<Op>, st: State)
    requires |ops| == 1
    ensures TraceSeq(m, fuel, Simples(ops), st) == [Did(ops[0])]
  {
    assert Simples(ops)[1..] == [];
    assert TraceOne(m, fuel, Simple(ops[0]), st) == [Did(ops[0])];
  }

  ghost predicate Setting(m: Machine, m': Machine, config: nat -> Config, c: Config) {
    Instrumented(m, m', config) && Imports(m, c) && Imports(m', c)
  }

  /** The instrumented code performs what the pass emits over the original run. */
  lemma {:induction false} SeqMoves(m: Machine, m': Machine, config: nat -> Config, fuel: nat, c: Config,
                                    code: seq<Instr>, acc: CodeBlock, st: State)
    requires Setting(m, m', config, c) && Settled(EvalSeq(m, fuel, code, st))
    ensures var w := WeaveSeq(c, code, acc);
            Moves(c, acc, TraceSeq(m, fuel, code, st), Performed(TraceSeq(m', fuel, w.code, st)),
                  Landing(EvalSeq(m, fuel, code, st), w.accumulated))
    decreases fuel, code, 0
  {
    if code != [] {
      var w := WeaveOne(c, code[0], acc);
      var v := WeaveSeq(c, code[1..], w.accumulated);
      OneMoves(m, m', config, fuel, c, code[0], acc, st);
      WeaveOneSame(m, m', config, fuel, c, code[0], acc, st);
      TraceAppend(m', fuel, w.code, v.code, st);
      var r := EvalOne(m, fuel, code[0], st);
      var t, t' := TraceOne(m, fuel, code[0], st), TraceSeq(m', fuel, w.code, st);
      if r.Next? {
        SeqMoves(m, m', config, fuel, c, code[1..], w.accumulated, r.st);
        var u, u' := TraceSeq(m, fuel, code[1..], r.st), TraceSeq(m', fuel, v.code, r.st);
        PerformedAppend(t', u');
        MovesAppend(c, acc, t, Performed(t'), w.accumulated, u, Performed(u'),
                    Landing(EvalSeq(m, fuel, code, st), v.accumulated));
      } else {
        assert t + [] == t && t' + [] == t';
      }
    }
  }

  lemma {:induction false} BracketMoves(m: Machine, m': Machine, config: nat -> Config, fuel: nat, c: Config,
                                        code: seq<Instr>, acc: CodeBlock, close: Op, st: State)
    requires Setting(m, m', config, c) && Settled(EvalSeq(m, fuel, code, st)) && Boundary(close)
    ensures var w := WeaveSeq(c, code, acc);
            var code' := w.code + Simples(Before(c, w.accumulated, close));
            Moves(c, acc, Bracket(m, fuel, code, close, st), Performed(Bracket(m', fuel, code', close, st)), [])
    decreases fuel, code, 1
  {
    var w := WeaveSeq(c, code, acc);
    var group := Simples(Before(c, w.accumulated, close));
    SeqMoves(m, m', config, fuel, c, code, acc, st);
    WeaveSeqSame(m, m', config, fuel, c, code, acc, st);
    WeaveClosedSame(m, m', config, fuel, c, code, acc, close, st);
    TraceAppend(m', fuel, w.code, group, st);
    var r := EvalSeq(m, fuel, code, st);
    var t, t' := TraceSeq(m, fuel, code, st), TraceSeq(m', fuel, w.code, st);
    if r.Next? {
      GroupTrace(m', fuel, c, w.accumulated, close, r.st);
      MovesOne(c, w.accumulated, Did(close));
      var tail := TraceSeq(m', fuel, group, r.st) + [Did(close)];
      PerformedAppend(TraceSeq(m', fuel, group, r.st), [Did(close)]);
      PerformedAppend(t', tail);
      MovesAppend(c, acc, t, Performed(t'), w.accumulated, [Did(close)], Performed(tail), []);
      assert Bracket(m', fuel, w.code + group, close, st) == t' + tail;
    } else {
      assert t + [] == t && t' + [] == t' && t' + [] + [] == t';
    }
  }

  lemma {:induction false} OneMoves(m: Machine, m': Machine, config: nat -> Config, fuel: nat, c: Config,
                                    i: Instr, acc: CodeBlock, st: State)
    requires Setting(m, m', config, c) && Settled(EvalOne(m, fuel, i, st))
    ensures var w := WeaveOne(c, i, acc);
            Moves(c, acc, TraceOne(m, fuel, i, st), Performed(TraceSeq(m', fuel, w.code, st)),
                  Landing(EvalOne(m, fuel, i, st), w.accumulated))
    decreases fuel, i, 3
  {
    var open, w := Opening(i), WeaveOne(c, i, acc);
    var i' := WovenInstr(c, i, acc);
    OneTrace(m', fuel, c, acc, open, i', st);
    TailMoves(m, m', config, fuel, c, i, acc, i', st);
    MovesCons(c, acc, Head(i, st), Tail(m, fuel, i, st), Performed(Tail(m', fuel, i', st)),
              Landing(EvalOne(m, fuel, i, st), w.accumulated));
  }

  /** The woven construct itself, behind its group. */
  ghost function WovenInstr(c: Config, i: Instr, acc: CodeBlock): (i': Instr)
    ensures WeaveOne(c, i, acc).code == Simples(Before(c, acc, Opening(i))) + [i']
    ensures Opening(i') == Opening(i) && forall st :: Head(i', st) == Head(i, st)
  {
    WeaveOne(c, i, acc).code[|Before(c, acc, Opening(i))|]
  }

  lemma OneTrace(m: Machine, fuel: nat, c: Config, acc: CodeBlock, op: Op, i: Instr, st: State)
    requires Imports(m, c) && Opening(i) == op
    ensures Performed(TraceSeq(m, fuel, Simples(Before(c, acc, op)) + [i], st))
         == Before(c, acc, op) + [op] + Performed(Tail(m, fuel, i, st))
  {
    var group := Simples(Before(c, acc, op));
    GroupTrace(m, fuel, c, acc, op, st);
    GroupIsSilent(m, fuel, c, acc, op, st);
    TraceBehind(m, fuel, group, i, st);
    PerformedAround(TraceSeq(m, fuel, group, st), Head(i, st), Tail(m, fuel, i, st));
  }

  lemma TraceBehind(m: Machine, fuel: nat, code: seq<Instr>, i: Instr, st: State)
    requires EvalSeq(m, fuel, code, st) == Next(st)
    ensures TraceSeq(m, fuel, code + [i], st) == TraceSeq(m, fuel, code, st) + TraceOne(m, fuel, i, st)
  {
    TraceAppend(m, fuel, code, [i], st);
    assert [i][1..] == [];
  }

  lemma PerformedAround(a: seq<Event>, e: Event, b: seq<Event>)
    ensures Performed(a + ([e] + b)) == Performed(a) + [OpOf(e)] + Performed(b)
  {
  }

  lemma {:induction false} TailMoves(m: Machine, m': Machine, config: nat -> Config, fuel: nat, c: Config,
                                     i: Instr, acc: CodeBlock, i': Instr, st: State)
    requires Setting(m, m', config, c) && Settled(EvalOne(m, fuel, i, st))
    requires WeaveOne(c, i, acc).code == Simples(Before(c, acc, Opening(i))) + [i']
    ensures Moves(c, NextAcc(acc, Head(i, st)), Tail(m, fuel, i, st), Performed(Tail(m', fuel, i', st)),
                  Landing(EvalOne(m, fuel, i, st), WeaveOne(c, i, acc).accumulated))
    decreases fuel, i, 2
  {
    assert i' == WeaveOne(c, i, acc).code[|Before(c, acc, Opening(i))|];
    match i
    case Simple(op) =>
    case BlockI(ty, body) => BracketMoves(m, m', config, fuel, c, body, After(acc, Block(ty)), End, st);
    case LoopI(ty, body) => LoopMoves(m, m', config, fuel, c, ty, body, st);
    case IfI(ty, thn, hasElse, els) =>
      if Holds(st) {
        BracketMoves(m, m', config, fuel, c, thn, After(acc, If(ty)), if hasElse then Else else End, Drop(st, 1));
      } else if hasElse {
        BracketMoves(m, m', config, fuel, c, els, [], End, Drop(st, 1));
      }
  }

  lemma {:induction false} LoopMoves(m: Machine, m': Machine, config: nat -> Config, fuel: nat, c: Config,
                                     ty: BlockType, body: seq<Instr>, st: State)
    requires Setting(m, m', config, c) && Settled(EvalOne(m, fuel, LoopI(ty, body), st))
    ensures var w := WeaveSeq(c, body, []);
            var loop' := LoopI(ty, w.code + Simples(Before(c, w.accumulated, End)));
            Moves(c, [], Tail(m, fuel, LoopI(ty, body), st), Performed(Tail(m', fuel, loop', st)), [])
    decreases fuel, body, 2
  {
    var w := WeaveSeq(c, body, []);
    var body' := w.code + Simples(Before(c, w.accumulated, End));
    LoopRounds(m, fuel, ty, body, st);
    BracketMoves(m, m', config, fuel, c, body, [], End, st);
    WeaveClosedSame(m, m', config, fuel, c, body, [], End, st);
    var next := NextRound(ty, st, EvalSeq(m, fuel, body, st));
    if next.Some? {
      LoopMoves(m, m', config, fuel - 1, c, ty, body, next.value);
    }
    LoopStepMoves(m, m', fuel, c, ty, body, body', st);
  }

  /** From the moves of a round and of the rounds behind it to those of the loop. */
  lemma LoopStepMoves(m: Machine, m': Machine, fuel: nat, c: Config, ty: BlockType, body: seq<Instr>,
                      body': seq<Instr>, st: State)
    requires |st.stack| >= ty.params && EvalSeq(m', fuel, body', st) == EvalSeq(m, fuel, body, st)
    requires Moves(c, [], Bracket(m, fuel, body, End, st), Performed(Bracket(m', fuel, body', End, st)), [])
    requires var next := NextRound(ty, st, EvalSeq(m, fuel, body, st));
             next.Some? && fuel > 0 ==>
               Moves(c, [], Tail(m, fuel - 1, LoopI(ty, body), next.value),
                     Performed(Tail(m', fuel - 1, LoopI(ty, body'), next.value)), [])
    ensures Moves(c, [], Tail(m, fuel, LoopI(ty, body), st), Performed(Tail(m', fuel, LoopI(ty, body'), st)), [])
  {
    var t, t' := Bracket(m, fuel, body, End, st), Bracket(m', fuel, body', End, st);
    LoopTail(m, fuel, ty, body, st);
    LoopTail(m', fuel, ty, body', st);
    var next := NextRound(ty, st, EvalSeq(m, fuel, body, st));
    if next.Some? && fuel > 0 {
      NextRoundMoves(c, Did(Loop(ty)), t, t', Tail(m, fuel - 1, LoopI(ty, body), next.value),
                     Tail(m', fuel - 1, LoopI(ty, body'), next.value));
    } else {
      assert t + [] == t && t' + [] == t';
    }
  }

  /** A loop that settles settles in every round. */
  lemma LoopRounds(m: Machine, fuel: nat, ty: BlockType, body: seq<Instr>, st: State)
    requires Settled(EvalOne(m, fuel, LoopI(ty, body), st))
    ensures |st.stack| >= ty.params && Settled(EvalSeq(m, fuel, body, st))
    ensures var next := NextRound(ty, st, EvalSeq(m, fuel, body, st));
            next.Some? ==> fuel > 0 && Settled(EvalOne(m, fuel - 1, LoopI(ty, body), next.value))
  {
  }

  lemma LoopTail(m: Machine, fuel: nat, ty: BlockType, body: seq<Instr>, st: State)
    requires |st.stack| >= ty.params
    ensures var next := NextRound(ty, st, EvalSeq(m, fuel, body, st));
            Tail(m, fuel, LoopI(ty, body), st) ==
            Bracket(m, fuel, body, End, st)
            + if next.Some? && fuel > 0 then [Did(Loop(ty))] + Tail(m, fuel - 1, LoopI(ty, body), next.value) else []
  {
  }

  /** A round of a loop and the rounds behind it. */
  lemma NextRoundMoves(c: Config, e: Event, t: seq<Event>, t': seq<Event>, u: seq<Event>, u': seq<Event>)
    requires e.Did? && Boundary(e.op)
    requires Moves(c, [], t, Performed(t'), []) && Moves(c, [], u, Performed(u'), [])
    ensures Moves(c, [], t + ([e] + u), Performed(t' + ([e] + u')), [])
  {
    MovesCons(c, [], e, u, Performed(u'), []);
    PerformedAppend([e], u');
    PerformedAppend(t', [e] + u');
    assert Performed([e] + u') == [] + [e.op] + Performed(u');
    MovesAppend(c, [], t, Performed(t'), [], [e] + u, Performed([e] + u'), []);
  }

  /** A whole call: the operators it performs instrumented are what the pass emits over its original run. */
  lemma RunIsPassOverRun(m: Machine, m': Machine, config: nat -> Config, fuel: nat, c: Config, body: seq<Instr>,
                         st: State)
    requires Instrumented(m, m', config) && Imports(m, c) && Settled(EvalSeq(m, fuel, body, st))
    ensures Moves(c, [], Bracket(m, fuel, body, End, st), Performed(Bracket(m', fuel, WeaveBody(c, body), End, st)), [])
  {
    BracketMoves(m, m', config, fuel, c, body, [], End, st);
  }

  // ----- starts and takes meet -----

  /** The measuring side: a start needs a closed measurement, a take an open one. */
  datatype Meter = Closed | Open | Refused

  function Tick(c: Config, s: Meter, op: Op): Meter {
    if op == Call(c.start) then (if s == Closed then Open else Refused)
    else if op == Call(c.take) then (if s == Open then Closed else Refused)
    else s
  }

  function Metered(c: Config, ops: seq<Op>, s: Meter): Meter
    decreases |ops|
  {
    if ops == [] then s else Tick(c, Metered(c, ops[..|ops| - 1], s), ops[|ops| - 1])
  }

  lemma {:induction false} MeteredAppend(c: Config, a: seq<Op>, b: seq<Op>, s: Meter)
    ensures Metered(c, a + b, s) == Metered(c, b, Metered(c, a, s))
    decreases |b|
  {
    if b == [] {
      assert a + b == a;
    } else {
      assert (a + b)[..|a + b| - 1] == a + b[..|b| - 1];
      MeteredAppend(c, a, b[..|b| - 1], s);
    }
  }

  /** In step: a measurement is open exactly while the pass has accumulated operators. Lost: a start was
      refused, or a measurement is open that no take in the text belongs to. */
  ghost predicate Verdict(s: Meter, acc: CodeBlock, lost: bool) {
    if lost then s == Refused || (s == Open && acc == [])
    else s == if acc == [] then Closed else Open
  }

  /** A take goes in front of a boundary that ends a block, a start in front of an operator that begins one. */
  function GroupTick(acc: CodeBlock, op: Op, s: Meter): Meter {
    if Boundary(op) then (if acc == [] then s else if s == Open then Closed else Refused)
    else if acc != [] then s
    else if s == Closed then Open else Refused
  }

  lemma MeteredGroup(c: Config, acc: CodeBlock, op: Op, s: Meter)
    requires Clean(c, [op])
    ensures Metered(c, Before(c, acc, op) + [op], s) == GroupTick(acc, op, s)
  {
    assert [op][0] == op;
    var g := Before(c, acc, op);
    assert (g + [op])[..|g|] == g;
    if g != [] {
      MeteredConstants(c, g[..|g| - 1], s);
    }
  }

  lemma {:induction false} MeteredConstants(c: Config, ops: seq<Op>, s: Meter)
    requires forall op | op in ops :: !op.Call?
    ensures Metered(c, ops, s) == s
    decreases |ops|
  {
    if ops != [] {
      MeteredConstants(c, ops[..|ops| - 1], s);
    }
  }

  /** Over any run the meter is in step with the pass until a branch is not taken, and never again after it. */
  lemma {:induction false} MeterFollows(c: Config, acc: CodeBlock, es: seq<Event>, s: Meter, lost: bool)
    requires Clean(c, Performed(es)) && Verdict(s, acc, lost)
    ensures Verdict(Metered(c, TextOf(c, acc, es), s), AccOf(acc, es), lost || !AllTaken(es))
    decreases |es|
  {
    if es != [] {
      var op, acc1 := OpOf(es[0]), NextAcc(acc, es[0]);
      assert Performed(es)[0] == op && Performed(es)[1..] == Performed(es[1..]);
      CleanParts(c, Performed(es));
      MeteredGroup(c, acc, op, s);
      VerdictStep(acc, es[0], s, lost);
      MeteredAppend(c, Before(c, acc, op) + [op], TextOf(c, acc1, es[1..]), s);
      AllTakenParts(es);
      MeterFollows(c, acc1, es[1..], Metered(c, Before(c, acc, op) + [op], s), lost || es[0].Untaken?);
    }
  }

  lemma VerdictStep(acc: CodeBlock, e: Event, s: Meter, lost: bool)
    requires Verdict(s, acc, lost)
    ensures Verdict(GroupTick(acc, OpOf(e), s), NextAcc(acc, e), lost || e.Untaken?)
  {
  }

  lemma AllTakenParts(es: seq<Event>)
    requires es != []
    ensures AllTaken(es) <==> es[0].Did? && AllTaken(es[1..])
  {
    assert es == [es[0]] + es[1..];
  }

  // ----- what is performed stands in the text -----

  function Accumulate(acc: CodeBlock, ops: seq<Op>): CodeBlock
    decreases |ops|
  {
    if ops == [] then acc else Accumulate(After(acc, ops[0]), ops[1..])
  }

  lemma {:induction false} BlocksAppend(acc: CodeBlock, a: seq<Op>, b: seq<Op>)
    ensures BlocksOf(acc, a + b) == BlocksOf(acc, a) + BlocksOf(Accumulate(acc, a), b)
    ensures Accumulate(acc, a + b) == Accumulate(Accumulate(acc, a), b)
    decreases |a|
  {
    if a == [] {
      assert a + b == b;
    } else {
      assert (a + b)[1..] == a[1..] + b;
      BlocksAppend(After(acc, a[0]), a[1..], b);
    }
  }

  /** The blocks that a run's takes measure. */
  function Measured(acc: CodeBlock, es: seq<Event>): set<CodeBlock>
    decreases |es|
  {
    if es == [] then {}
    else (if Boundary(OpOf(es[0])) && acc != [] then {acc} else {}) + Measured(NextAcc(acc, es[0]), es[1..])
  }

  lemma {:induction false} MeasuredAppend(acc: CodeBlock, a: seq<Event>, b: seq<Event>)
    ensures Measured(acc, a + b) == Measured(acc, a) + Measured(AccOf(acc, a), b)
    ensures AccOf(acc, a + b) == AccOf(AccOf(acc, a), b)
    decreases |a|
  {
    if a == [] {
      assert a + b == b;
    } else {
      assert (a + b)[1..] == a[1..] + b;
      MeasuredAppend(NextAcc(acc, a[0]), a[1..], b);
    }
  }

  /** Every operator performed is one of the text, and every block measured is one of the text's blocks. */
  ghost predicate Within(acc: CodeBlock, es: seq<Event>, text: seq<Op>) {
    (forall e | e in es :: OpOf(e) in text) && Measured(acc, es) <= BlocksOf(acc, text)
  }

  lemma WithinAppend(acc: CodeBlock, a: seq<Event>, x: seq<Op>, b: seq<Event>, y: seq<Op>)
    requires Within(acc, a, x) && AccOf(acc, a) == Accumulate(acc, x) && Within(Accumulate(acc, x), b, y)
    ensures Within(acc, a + b, x + y)
  {
    MeasuredAppend(acc, a, b);
    BlocksAppend(acc, x, y);
  }

  lemma WithinLonger(acc: CodeBlock, es: seq<Event>, x: seq<Op>, y: seq<Op>)
    requires Within(acc, es, x)
    ensures Within(acc, es, x + y)
  {
    BlocksAppend(acc, x, y);
  }

  lemma EndsAtBoundary(acc: CodeBlock, ops: seq<Op>, close: Op)
    requires Boundary(close)
    ensures Accumulate(acc, ops + [close]) == []
  {
    BlocksAppend(acc, ops, [close]);
    assert [close][1..] == [];
  }

  /** The run of a body stays within its text, and accumulates what the text does or lands behind a boundary. */
  lemma {:induction false} SeqWithin(m: Machine, fuel: nat, code: seq<Instr>, acc: CodeBlock, st: State)
    requires Settled(EvalSeq(m, fuel, code, st))
    ensures Within(acc, TraceSeq(m, fuel, code, st), Flatten(code))
    ensures AccOf(acc, TraceSeq(m, fuel, code, st))
         == Landing(EvalSeq(m, fuel, code, st), Accumulate(acc, Flatten(code)))
    decreases fuel, code, 0
  {
    if code != [] {
      var r, t := EvalOne(m, fuel, code[0], st), TraceOne(m, fuel, code[0], st);
      var x, y := FlattenOne(code[0]), Flatten(code[1..]);
      OneWithin(m, fuel, code[0], acc, st);
      BlocksAppend(acc, x, y);
      if r.Next? {
        var acc1 := Accumulate(acc, x);
        SeqWithin(m, fuel, code[1..], acc1, r.st);
        WithinAppend(acc, t, x, TraceSeq(m, fuel, code[1..], r.st), y);
        MeasuredAppend(acc, t, TraceSeq(m, fuel, code[1..], r.st));
      } else {
        WithinLonger(acc, t, x, y);
        assert t + [] == t;
      }
    }
  }

  lemma {:induction false} BracketWithin(m: Machine, fuel: nat, code: seq<Instr>, acc: CodeBlock, close: Op, st: State)
    requires Settled(EvalSeq(m, fuel, code, st)) && Boundary(close)
    ensures Within(acc, Bracket(m, fuel, code, close, st), Flatten(code) + [close])
    ensures AccOf(acc, Bracket(m, fuel, code, close, st)) == []
    decreases fuel, code, 1
  {
    var r, t := EvalSeq(m, fuel, code, st), TraceSeq(m, fuel, code, st);
    SeqWithin(m, fuel, code, acc, st);
    if r.Next? {
      assert [Did(close)][1..] == [] && [close][1..] == [];
      WithinAppend(acc, t, Flatten(code), [Did(close)], [close]);
      MeasuredAppend(acc, t, [Did(close)]);
    } else {
      assert t + [] == t;
      WithinLonger(acc, t, Flatten(code), [close]);
    }
  }

  lemma {:induction false} OneWithin(m: Machine, fuel: nat, i: Instr, acc: CodeBlock, st: State)
    requires Settled(EvalOne(m, fuel, i, st))
    ensures Within(acc, TraceOne(m, fuel, i, st), FlattenOne(i))
    ensures AccOf(acc, TraceOne(m, fuel, i, st)) == Landing(EvalOne(m, fuel, i, st), Accumulate(acc, FlattenOne(i)))
    decreases fuel, i, 2
  {
    var e, t := Head(i, st), Tail(m, fuel, i, st);
    assert ([e] + t)[1..] == t;
    match i
    case Simple(op) =>
      assert [op][1..] == [];
    case BlockI(ty, body) =>
      BracketWithin(m, fuel, body, After(acc, Block(ty)), End, st);
      OpenedWithin(acc, Block(ty), t, Flatten(body) + [End]);
      assert FlattenOne(i) == [Block(ty)] + (Flatten(body) + [End]);
      EndsAtBoundary(acc, [Block(ty)] + Flatten(body), End);
    case LoopI(ty, body) =>
      LoopWithin(m, fuel, ty, body, st);
      OpenedWithin(acc, Loop(ty), t, [Loop(ty)] + (Flatten(body) + [End]));
      LoopText(acc, ty, Flatten(body) + [End]);
      assert FlattenOne(i) == [Loop(ty)] + (Flatten(body) + [End]);
      EndsAtBoundary(acc, [Loop(ty)] + Flatten(body), End);
    case IfI(_, _, _, _) =>
      IfWithin(m, fuel, i, acc, st);
  }

  lemma OpenedWithin(acc: CodeBlock, open: Op, es: seq<Event>, text: seq<Op>)
    requires Within(After(acc, open), es, text)
    ensures Within(acc, [Did(open)] + es, [open] + text)
    ensures AccOf(acc, [Did(open)] + es) == AccOf(After(acc, open), es)
  {
    assert ([Did(open)] + es)[1..] == es && ([open] + text)[1..] == text;
  }

  lemma LoopText(acc: CodeBlock, ty: BlockType, text: seq<Op>)
    ensures BlocksOf(acc, [Loop(ty)] + ([Loop(ty)] + text)) == BlocksOf(acc, [Loop(ty)] + text)
    ensures forall op :: op in [Loop(ty)] + ([Loop(ty)] + text) <==> op in [Loop(ty)] + text
  {
    assert ([Loop(ty)] + text)[1..] == text && ([Loop(ty)] + ([Loop(ty)] + text))[1..] == [Loop(ty)] + text;
  }

  lemma {:induction false} LoopWithin(m: Machine, fuel: nat, ty: BlockType, body: seq<Instr>, st: State)
    requires Settled(EvalOne(m, fuel, LoopI(ty, body), st))
    ensures Within([], Tail(m, fuel, LoopI(ty, body), st), [Loop(ty)] + (Flatten(body) + [End]))
    ensures AccOf([], Tail(m, fuel, LoopI(ty, body), st)) == []
    decreases fuel, body, 2
  {
    var text, t := Flatten(body) + [End], Bracket(m, fuel, body, End, st);
    BracketWithin(m, fuel, body, [], End, st);
    RoundWithin(ty, text, t);
    var next := NextRound(ty, st, EvalSeq(m, fuel, body, st));
    if next.Some? && fuel > 0 {
      LoopWithin(m, fuel - 1, ty, body, next.value);
      RoundsWithin(ty, [Loop(ty)] + text, t, Tail(m, fuel - 1, LoopI(ty, body), next.value));
    } else {
      assert t + [] == t;
    }
  }

  lemma RoundWithin(ty: BlockType, text: seq<Op>, t: seq<Event>)
    requires Within([], t, text)
    ensures Within([], t, [Loop(ty)] + text)
  {
    assert ([Loop(ty)] + text)[1..] == text;
  }

  lemma RoundsWithin(ty: BlockType, text: seq<Op>, t: seq<Event>, u: seq<Event>)
    requires Within([], t, text) && AccOf([], t) == [] && Within([], u, text) && Loop(ty) in text
    ensures Within([], t + ([Did(Loop(ty))] + u), text)
    ensures AccOf([], t + ([Did(Loop(ty))] + u)) == AccOf([], u)
  {
    var e := [Did(Loop(ty))];
    assert (e + u)[1..] == u;
    MeasuredAppend([], t, e + u);
  }

  lemma {:induction false} IfWithin(m: Machine, fuel: nat, i: Instr, acc: CodeBlock, st: State)
    requires i.IfI? && Settled(EvalOne(m, fuel, i, st))
    ensures Within(acc, TraceOne(m, fuel, i, st), FlattenOne(i))
    ensures AccOf(acc, TraceOne(m, fuel, i, st)) == [] == Accumulate(acc, FlattenOne(i))
    decreases fuel, i, 1
  {
    var IfI(ty, thn, hasElse, els) := i;
    var t, close := Tail(m, fuel, i, st), if hasElse then Else else End;
    var x, y := [If(ty)] + (Flatten(thn) + [close]), if hasElse then Flatten(els) + [End] else [];
    assert FlattenOne(i) == x + y;
    assert x == [If(ty)] + Flatten(thn) + [close];
    EndsAtBoundary(acc, [If(ty)] + Flatten(thn), close);
    if hasElse {
      EndsAtBoundary([], Flatten(els), End);
    }
    BlocksAppend(acc, x, y);
    if Holds(st) {
      BracketWithin(m, fuel, thn, After(acc, If(ty)), close, Drop(st, 1));
      OpenedWithin(acc, If(ty), t, Flatten(thn) + [close]);
      WithinLonger(acc, [Did(If(ty))] + t, x, y);
    } else {
      if hasElse {
        BracketWithin(m, fuel, els, [], End, Drop(st, 1));
      }
      assert ([Untaken(ty)] + t)[1..] == t;
    }
  }

  // ----- what is measured -----

  /** Without untaken branches the run is emitted as the pass emits any stream. */
  lemma {:induction false} TakenRunIsFed(c: Config, p: Profiling, es: seq<Event>)
    requires AllTaken(es)
    ensures var q := FeedAll(c, p, Performed(es));
            q.out == p.out + TextOf(c, p.accumulated, es) && q.accumulated == AccOf(p.accumulated, es)
    ensures BlocksOf(p.accumulated, Performed(es)) == Measured(p.accumulated, es)
    decreases |es|
  {
    if es != [] {
      assert es[0] in es;
      assert Performed(es)[0] == es[0].op && Performed(es)[1..] == Performed(es[1..]);
      FeedEmits(c, p, es[0].op);
      var p1 := Feed(c, p, es[0].op);
      TakenRunIsFed(c, p1, es[1..]);
      Regrouped(p.out, Before(c, p.accumulated, es[0].op) + [es[0].op], TextOf(c, p1.accumulated, es[1..]));
    }
  }

  lemma FeedEmits(c: Config, p: Profiling, op: Op)
    ensures var q := Feed(c, p, op);
            q.out == p.out + (Before(c, p.accumulated, op) + [op]) && q.accumulated == After(p.accumulated, op)
  {
  }

  lemma Regrouped(a: seq<Op>, b: seq<Op>, d: seq<Op>)
    ensures a + b + d == a + (b + d)
  {
  }

  /** What a reader accepts, the meter accepts. */
  lemma {:induction false} ReadIsMetered(c: Config, blocks: Blocks, ops: seq<Op>)
    requires c.start != c.take
    ensures Read(c, blocks, ops) == Idle ==> Metered(c, ops, Closed) == Closed
    ensures Read(c, blocks, ops).Recording? ==> Metered(c, ops, Closed) == Open
    decreases |ops|
  {
    if ops != [] && Read(c, blocks, ops) != Broken {
      var n, k := |ops| - 1, LastPiece(c, ops);
      ReadPiece(c, blocks, ops);
      ReadIsMetered(c, blocks, ops[..k]);
      assert ops[..n] == ops[..k] + ops[k..n];
      MeteredAppend(c, ops[..k], ops[k..n], Closed);
      MeteredConstants(c, ops[k..n], Metered(c, ops[..k], Closed));
    }
  }

  /** Where the last group or operator starts. */
  function LastPiece(c: Config, ops: seq<Op>): int
    requires ops != []
  {
    var n := |ops| - 1;
    if ops[n] == Call(c.start) then n - 2 else if ops[n] == Call(c.take) then n - 3 else n
  }

  lemma ReadPiece(c: Config, blocks: Blocks, ops: seq<Op>)
    requires ops != [] && Read(c, blocks, ops) != Broken && c.start != c.take
    ensures var n, k := |ops| - 1, LastPiece(c, ops);
            && k >= 0 && (forall op | op in ops[k..n] :: !op.Call?)
            && var r, before := Read(c, blocks, ops), Read(c, blocks, ops[..k]);
               if ops[n] == Call(c.start) then before == Idle && r.Recording?
               else if ops[n] == Call(c.take) then before.Recording? && r == Idle
               else (before == Idle && r == Idle) || (before.Recording? && r.Recording?)
  {
    var n := |ops| - 1;
    if ops[n] == Call(c.start) {
      assert ops[n - 2] == ops[n - 2..][0] && ops[n - 1] == ops[n - 2..][1];
    } else if ops[n] == Call(c.take) {
      assert ops[n - 3] == ops[n - 3..n - 1][0] && ops[n - 2] == ops[n - 3..n - 1][1];
    }
  }

  /** A call's own frame, with its final `End`. */
  function CallTrace(m: Machine, fuel: nat, body: seq<Instr>, st: State): seq<Event> {
    Bracket(m, fuel, body, End, st)
  }

  lemma CallTraceClean(m: Machine, fuel: nat, c: Config, body: seq<Instr>, st: State)
    requires Clean(c, Flatten(body)) && Settled(EvalSeq(m, fuel, body, st))
    ensures Clean(c, Performed(CallTrace(m, fuel, body, st)))
    ensures Measured([], CallTrace(m, fuel, body, st)) <= BlocksOf([], Flatten(body) + [End])
  {
    var es := CallTrace(m, fuel, body, st);
    BracketWithin(m, fuel, body, [], End, st);
    forall k | 0 <= k < |es| ensures Performed(es)[k] != Call(c.start) && Performed(es)[k] != Call(c.take) {
      assert OpOf(es[k]) in Flatten(body) + [End];
    }
  }

  /** In a call that ends normally, the starts and takes a function performs alternate and end with a take if
      and only if every conditional of that call met a condition other than 0. */
  lemma MeasurementsMeetIff(m: Machine, m': Machine, config: nat -> Config, fuel: nat, c: Config, body: seq<Instr>,
                            st: State)
    requires Instrumented(m, m', config) && Imports(m, c) && Clean(c, Flatten(body))
    requires Settled(EvalSeq(m, fuel, body, st))
    ensures Metered(c, Performed(CallTrace(m', fuel, WeaveBody(c, body), st)), Closed) == Closed
            <==> AllTaken(CallTrace(m, fuel, body, st))
  {
    RunIsPassOverRun(m, m', config, fuel, c, body, st);
    CallTraceClean(m, fuel, c, body, st);
    MeterFollows(c, [], CallTrace(m, fuel, body, st), Closed, false);
  }

  /** Read against a store in which the function's blocks are found: the performed starts and takes alternate,
      every performed operator that is not a boundary is measured once, and each performed take's identifier
      looks up exactly the operators performed since its start - if and only if every conditional of that call
      met a condition other than 0. */
  lemma MeasurementsMeasureIff(m: Machine, m': Machine, config: nat -> Config, fuel: nat, c: Config, blocks: Blocks,
                               body: seq<Instr>, st: State)
    requires Instrumented(m, m', config) && Imports(m, c) && Clean(c, Flatten(body))
    requires Settled(EvalSeq(m, fuel, body, st))
    requires forall b | b in BlocksOf([], Flatten(body) + [End]) :: Found(c, blocks, b)
    ensures Read(c, blocks, Performed(CallTrace(m', fuel, WeaveBody(c, body), st))) == Idle
            <==> AllTaken(CallTrace(m, fuel, body, st))
  {
    var es, out := CallTrace(m, fuel, body, st), Performed(CallTrace(m', fuel, WeaveBody(c, body), st));
    RunIsPassOverRun(m, m', config, fuel, c, body, st);
    CallTraceClean(m, fuel, c, body, st);
    if AllTaken(es) {
      var p := Profiling([], map[], []);
      TakenRunIsFed(c, p, es);
      assert p.out + out == out;
      ReadAll(c, blocks, p, Performed(es));
    } else {
      ReadIsMetered(c, blocks, out);
      MeterFollows(c, [], es, Closed, false);
    }
  }

  /** In a module whose blocks do not clash, read against the store all its functions share. */
  lemma ModuleMeasurementsIff(m: Machine, m': Machine, config: nat -> Config, fuel: nat, c: Config, blocks: Blocks,
                              streams: seq<Stream>, k: nat, body: seq<Instr>, st: State)
    requires Instrumented(m, m', config) && Imports(m, c) && Clean(c, Flatten(body))
    requires Settled(EvalSeq(m, fuel, body, st))
    requires k < |streams| && streams[k].ops == Flatten(body) + [End] && NoClash(c, ModuleBlocks(streams))
    ensures Read(c, StoreAfter(c, blocks, streams), Performed(CallTrace(m', fuel, WeaveBody(c, body), st))) == Idle
            <==> AllTaken(CallTrace(m, fuel, body, st))
  {
    forall b | b in BlocksOf([], Flatten(body) + [End]) ensures Found(c, StoreAfter(c, blocks, streams), b) {
      InModule(streams, b);
      ModuleStoreKeeps(c, blocks, streams, b);
    }
    MeasurementsMeasureIff(m, m', config, fuel, c, StoreAfter(c, blocks, streams), body, st);
  }

  const UNTAKEN_IF := IfI(BlockType(0, 0), [], false, [])
  const UNTAKEN_BODY := [Simple(I32Const(0)), UNTAKEN_IF]

  lemma UntakenBody(m: Machine, st: State)
    ensures Flatten(UNTAKEN_BODY) == [I32Const(0), If(BlockType(0, 0)), End]
    ensures EvalSeq(m, 0, UNTAKEN_BODY, st) == Next(st)
    ensures !AllTaken(CallTrace(m, 0, UNTAKEN_BODY, st))
  {
    var st1, rest := Push(st, I32(0)), UNTAKEN_BODY[1..];
    assert rest == [UNTAKEN_IF] && rest[1..] == [];
    FlattenSingle(UNTAKEN_IF);
    assert Drop(st1, 1) == st;
    assert EvalOne(m, 0, UNTAKEN_IF, st1) == Next(st);
    assert EvalSeq(m, 0, rest, st1) == Next(st);
    assert EvalOne(m, 0, Simple(I32Const(0)), st) == Next(st1);
    var e := Untaken(BlockType(0, 0));
    assert TraceOne(m, 0, UNTAKEN_IF, st1)[0] == e;
    assert e in TraceSeq(m, 0, rest, st1);
    assert e in TraceSeq(m, 0, UNTAKEN_BODY, st);
    assert e in CallTrace(m, 0, UNTAKEN_BODY, st);
  }

  /** The smallest such call: an untaken branch without an else leaves its measurement open. */
  lemma UntakenBranchLeavesMeasurementOpen(m: Machine, m': Machine, config: nat -> Config, c: Config, st: State)
    requires Instrumented(m, m', config) && Imports(m, c) && c.start != c.take
    ensures EvalSeq(m', 0, WeaveBody(c, UNTAKEN_BODY), st) == Next(st)
    ensures Metered(c, Performed(CallTrace(m', 0, WeaveBody(c, UNTAKEN_BODY), st)), Closed) != Closed
  {
    UntakenBody(m, st);
    WeaveClosedSame(m, m', config, 0, c, UNTAKEN_BODY, [], End, st);
    MeasurementsMeetIff(m, m', config, 0, c, UNTAKEN_BODY, st);
  }
}
