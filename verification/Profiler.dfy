/** WebAssembly code, flat and structured, with the semantics of its control operators (section 4.4 of the
    WebAssembly Core Specification). Operators without control effect are left to an interpretation. */
module Wasm {
  import opened Wrappers

  /** Parameters and results of a block. */
  datatype BlockType = BlockType(params: nat, results: nat)

  datatype Op =
    | Plain(name: string, immediate: int)
    | I32Const(i32: int)
    | I64Const(i64: int)
    | Call(function_index: nat)
    | CallIndirect(type_index: nat)
    | Return
    | Br(depth: nat)
    | BrIf(depth: nat)
    | BrTable(targets: seq<nat>, default_target: nat)
    | Block(ty: BlockType)
    | Loop(ty: BlockType)
    | If(ty: BlockType)
    | Else
    | End

  /** Structured code. `Simple` holds any operator other than Block, Loop, If, Else and End. */
  datatype Instr =
    | Simple(op: Op)
    | BlockI(ty: BlockType, body: seq<Instr>)
    | LoopI(ty: BlockType, body: seq<Instr>)
    | IfI(ty: BlockType, thn: seq<Instr>, hasElse: bool, els: seq<Instr>)

  predicate Structural(op: Op) {
    op.Block? || op.Loop? || op.If? || op.Else? || op.End?
  }

  function FlattenOne(i: Instr): seq<Op>
    decreases i, 1
  {
    match i
    case Simple(op) => [op]
    case BlockI(ty, body) => [Block(ty)] + Flatten(body) + [End]
    case LoopI(ty, body) => [Loop(ty)] + Flatten(body) + [End]
    case IfI(ty, thn, hasElse, els) =>
      [If(ty)] + Flatten(thn) + (if hasElse then [Else] + Flatten(els) else []) + [End]
  }

  function Flatten(code: seq<Instr>): seq<Op>
    decreases code, 0
  {
    if code == [] then [] else FlattenOne(code[0]) + Flatten(code[1..])
  }

  // ----- streams and structured code are the same thing -----

  /** Code as a stream can spell it: structural operators only as constructs, no else code without an else. */
  ghost predicate ProperOne(i: Instr)
    decreases i, 1
  {
    match i
    case Simple(op) => !Structural(op)
    case BlockI(_, body) => Proper(body)
    case LoopI(_, body) => Proper(body)
    case IfI(_, thn, hasElse, els) => Proper(thn) && Proper(els) && (!hasElse ==> els == [])
  }

  ghost predicate Proper(code: seq<Instr>)
    decreases code, 0
  {
    code == [] || (ProperOne(code[0]) && Proper(code[1..]))
  }

  predicate Closes(ops: seq<Op>) {
    ops == [] || ops[0].Else? || ops[0].End?
  }

  datatype Parsed<T> = Malformed | Parsed(result: T, rest: seq<Op>)

  /** Reading a stream up to the first unmatched `Else` or `End`. */
  function Parse(ops: seq<Op>): (p: Parsed<seq<Instr>>)
    ensures p.Parsed? ==> Closes(p.rest) && |p.rest| <= |ops|
    decreases |ops|, 1
  {
    if Closes(ops) then Parsed([], ops)
    else
      var one := ParseOne(ops);
      if one.Malformed? then Malformed
      else
        var more := Parse(one.rest);
        if more.Malformed? then Malformed else Parsed([one.result] + more.result, more.rest)
  }

  function ParseOne(ops: seq<Op>): (p: Parsed<Instr>)
    requires !Closes(ops)
    ensures p.Parsed? ==> |p.rest| < |ops|
    decreases |ops|, 0
  {
    if !Structural(ops[0]) then Parsed(Simple(ops[0]), ops[1..])
    else
      var body := Parse(ops[1..]);
      if body.Malformed? || body.rest == [] then Malformed
      else if body.rest[0].End? then Parsed(Enclose(ops[0], body.result), body.rest[1..])
      else if !ops[0].If? then Malformed
      else
        var els := Parse(body.rest[1..]);
        if els.Malformed? || els.rest == [] || !els.rest[0].End? then Malformed
        else Parsed(IfI(ops[0].ty, body.result, true, els.result), els.rest[1..])
  }

  /** The construct an operator opens, without an else. */
  function Enclose(open: Op, body: seq<Instr>): Instr
    requires open.Block? || open.Loop? || open.If?
  {
    match open
    case Block(ty) => BlockI(ty, body)
    case Loop(ty) => LoopI(ty, body)
    case If(ty) => IfI(ty, body, false, [])
  }

  lemma EncloseFlat(open: Op, body: seq<Instr>, rest: seq<Op>)
    requires open.Block? || open.Loop? || open.If?
    ensures FlattenOne(Enclose(open, body)) + rest == [open] + (Flatten(body) + ([End] + rest))
    ensures ProperOne(Enclose(open, body)) == Proper(body)
  {
  }

  lemma ElseFlat(ty: BlockType, thn: seq<Instr>, els: seq<Instr>, rest: seq<Op>)
    ensures FlattenOne(IfI(ty, thn, true, els)) + rest
         == [If(ty)] + (Flatten(thn) + ([Else] + (Flatten(els) + ([End] + rest))))
  {
  }

  lemma FlattenCons(i: Instr, more: seq<Instr>, rest: seq<Op>)
    ensures Flatten([i] + more) + rest == FlattenOne(i) + (Flatten(more) + rest)
    ensures Proper([i] + more) == (ProperOne(i) && Proper(more))
  {
    assert ([i] + more)[1..] == more;
  }

  /** What was read is proper code, and writes as the operators before the rest. */
  ghost predicate Reads(ops: seq<Op>, p: Parsed<seq<Instr>>) {
    p.Parsed? ==> Proper(p.result) && ops == Flatten(p.result) + p.rest
  }

  ghost predicate ReadsOne(ops: seq<Op>, p: Parsed<Instr>) {
    p.Parsed? ==> ProperOne(p.result) && ops == FlattenOne(p.result) + p.rest
  }

  lemma {:induction false} ParseSound(ops: seq<Op>)
    ensures Reads(ops, Parse(ops))
    decreases |ops|, 1
  {
    if Closes(ops) {
      assert ops == [] + ops;
    } else {
      var one := ParseOne(ops);
      ParseOneSound(ops);
      if one.Parsed? {
        ParseSound(one.rest);
        var more := Parse(one.rest);
        if more.Parsed? {
          FlattenCons(one.result, more.result, more.rest);
        }
      }
    }
  }

  lemma {:induction false} ParseOneSound(ops: seq<Op>)
    requires !Closes(ops)
    ensures ReadsOne(ops, ParseOne(ops))
    decreases |ops|, 0
  {
    if !Structural(ops[0]) {
      assert ops == [ops[0]] + ops[1..];
    } else {
      var body := Parse(ops[1..]);
      ParseSound(ops[1..]);
      if body.Parsed? && body.rest != [] {
        if body.rest[0].End? {
          EnclosedSound(ops, body);
        } else {
          var els := Parse(body.rest[1..]);
          ParseSound(body.rest[1..]);
          if ParseOne(ops).Parsed? {
            ElseSound(ops, body, els);
          }
        }
      }
    }
  }

  lemma Cons(ops: seq<Op>)
    requires ops != []
    ensures ops == [ops[0]] + ops[1..]
  {
  }

  lemma EnclosedSound(ops: seq<Op>, body: Parsed<seq<Instr>>)
    requires !Closes(ops) && Structural(ops[0])
    requires body.Parsed? && body.rest != [] && Reads(ops[1..], body)
    requires body.rest[0].End?
    ensures ReadsOne(ops, Parsed(Enclose(ops[0], body.result), body.rest[1..]))
  {
    Cons(ops);
    Cons(body.rest);
    EncloseFlat(ops[0], body.result, body.rest[1..]);
  }

  lemma ElseSound(ops: seq<Op>, body: Parsed<seq<Instr>>, els: Parsed<seq<Instr>>)
    requires ops != [] && ops[0].If?
    requires body.Parsed? && body.rest != [] && Reads(ops[1..], body) && body.rest[0].Else?
    requires els.Parsed? && els.rest != [] && Reads(body.rest[1..], els) && els.rest[0].End?
    ensures ReadsOne(ops, Parsed(IfI(ops[0].ty, body.result, true, els.result), els.rest[1..]))
  {
    Cons(ops);
    Cons(body.rest);
    Cons(els.rest);
    ElseFlat(ops[0].ty, body.result, els.result, els.rest[1..]);
  }

  lemma {:induction false} ParseFlatten(code: seq<Instr>, rest: seq<Op>)
    requires Proper(code) && Closes(rest)
    ensures Parse(Flatten(code) + rest) == Parsed(code, rest)
    decreases code, 0
  {
    if code == [] {
      assert Flatten(code) + rest == rest;
    } else {
      var tail := Flatten(code[1..]) + rest;
      assert Flatten(code) + rest == FlattenOne(code[0]) + tail;
      ParseFlattenOne(code[0], tail);
      ParseFlatten(code[1..], rest);
      assert code == [code[0]] + code[1..];
    }
  }

  lemma {:induction false} ParseFlattenOne(i: Instr, rest: seq<Op>)
    requires ProperOne(i)
    ensures var ops := FlattenOne(i) + rest;
            !Closes(ops) && ParseOne(ops) == Parsed(i, rest)
    decreases i, 1
  {
    match i
    case Simple(op) =>
      assert (FlattenOne(i) + rest)[1..] == rest;
    case BlockI(ty, body) =>
      ParseFlatten(body, [End] + rest);
      ParseEnclosed(Block(ty), body, rest);
    case LoopI(ty, body) =>
      ParseFlatten(body, [End] + rest);
      ParseEnclosed(Loop(ty), body, rest);
    case IfI(ty, thn, hasElse, els) =>
      if hasElse {
        ParseFlatten(els, [End] + rest);
        ParseFlatten(thn, [Else] + (Flatten(els) + ([End] + rest)));
        ParseElse(ty, thn, els, rest);
      } else {
        ParseFlatten(thn, [End] + rest);
        ParseEnclosed(If(ty), thn, rest);
      }
  }

  lemma ParseEnclosed(open: Op, body: seq<Instr>, rest: seq<Op>)
    requires open.Block? || open.Loop? || open.If?
    requires Parse(Flatten(body) + ([End] + rest)) == Parsed(body, [End] + rest)
    ensures var ops := FlattenOne(Enclose(open, body)) + rest;
            !Closes(ops) && ParseOne(ops) == Parsed(Enclose(open, body), rest)
  {
    EncloseFlat(open, body, rest);
    var ops := FlattenOne(Enclose(open, body)) + rest;
    assert ops[0] == open && ops[1..] == Flatten(body) + ([End] + rest);
    assert ([End] + rest)[1..] == rest;
  }

  lemma ParseElse(ty: BlockType, thn: seq<Instr>, els: seq<Instr>, rest: seq<Op>)
    requires Parse(Flatten(els) + ([End] + rest)) == Parsed(els, [End] + rest)
    requires var tail := [Else] + (Flatten(els) + ([End] + rest)); Parse(Flatten(thn) + tail) == Parsed(thn, tail)
    ensures var i := IfI(ty, thn, true, els); var ops := FlattenOne(i) + rest;
            !Closes(ops) && ParseOne(ops) == Parsed(i, rest)
  {
    ElseFlat(ty, thn, els, rest);
    var ops := FlattenOne(IfI(ty, thn, true, els)) + rest;
    var tail := [Else] + (Flatten(els) + ([End] + rest));
    assert ops[0] == If(ty) && ops[1..] == Flatten(thn) + tail;
    assert tail[1..] == Flatten(els) + ([End] + rest);
    assert ([End] + rest)[1..] == rest;
  }

  /** A stream spells at most one code: reading is inverse to writing, both ways. */
  lemma ParseIff(ops: seq<Op>, code: seq<Instr>, rest: seq<Op>)
    ensures Parse(ops) == Parsed(code, rest) <==> Proper(code) && Closes(rest) && ops == Flatten(code) + rest
  {
    ParseSound(ops);
    if Proper(code) && Closes(rest) {
      ParseFlatten(code, rest);
    }
  }

  // ----- execution -----

  datatype Value = I32(v: int) | I64(w: int)

  /** Memory, globals and tables are one map of cells. */
  datatype State = State(stack: seq<Value>, locals: seq<Value>, shared: map<int, int>)

  datatype Outcome =
    | Next(st: State)
    | Branch(depth: nat, st: State)
    | Returned(st: State)
    | Trap
    | OutOfFuel

  datatype Func = Func(params: nat, results: nat, locals: nat, body: seq<Instr>)

  datatype PlainResult = Stuck | Ran(st: State)

  /** Functions, imports with whatever they do to the state, the table used by indirect calls, and the meaning
      of plain operators. */
  datatype Machine = Machine(
    funcs: map<nat, Func>,
    imports: map<nat, State -> PlainResult>,
    table: map<int, nat>,
    plain: (Op, State) -> PlainResult)

  function Push(st: State, v: Value): State {
    st.(stack := st.stack + [v])
  }

  function Drop(st: State, n: nat): State
    requires n <= |st.stack|
  {
    st.(stack := st.stack[..|st.stack| - n])
  }

  /** Unwinding to a label: the values it carries on top of the stack below the block. */
  function Unwind(below: seq<Value>, n: nat, st: State): Outcome {
    if |st.stack| < n then Trap else Next(st.(stack := below + st.stack[|st.stack| - n..]))
  }

  function Zeros(n: nat): seq<Value> {
    seq(n, _ => I32(0))
  }

  function LeaveBlock(below: seq<Value>, results: nat, r: Outcome): Outcome {
    match r
    case Branch(n, st) => if n == 0 then Unwind(below, results, st) else Branch(n - 1, st)
    case _ => r
  }

  /** The end of a call: results move to the caller's stack, the caller's locals come back. */
  function LeaveCall(params: nat, results: nat, caller: State, r: Outcome): Outcome
    requires params <= |caller.stack|
  {
    if r.OutOfFuel? then OutOfFuel
    else if r.Trap? || (r.Branch? && r.depth != 0) || |r.st.stack| < results then Trap
    else Next(State(Drop(caller, params).stack + r.st.stack[|r.st.stack| - results..], caller.locals, r.st.shared))
  }

  /** The start of a call: arguments and zeroed locals, an empty stack. */
  function EnterCall(params: nat, locals: nat, caller: State): State
    requires params <= |caller.stack|
  {
    State([], caller.stack[|caller.stack| - params..] + Zeros(locals), caller.shared)
  }

  /** Where a loop goes on after a round with this outcome, if it does. */
  function NextRound(ty: BlockType, st: State, r: Outcome): Option<State> {
    if |st.stack| < ty.params || !r.Branch? || r.depth != 0 then None
    else
      var again := Unwind(Drop(st, ty.params).stack, ty.params, r.st);
      if again.Next? then Some(again.st) else None
  }

  function EvalOp(m: Machine, fuel: nat, op: Op, st: State): Outcome
    decreases fuel, 0, 0, 1
  {
    var n := |st.stack|;
    match op
    case I32Const(v) => Next(Push(st, I32(v)))
    case I64Const(v) => Next(Push(st, I64(v)))
    case Call(f) => Invoke(m, fuel, f, st)
    case CallIndirect(_) =>
      if n == 0 || !st.stack[n - 1].I32? || st.stack[n - 1].v !in m.table then Trap
      else Invoke(m, fuel, m.table[st.stack[n - 1].v], Drop(st, 1))
    case Return => Returned(st)
    case Br(d) => Branch(d, st)
    case BrIf(d) =>
      if n == 0 || !st.stack[n - 1].I32? then Trap
      else if st.stack[n - 1].v != 0 then Branch(d, Drop(st, 1))
      else Next(Drop(st, 1))
    case BrTable(ts, d) =>
      if n == 0 || !st.stack[n - 1].I32? then Trap
      else
        var k := st.stack[n - 1].v;
        Branch(if 0 <= k < |ts| then ts[k] else d, Drop(st, 1))
    case _ =>
      var r := m.plain(op, st);
      if r.Stuck? then Trap else Next(r.st)
  }

  function Invoke(m: Machine, fuel: nat, f: nat, st: State): Outcome
    decreases fuel, 0, 0, 0
  {
    var n := |st.stack|;
    if f in m.imports then
      var r := m.imports[f](st);
      if r.Stuck? then Trap else Next(r.st)
    else if f !in m.funcs || n < m.funcs[f].params then Trap
    else if fuel == 0 then OutOfFuel
    else
      var fn := m.funcs[f];
      LeaveCall(fn.params, fn.results, st, EvalSeq(m, fuel - 1, fn.body, EnterCall(fn.params, fn.locals, st)))
  }

  function EvalOne(m: Machine, fuel: nat, i: Instr, st: State): Outcome
    decreases fuel, 1, i, 1
  {
    var n := |st.stack|;
    match i
    case Simple(op) => EvalOp(m, fuel, op, st)
    case BlockI(ty, body) =>
      if n < ty.params then Trap
      else LeaveBlock(Drop(st, ty.params).stack, ty.results, EvalSeq(m, fuel, body, st))
    case LoopI(ty, body) =>
      if n < ty.params then Trap
      else
        var r := EvalSeq(m, fuel, body, st);
        if r.Branch? && r.depth == 0 then
          var again := Unwind(Drop(st, ty.params).stack, ty.params, r.st);
          if again.Trap? then Trap
          else if fuel == 0 then OutOfFuel
          else EvalOne(m, fuel - 1, i, again.st)
        else LeaveBlock([], 0, r)
    case IfI(ty, thn, hasElse, els) =>
      if n < ty.params + 1 || !st.stack[n - 1].I32? then Trap
      else
        var st1 := Drop(st, 1);
        var r :=
          if st.stack[n - 1].v != 0 then EvalSeq(m, fuel, thn, st1)
          else if hasElse then EvalSeq(m, fuel, els, st1)
          else Next(st1);
        LeaveBlock(Drop(st1, ty.params).stack, ty.results, r)
  }

  function EvalSeq(m: Machine, fuel: nat, code: seq<Instr>, st: State): Outcome
    decreases fuel, 1, code, 0
  {
    if code == [] then Next(st)
    else
      var r := EvalOne(m, fuel, code[0], st);
      if r.Next? then EvalSeq(m, fuel, code[1..], r.st) else r
  }
}

/** The profiling middleware: one pass over a function's operators that brackets every straight-line block
    with calls to two measurement imports. */
module Profiler {
  import opened Wrappers
  import opened Wasm

  /** An operator without its immediates. */
  datatype Symbol = Symbol(name: string)

  function SymbolOf(op: Op): Symbol {
    match op
    case Plain(name, _) => Symbol(name)
    case I32Const(_) => Symbol("i32.const")
    case I64Const(_) => Symbol("i64.const")
    case Call(_) => Symbol("call")
    case CallIndirect(_) => Symbol("call_indirect")
    case Return => Symbol("return")
    case Br(_) => Symbol("br")
    case BrIf(_) => Symbol("br_if")
    case BrTable(_, _) => Symbol("br_table")
    case Block(_) => Symbol("block")
    case Loop(_) => Symbol("loop")
    case If(_) => Symbol("if")
    case Else => Symbol("else")
    case End => Symbol("end")
  }

  type CodeBlock = seq<Symbol>

  const TWO_32 := 0x1_0000_0000
  const TWO_64 := 0x1_0000_0000_0000_0000

  type U32 = x: nat | x < TWO_32
  type BlockId = x: nat | x < TWO_64

  /** Unsigned numbers as signed immediates, and back as the host reads them. */
  function AsI32(x: U32): int {
    if x < TWO_32 / 2 then x else x - TWO_32
  }

  function AsI64(x: BlockId): int {
    if x < TWO_64 / 2 then x else x - TWO_64
  }

  function AsU64(x: int): Option<BlockId> {
    if 0 <= x < TWO_64 / 2 then Some(x) else if -(TWO_64 / 2) <= x < 0 then Some(x + TWO_64) else None
  }

  /** The function being instrumented, the indices of the two imports, and the hash of a block. */
  datatype Config = Config(fnIndex: U32, start: nat, take: nat, hash: CodeBlock -> BlockId)

  type Blocks = map<BlockId, CodeBlock>

  /** The middleware's state and its output. `block_count` stays 0 for the whole function. */
  datatype Profiling = Profiling(accumulated: CodeBlock, blocks: Blocks, out: seq<Op>)

  const BLOCK_COUNT: U32 := 0

  predicate Boundary(op: Op) {
    op.Loop? || op.End? || op.Else? || op.Br? || op.BrTable? || op.BrIf? || op.Call? || op.CallIndirect? || op.Return?
  }

  function StartGroup(c: Config): seq<Op> {
    [I32Const(AsI32(c.fnIndex)), I32Const(AsI32(BLOCK_COUNT)), Call(c.start)]
  }

  function TakeGroup(c: Config, id: BlockId): seq<Op> {
    [I32Const(AsI32(c.fnIndex)), I32Const(AsI32(BLOCK_COUNT)), I64Const(AsI64(id)), Call(c.take)]
  }

  function Feed(c: Config, p: Profiling, op: Op): Profiling {
    if Boundary(op) then
      if p.accumulated == [] then p.(out := p.out + [op])
      else
        var id := c.hash(p.accumulated);
        Profiling([], p.blocks[id := p.accumulated], p.out + TakeGroup(c, id) + [op])
    else
      Profiling(
        p.accumulated + [SymbolOf(op)], p.blocks,
        p.out + (if p.accumulated == [] then StartGroup(c) else []) + [op])
  }

  function FeedAll(c: Config, p: Profiling, ops: seq<Op>): Profiling
    decreases |ops|
  {
    if ops == [] then p else FeedAll(c, Feed(c, p, ops[0]), ops[1..])
  }

  class BlockStore {
    var inner: Blocks

    constructor ()
      ensures inner == map[]
    {
      inner := map[];
    }

    method RegisterBlock(block: CodeBlock, hash: CodeBlock -> BlockId) returns (id: BlockId)
      modifies this
      ensures id == hash(block) && inner == old(inner)[id := block]
    {
      id := hash(block);
      inner := inner[id := block];
    }

    method GetBlock(id: BlockId) returns (block: Option<CodeBlock>)
      ensures block == if id in inner then Some(inner[id]) else None
    {
      block := if id in inner then Some(inner[id]) else None;
    }
  }

  /** The middleware of one function; the block store is shared between functions. */
  class FunctionProfiling {
    const config: Config
    const store: BlockStore
    var accumulatedOps: CodeBlock
    var out: seq<Op>

    constructor (config: Config, store: BlockStore)
      ensures this.config == config && this.store == store && View() == Profiling([], store.inner, [])
    {
      this.config := config;
      this.store := store;
      accumulatedOps := [];
      out := [];
    }

    function View(): Profiling
      reads this, store
    {
      Profiling(accumulatedOps, store.inner, out)
    }

    method FeedOperator(op: Op)
      modifies this, store
      ensures View() == Feed(config, old(View()), op)
    {
      if Boundary(op) {
        if accumulatedOps != [] {
          var id := store.RegisterBlock(accumulatedOps, config.hash);
          accumulatedOps := [];
          out := out + TakeGroup(config, id);
        }
      } else {
        if accumulatedOps == [] {
          out := out + StartGroup(config);
        }
        accumulatedOps := accumulatedOps + [SymbolOf(op)];
      }
      out := out + [op];
    }
  }

  // ----- deleting the injected groups gives back the input -----

  /** Remove every call to a measurement import together with its constants, from the end. */
  function Strip(c: Config, ops: seq<Op>): seq<Op>
    decreases |ops|
  {
    if ops == [] then []
    else
      var n := |ops| - 1;
      if ops[n] == Call(c.start) && n >= 2 then Strip(c, ops[..n - 2])
      else if ops[n] == Call(c.take) && n >= 3 then Strip(c, ops[..n - 3])
      else Strip(c, ops[..n]) + [ops[n]]
  }

  ghost predicate Clean(c: Config, ops: seq<Op>) {
    c.start != c.take && forall k | 0 <= k < |ops| :: ops[k] != Call(c.start) && ops[k] != Call(c.take)
  }

  lemma CleanParts(c: Config, ops: seq<Op>)
    requires Clean(c, ops) && ops != []
    ensures Clean(c, [ops[0]]) && Clean(c, ops[1..])
  {
  }

  lemma StripStep(c: Config, p: Profiling, op: Op)
    requires Clean(c, [op])
    ensures Strip(c, Feed(c, p, op).out) == Strip(c, p.out) + [op]
  {
    var out := Feed(c, p, op).out;
    var before := out[..|out| - 1];
    assert [op][0] == op;
    assert out == before + [op];
    assert Strip(c, out) == Strip(c, before) + [op];
    if Boundary(op) && p.accumulated != [] {
      assert before == p.out + TakeGroup(c, c.hash(p.accumulated));
      assert before[..|before| - 4] == p.out && before[|before| - 1] == Call(c.take);
    } else if !Boundary(op) && p.accumulated == [] {
      assert before == p.out + StartGroup(c);
      assert before[..|before| - 3] == p.out && before[|before| - 1] == Call(c.start);
    } else {
      assert before == p.out;
    }
  }

  lemma {:induction false} StripGivesInput(c: Config, p: Profiling, ops: seq<Op>)
    requires Clean(c, ops)
    ensures Strip(c, FeedAll(c, p, ops).out) == Strip(c, p.out) + ops
    decreases |ops|
  {
    if ops != [] {
      CleanParts(c, ops);
      StripStep(c, p, ops[0]);
      StripGivesInput(c, Feed(c, p, ops[0]), ops[1..]);
      assert Strip(c, p.out) + [ops[0]] + ops[1..] == Strip(c, p.out) + ops;
    }
  }

  /** For every stream of a function: erasing the injected groups restores it. */
  lemma ErasureRestoresStream(c: Config, blocks: Blocks, ops: seq<Op>)
    requires Clean(c, ops)
    ensures Strip(c, FeedAll(c, Profiling([], blocks, []), ops).out) == ops
  {
    StripGivesInput(c, Profiling([], blocks, []), ops);
    assert Strip(c, []) == [];
  }

  // ----- start and take pair up in the text -----

  /** Reading the output: outside a measured block, inside one with these operators so far, or malformed. */
  datatype Reading = Idle | Recording(block: CodeBlock) | Broken

  /** A reader that knows only the two imports and the block store. Starts open a block when none is open; a
      take closes the open block and must name it in the store; boundaries may only occur outside blocks and
      all other operators only inside. */
  ghost function Read(c: Config, blocks: Blocks, ops: seq<Op>): Reading
    decreases |ops|
  {
    if ops == [] then Idle
    else
      var n := |ops| - 1;
      if ops[n] == Call(c.start) then
        if n >= 2 && ops[n - 2..] == StartGroup(c) && Read(c, blocks, ops[..n - 2]) == Idle
        then Recording([]) else Broken
      else if ops[n] == Call(c.take) then
        if n < 3 then Broken else
        var open := Read(c, blocks, ops[..n - 3]);
        if open.Recording? && ops[n - 3..n - 1] == StartGroup(c)[..2] && ops[n - 1].I64Const?
           && AsU64(ops[n - 1].i64).Some? && AsU64(ops[n - 1].i64).value in blocks
           && blocks[AsU64(ops[n - 1].i64).value] == open.block
        then Idle else Broken
      else
        var before := Read(c, blocks, ops[..n]);
        if before.Idle? && Boundary(ops[n]) then Idle
        else if before.Recording? && !Boundary(ops[n]) then Recording(before.block + [SymbolOf(ops[n])])
        else Broken
  }

  ghost predicate Found(c: Config, blocks: Blocks, b: CodeBlock) {
    c.hash(b) in blocks && blocks[c.hash(b)] == b
  }

  /** The blocks a stream is cut into, each ended by a boundary. */
  function BlocksOf(acc: CodeBlock, ops: seq<Op>): set<CodeBlock>
    decreases |ops|
  {
    if ops == [] then {}
    else (if Boundary(ops[0]) && acc != [] then {acc} else {}) + BlocksOf(After(acc, ops[0]), ops[1..])
  }

  ghost predicate NoClash(c: Config, s: set<CodeBlock>) {
    forall a, b | a in s && b in s :: c.hash(a) == c.hash(b) ==> a == b
  }

  function Mode(accumulated: CodeBlock): Reading {
    if accumulated == [] then Idle else Recording(accumulated)
  }

  lemma ReadOp(c: Config, blocks: Blocks, ops: seq<Op>, op: Op)
    requires Clean(c, [op])
    ensures var r := Read(c, blocks, ops);
            Read(c, blocks, ops + [op]) ==
            if r.Idle? && Boundary(op) then Idle
            else if r.Recording? && !Boundary(op) then Recording(r.block + [SymbolOf(op)])
            else Broken
  {
    assert [op][0] == op;
    assert (ops + [op])[..|ops|] == ops;
  }

  lemma ReadStart(c: Config, blocks: Blocks, ops: seq<Op>)
    ensures Read(c, blocks, ops + StartGroup(c)) == if Read(c, blocks, ops) == Idle then Recording([]) else Broken
  {
    var out := ops + StartGroup(c);
    assert out[..|ops|] == ops && out[|ops|..] == StartGroup(c);
  }

  lemma IdRoundTrip(id: BlockId)
    ensures AsU64(AsI64(id)) == Some(id)
  {
  }

  lemma ReadTake(c: Config, blocks: Blocks, ops: seq<Op>, block: CodeBlock)
    requires c.start != c.take
    requires Read(c, blocks, ops) == Recording(block) || Read(c, blocks, ops) == Broken
    ensures Read(c, blocks, ops + TakeGroup(c, c.hash(block))) ==
            if Read(c, blocks, ops).Recording? && Found(c, blocks, block) then Idle else Broken
  {
    var id := c.hash(block);
    var out := ops + TakeGroup(c, id);
    var n := |out| - 1;
    assert out[n] == Call(c.take) && out[n - 1] == I64Const(AsI64(id));
    assert out[..n - 3] == ops && out[n - 3..n - 1] == StartGroup(c)[..2];
    IdRoundTrip(id);
  }

  /** One operator, read against any store: reading stays in step unless a take misses its block. */
  lemma ReadStep(c: Config, blocks: Blocks, p: Profiling, op: Op)
    requires Clean(c, [op])
    requires Read(c, blocks, p.out) == Mode(p.accumulated) || Read(c, blocks, p.out) == Broken
    ensures var ok := Read(c, blocks, p.out) != Broken
                      && (Boundary(op) && p.accumulated != [] ==> Found(c, blocks, p.accumulated));
            Read(c, blocks, Feed(c, p, op).out) == if ok then Mode(Feed(c, p, op).accumulated) else Broken
  {
    if Boundary(op) && p.accumulated != [] {
      ReadTake(c, blocks, p.out, p.accumulated);
      ReadOp(c, blocks, p.out + TakeGroup(c, c.hash(p.accumulated)), op);
    } else if !Boundary(op) && p.accumulated == [] {
      ReadStart(c, blocks, p.out);
      ReadOp(c, blocks, p.out + StartGroup(c), op);
    } else {
      assert p.out + [] == p.out;
      ReadOp(c, blocks, p.out, op);
    }
  }

  lemma {:induction false} ReadAll(c: Config, blocks: Blocks, p: Profiling, ops: seq<Op>)
    requires Clean(c, ops)
    requires Read(c, blocks, p.out) == Mode(p.accumulated) || Read(c, blocks, p.out) == Broken
    ensures var ok := Read(c, blocks, p.out) != Broken
                      && forall b | b in BlocksOf(p.accumulated, ops) :: Found(c, blocks, b);
            var q := FeedAll(c, p, ops);
            Read(c, blocks, q.out) == if ok then Mode(q.accumulated) else Broken
    decreases |ops|
  {
    if ops != [] {
      CleanParts(c, ops);
      ReadStep(c, blocks, p, ops[0]);
      assert Feed(c, p, ops[0]).accumulated == After(p.accumulated, ops[0]);
      ReadAll(c, blocks, Feed(c, p, ops[0]), ops[1..]);
    }
  }

  /** A block without a rival is still in the store at the end. */
  lemma {:induction false} StoreKeeps(c: Config, p: Profiling, ops: seq<Op>, b: CodeBlock)
    requires forall x | x in BlocksOf(p.accumulated, ops) :: c.hash(x) == c.hash(b) ==> x == b
    requires Found(c, p.blocks, b) || b in BlocksOf(p.accumulated, ops)
    ensures Found(c, FeedAll(c, p, ops).blocks, b)
    decreases |ops|
  {
    if ops != [] {
      assert Feed(c, p, ops[0]).accumulated == After(p.accumulated, ops[0]);
      StoreKeeps(c, Feed(c, p, ops[0]), ops[1..], b);
    }
  }

  lemma {:induction false} FeedAppend(c: Config, p: Profiling, a: seq<Op>, b: seq<Op>)
    ensures FeedAll(c, p, a + b) == FeedAll(c, FeedAll(c, p, a), b)
    decreases |a|
  {
    if a == [] {
      assert a + b == b;
    } else {
      assert (a + b)[1..] == a[1..] + b;
      FeedAppend(c, Feed(c, p, a[0]), a[1..], b);
    }
  }

  /** The functions of a module, fed one after another into one block store. */
  datatype Stream = Stream(fnIndex: U32, ops: seq<Op>)

  function FeedStream(c: Config, blocks: Blocks, s: Stream): Profiling {
    FeedAll(c.(fnIndex := s.fnIndex), Profiling([], blocks, []), s.ops)
  }

  function StoreAfter(c: Config, blocks: Blocks, streams: seq<Stream>): Blocks
    decreases |streams|
  {
    if streams == [] then blocks else StoreAfter(c, FeedStream(c, blocks, streams[0]).blocks, streams[1..])
  }

  /** What is emitted for a function. */
  function Emitted(c: Config, s: Stream): seq<Op> {
    FeedStream(c, map[], s).out
  }

  /** It does not depend on the store. */
  lemma {:induction false} EmissionIgnoresStore(c: Config, p: Profiling, q: Profiling, ops: seq<Op>)
    requires p.out == q.out && p.accumulated == q.accumulated
    ensures FeedAll(c, p, ops).out == FeedAll(c, q, ops).out
    decreases |ops|
  {
    if ops != [] {
      EmissionIgnoresStore(c, Feed(c, p, ops[0]), Feed(c, q, ops[0]), ops[1..]);
    }
  }

  function ModuleBlocks(streams: seq<Stream>): set<CodeBlock> {
    if streams == [] then {} else BlocksOf([], streams[0].ops) + ModuleBlocks(streams[1..])
  }

  lemma {:induction false} InModule(streams: seq<Stream>, b: CodeBlock)
    ensures b in ModuleBlocks(streams) <==> exists i :: 0 <= i < |streams| && b in BlocksOf([], streams[i].ops)
  {
    if streams != [] {
      InModule(streams[1..], b);
      if i :| 0 <= i < |streams| && b in BlocksOf([], streams[i].ops) {
        assert i > 0 ==> streams[1..][i - 1] == streams[i];
      }
    }
  }

  lemma {:induction false} ModuleStoreKeeps(c: Config, blocks: Blocks, streams: seq<Stream>, b: CodeBlock)
    requires forall x | x in ModuleBlocks(streams) :: c.hash(x) == c.hash(b) ==> x == b
    requires Found(c, blocks, b) || b in ModuleBlocks(streams)
    ensures Found(c, StoreAfter(c, blocks, streams), b)
    decreases |streams|
  {
    if streams != [] {
      var c0, p := c.(fnIndex := streams[0].fnIndex), Profiling([], blocks, []);
      if Found(c, blocks, b) || b in BlocksOf([], streams[0].ops) {
        assert Found(c0, p.blocks, b) || b in BlocksOf([], streams[0].ops);
        StoreKeeps(c0, p, streams[0].ops, b);
        assert Found(c, FeedStream(c, blocks, streams[0]).blocks, b);
      }
      ModuleStoreKeeps(c, FeedStream(c, blocks, streams[0]).blocks, streams[1..], b);
    }
  }

  /** A function's stream is free of the measurement calls and closed by its final `End`. */
  ghost predicate FunctionStream(c: Config, ops: seq<Op>) {
    Clean(c, ops) && ops != [] && ops[|ops| - 1] == End
  }

  /** One function, read against any store. */
  lemma StreamPairsIff(c: Config, blocks: Blocks, s: Stream)
    requires FunctionStream(c, s.ops)
    ensures Read(c.(fnIndex := s.fnIndex), blocks, Emitted(c, s)) == Idle
            <==> forall b | b in BlocksOf([], s.ops) :: Found(c, blocks, b)
  {
    var c0, p, n := c.(fnIndex := s.fnIndex), Profiling([], map[], []), |s.ops| - 1;
    assert Clean(c0, s.ops);
    ReadAll(c0, blocks, p, s.ops);
    assert s.ops == s.ops[..n] + [End];
    FeedAppend(c0, p, s.ops[..n], [End]);
    FedOp(c0, FeedAll(c0, p, s.ops[..n]), End);
    assert forall b :: Found(c0, blocks, b) <==> Found(c, blocks, b);
  }

  /** For every module, read against the store all its functions share: starts and takes alternate, every
      operator that is not a boundary lies in exactly one measured block, and each take's identifier looks up
      exactly the operators since its start - if and only if no two different blocks of the module share a
      hash. */
  lemma MeasurementsPairIff(c: Config, blocks: Blocks, streams: seq<Stream>)
    requires forall i | 0 <= i < |streams| :: FunctionStream(c, streams[i].ops)
    ensures var store := StoreAfter(c, blocks, streams);
            (forall i | 0 <= i < |streams| ::
               Read(c.(fnIndex := streams[i].fnIndex), store, Emitted(c, streams[i])) == Idle)
            <==> NoClash(c, ModuleBlocks(streams))
  {
    var store := StoreAfter(c, blocks, streams);
    forall i | 0 <= i < |streams|
      ensures Read(c.(fnIndex := streams[i].fnIndex), store, Emitted(c, streams[i])) == Idle
              <==> forall b | b in BlocksOf([], streams[i].ops) :: Found(c, store, b)
    {
      StreamPairsIff(c, store, streams[i]);
    }
    forall b
      ensures b in ModuleBlocks(streams) <==> exists i :: 0 <= i < |streams| && b in BlocksOf([], streams[i].ops)
    {
      InModule(streams, b);
    }
    if NoClash(c, ModuleBlocks(streams)) {
      forall b | b in ModuleBlocks(streams) ensures Found(c, store, b) {
        ModuleStoreKeeps(c, blocks, streams, b);
      }
    } else {
      var x, y :| x in ModuleBlocks(streams) && y in ModuleBlocks(streams) && c.hash(x) == c.hash(y) && x != y;
      assert !Found(c, store, x) || !Found(c, store, y);
    }
  }

  // ----- the instrumented code means the same -----

  function Simples(ops: seq<Op>): seq<Instr> {
    seq(|ops|, i requires 0 <= i < |ops| => Simple(ops[i]))
  }

  datatype Woven = Woven(code: seq<Instr>, accumulated: CodeBlock)

  /** The groups in front of an operator, and what is accumulated behind it. */
  function Before(c: Config, acc: CodeBlock, op: Op): seq<Op> {
    if Boundary(op) then (if acc == [] then [] else TakeGroup(c, c.hash(acc)))
    else if acc == [] then StartGroup(c) else []
  }

  function After(acc: CodeBlock, op: Op): CodeBlock {
    if Boundary(op) then [] else acc + [SymbolOf(op)]
  }

  /** The same pass on structured code: the state runs through nested bodies in text order. */
  function WeaveOne(c: Config, i: Instr, acc: CodeBlock): Woven
    decreases i, 1
  {
    match i
    case Simple(op) => Woven(Simples(Before(c, acc, op)) + [i], After(acc, op))
    case BlockI(ty, body) =>
      var w := WeaveSeq(c, body, After(acc, Block(ty)));
      Woven(Simples(Before(c, acc, Block(ty))) + [BlockI(ty, w.code + Simples(Before(c, w.accumulated, End)))], [])
    case LoopI(ty, body) =>
      var w := WeaveSeq(c, body, After(acc, Loop(ty)));
      Woven(Simples(Before(c, acc, Loop(ty))) + [LoopI(ty, w.code + Simples(Before(c, w.accumulated, End)))], [])
    case IfI(ty, thn, hasElse, els) =>
      var w := WeaveSeq(c, thn, After(acc, If(ty)));
      var v := if hasElse then WeaveSeq(c, els, []) else Woven([], []);
      Woven(
        Simples(Before(c, acc, If(ty))) +
        [IfI(ty, w.code + Simples(Before(c, w.accumulated, if hasElse then Else else End)), hasElse,
             if hasElse then v.code + Simples(Before(c, v.accumulated, End)) else els)],
        [])
  }

  function WeaveSeq(c: Config, code: seq<Instr>, acc: CodeBlock): Woven
    decreases code, 0
  {
    if code == [] then Woven([], acc)
    else
      var w := WeaveOne(c, code[0], acc);
      var v := WeaveSeq(c, code[1..], w.accumulated);
      Woven(w.code + v.code, v.accumulated)
  }

  function WeaveBody(c: Config, body: seq<Instr>): seq<Instr> {
    var w := WeaveSeq(c, body, []);
    w.code + Simples(Before(c, w.accumulated, End))
  }

  lemma {:induction false} FlattenAppend(a: seq<Instr>, b: seq<Instr>)
    ensures Flatten(a + b) == Flatten(a) + Flatten(b)
  {
    if a == [] {
      assert a + b == b;
    } else {
      assert (a + b)[1..] == a[1..] + b;
      FlattenAppend(a[1..], b);
    }
  }

  lemma {:induction false} FlattenSimples(ops: seq<Op>)
    ensures Flatten(Simples(ops)) == ops
  {
    if ops != [] {
      assert Simples(ops)[1..] == Simples(ops[1..]);
      FlattenSimples(ops[1..]);
      assert ops == [ops[0]] + ops[1..];
    }
  }

  lemma FlattenSingle(i: Instr)
    ensures Flatten([i]) == FlattenOne(i)
  {
    assert [i][1..] == [];
  }

  /** What feeding does to the output and to the accumulated block, apart from the store. */
  ghost predicate Fed(p: Profiling, q: Profiling, ops: seq<Op>, acc: CodeBlock) {
    q.out == p.out + ops && q.accumulated == acc
  }

  lemma FedOp(c: Config, p: Profiling, op: Op)
    ensures Fed(p, FeedAll(c, p, [op]), Before(c, p.accumulated, op) + [op], After(p.accumulated, op))
  {
    assert [op][1..] == [];
    assert FeedAll(c, p, [op]) == Feed(c, p, op);
  }

  lemma FedTwice(c: Config, p: Profiling, a: seq<Op>, x: seq<Op>, b: seq<Op>, y: seq<Op>, acc: CodeBlock)
    requires var q := FeedAll(c, p, a); Fed(p, q, x, q.accumulated) && Fed(q, FeedAll(c, q, b), y, acc)
    ensures Fed(p, FeedAll(c, p, a + b), x + y, acc)
  {
    FeedAppend(c, p, a, b);
  }

  /** Structured weaving and the flat pass agree. */
  lemma {:induction false} WeaveSeqIsFeed(c: Config, code: seq<Instr>, p: Profiling)
    ensures var w := WeaveSeq(c, code, p.accumulated);
            Fed(p, FeedAll(c, p, Flatten(code)), Flatten(w.code), w.accumulated)
    decreases code, 0
  {
    if code != [] {
      WeaveOneIsFeed(c, code[0], p);
      var w := WeaveOne(c, code[0], p.accumulated);
      var q := FeedAll(c, p, FlattenOne(code[0]));
      WeaveSeqIsFeed(c, code[1..], q);
      var v := WeaveSeq(c, code[1..], w.accumulated);
      FlattenAppend(w.code, v.code);
      FedTwice(c, p, FlattenOne(code[0]), Flatten(w.code), Flatten(code[1..]), Flatten(v.code), v.accumulated);
    }
  }

  lemma {:induction false} WeaveBracket(c: Config, p: Profiling, open: Op, body: seq<Instr>, close: Op)
    requires Boundary(close)
    requires BodyFed(c, p, [open], body)
    ensures var w := WeaveSeq(c, body, After(p.accumulated, open));
            Fed(p, FeedAll(c, p, [open] + Flatten(body) + [close]),
                Before(c, p.accumulated, open) + [open]
                + Flatten(w.code + Simples(Before(c, w.accumulated, close))) + [close], [])
  {
    var w := WeaveSeq(c, body, After(p.accumulated, open));
    FedOp(c, p, open);
    FedTwice(c, p, [open], Before(c, p.accumulated, open) + [open], Flatten(body), Flatten(w.code), w.accumulated);
    var q := FeedAll(c, p, [open] + Flatten(body));
    FedOp(c, q, close);
    var tail := Before(c, w.accumulated, close);
    FedTwice(c, p, [open] + Flatten(body), Before(c, p.accumulated, open) + [open] + Flatten(w.code),
             [close], tail + [close], []);
    FlattenAppend(w.code, Simples(tail));
    FlattenSimples(tail);
    BracketText(Before(c, p.accumulated, open) + [open], Flatten(w.code), tail, [close]);
  }

  lemma BracketText(a: seq<Op>, b: seq<Op>, d: seq<Op>, e: seq<Op>)
    ensures a + b + (d + e) == a + (b + d) + e
  {
  }

  lemma {:induction false} WeaveOneIsFeed(c: Config, i: Instr, p: Profiling)
    ensures var w := WeaveOne(c, i, p.accumulated);
            Fed(p, FeedAll(c, p, FlattenOne(i)), Flatten(w.code), w.accumulated)
    decreases i, 1
  {
    match i
    case Simple(op) =>
      FedOp(c, p, op);
      WovenFlat(Before(c, p.accumulated, op), i);
    case BlockI(ty, body) =>
      FedOp(c, p, Block(ty));
      WeaveSeqIsFeed(c, body, FeedAll(c, p, [Block(ty)]));
      WeaveBlockIsFeed(c, p, ty, body);
    case LoopI(ty, body) =>
      FedOp(c, p, Loop(ty));
      WeaveSeqIsFeed(c, body, FeedAll(c, p, [Loop(ty)]));
      WeaveLoopIsFeed(c, p, ty, body);
    case IfI(ty, thn, hasElse, els) =>
      FedOp(c, p, If(ty));
      WeaveSeqIsFeed(c, thn, FeedAll(c, p, [If(ty)]));
      if hasElse {
        WeaveSeqIsFeed(c, els, FeedAll(c, p, [If(ty)] + Flatten(thn) + [Else]));
        WeaveElseIsFeed(c, p, ty, thn, els);
      } else {
        WeaveIfIsFeed(c, p, ty, thn, els);
      }
  }

  /** Feeding a body after an operator, as the induction provides it. */
  ghost predicate BodyFed(c: Config, p: Profiling, open: seq<Op>, body: seq<Instr>) {
    var q := FeedAll(c, p, open);
    var w := WeaveSeq(c, body, q.accumulated);
    Fed(q, FeedAll(c, q, Flatten(body)), Flatten(w.code), w.accumulated)
  }

  lemma Regroup(a: seq<Op>, b: seq<Op>, d: seq<Op>, e: seq<Op>)
    ensures a + b + d + e == a + (b + d + e)
  {
  }

  lemma WeaveBlockIsFeed(c: Config, p: Profiling, ty: BlockType, body: seq<Instr>)
    requires BodyFed(c, p, [Block(ty)], body)
    ensures var i := BlockI(ty, body); var w := WeaveOne(c, i, p.accumulated);
            Fed(p, FeedAll(c, p, FlattenOne(i)), Flatten(w.code), w.accumulated)
  {
    var group := Before(c, p.accumulated, Block(ty));
    WeaveBracket(c, p, Block(ty), body, End);
    var w := WeaveSeq(c, body, After(p.accumulated, Block(ty)));
    var body' := w.code + Simples(Before(c, w.accumulated, End));
    WovenFlat(group, BlockI(ty, body'));
    Regroup(group, [Block(ty)], Flatten(body'), [End]);
  }

  lemma WeaveLoopIsFeed(c: Config, p: Profiling, ty: BlockType, body: seq<Instr>)
    requires BodyFed(c, p, [Loop(ty)], body)
    ensures var i := LoopI(ty, body); var w := WeaveOne(c, i, p.accumulated);
            Fed(p, FeedAll(c, p, FlattenOne(i)), Flatten(w.code), w.accumulated)
  {
    var group := Before(c, p.accumulated, Loop(ty));
    WeaveBracket(c, p, Loop(ty), body, End);
    var w := WeaveSeq(c, body, After(p.accumulated, Loop(ty)));
    var body' := w.code + Simples(Before(c, w.accumulated, End));
    WovenFlat(group, LoopI(ty, body'));
    Regroup(group, [Loop(ty)], Flatten(body'), [End]);
  }

  lemma WeaveIfIsFeed(c: Config, p: Profiling, ty: BlockType, thn: seq<Instr>, els: seq<Instr>)
    requires BodyFed(c, p, [If(ty)], thn)
    ensures var i := IfI(ty, thn, false, els); var w := WeaveOne(c, i, p.accumulated);
            Fed(p, FeedAll(c, p, FlattenOne(i)), Flatten(w.code), w.accumulated)
  {
    var group := Before(c, p.accumulated, If(ty));
    WeaveBracket(c, p, If(ty), thn, End);
    var w := WeaveSeq(c, thn, After(p.accumulated, If(ty)));
    var thn' := w.code + Simples(Before(c, w.accumulated, End));
    WovenFlat(group, IfI(ty, thn', false, els));
    Regroup(group, [If(ty)], Flatten(thn'), [End]);
    assert [If(ty)] + Flatten(thn) + [] + [End] == [If(ty)] + Flatten(thn) + [End];
    assert [If(ty)] + Flatten(thn') + [] + [End] == [If(ty)] + Flatten(thn') + [End];
  }

  lemma WeaveElseIsFeed(c: Config, p: Profiling, ty: BlockType, thn: seq<Instr>, els: seq<Instr>)
    requires BodyFed(c, p, [If(ty)], thn)
    requires BodyFed(c, p, [If(ty)] + Flatten(thn) + [Else], els)
    ensures var i := IfI(ty, thn, true, els); var w := WeaveOne(c, i, p.accumulated);
            Fed(p, FeedAll(c, p, FlattenOne(i)), Flatten(w.code), w.accumulated)
  {
    var group := Before(c, p.accumulated, If(ty));
    WeaveBracket(c, p, If(ty), thn, Else);
    var w := WeaveSeq(c, thn, After(p.accumulated, If(ty)));
    var thn' := w.code + Simples(Before(c, w.accumulated, Else));
    var a := [If(ty)] + Flatten(thn) + [Else];
    var x := group + [If(ty)] + Flatten(thn') + [Else];
    var v := WeaveSeq(c, els, []);
    var tail := Before(c, v.accumulated, End);
    FedTwice(c, p, a, x, Flatten(els), Flatten(v.code), v.accumulated);
    FedOp(c, FeedAll(c, p, a + Flatten(els)), End);
    FedTwice(c, p, a + Flatten(els), x + Flatten(v.code), [End], tail + [End], []);
    var els' := v.code + Simples(tail);
    FlattenAppend(v.code, Simples(tail));
    FlattenSimples(tail);
    WovenFlat(group, IfI(ty, thn', true, els'));
    ElseText([If(ty)], Flatten(thn), Flatten(els));
    ElseWoven(group, [If(ty)], Flatten(thn'), Flatten(v.code), tail);
  }

  lemma ElseText(open: seq<Op>, thn: seq<Op>, els: seq<Op>)
    ensures open + thn + [Else] + els + [End] == open + thn + ([Else] + els) + [End]
  {
  }

  lemma ElseWoven(group: seq<Op>, open: seq<Op>, thn: seq<Op>, els: seq<Op>, tail: seq<Op>)
    ensures group + open + thn + [Else] + els + (tail + [End]) == group + (open + thn + ([Else] + (els + tail)) + [End])
  {
  }

  lemma WovenFlat(group: seq<Op>, i: Instr)
    ensures Flatten(Simples(group) + [i]) == group + FlattenOne(i)
  {
    FlattenAppend(Simples(group), [i]);
    FlattenSimples(group);
    FlattenSingle(i);
  }

  /** The stream of an instrumented function is the stream of its woven body. */
  lemma InstrumentedStream(c: Config, blocks: Blocks, body: seq<Instr>)
    ensures FeedAll(c, Profiling([], blocks, []), Flatten(body) + [End]).out == Flatten(WeaveBody(c, body)) + [End]
  {
    var p := Profiling([], blocks, []);
    WeaveSeqIsFeed(c, body, p);
    var w := WeaveSeq(c, body, []);
    FedOp(c, FeedAll(c, p, Flatten(body)), End);
    var tail := Before(c, w.accumulated, End);
    FedTwice(c, p, Flatten(body), Flatten(w.code), [End], tail + [End], []);
    FlattenAppend(w.code, Simples(tail));
    FlattenSimples(tail);
    assert Flatten(w.code) + (tail + [End]) == Flatten(w.code) + tail + [End];
  }

  /** The import takes n arguments, returns nothing and leaves the rest of the state alone. */
  ghost predicate Silent(m: Machine, f: nat, n: nat) {
    f in m.imports && forall st: State | |st.stack| >= n :: m.imports[f](st) == Ran(Drop(st, n))
  }

  /** The two measurement imports; the other imports may do anything. */
  ghost predicate Imports(m: Machine, c: Config) {
    Silent(m, c.start, 2) && Silent(m, c.take, 3)
  }

  /** A module whose functions have all been instrumented, each under its own index. */
  ghost predicate Instrumented(m: Machine, m': Machine, config: nat -> Config) {
    && m'.imports == m.imports && m'.table == m.table && m'.plain == m.plain
    && m'.funcs.Keys == m.funcs.Keys
    && (forall f | f in m.funcs ::
          m'.funcs[f] == m.funcs[f].(body := WeaveBody(config(f), m.funcs[f].body)))
    && forall f :: Imports(m, config(f))
  }

  lemma {:induction false} EvalAppend(m: Machine, fuel: nat, a: seq<Instr>, b: seq<Instr>, st: State)
    ensures var r := EvalSeq(m, fuel, a, st);
            EvalSeq(m, fuel, a + b, st) == if r.Next? then EvalSeq(m, fuel, b, r.st) else r
  {
    if a == [] {
      assert a + b == b;
    } else {
      assert (a + b)[1..] == a[1..] + b;
      var r := EvalOne(m, fuel, a[0], st);
      if r.Next? {
        EvalAppend(m, fuel, a[1..], b, r.st);
      }
    }
  }

  /** An injected group leaves the state as it found it. */
  lemma GroupIsSilent(m: Machine, fuel: nat, c: Config, acc: CodeBlock, op: Op, st: State)
    requires Imports(m, c)
    ensures EvalSeq(m, fuel, Simples(Before(c, acc, op)), st) == Next(st)
  {
    var st1 := Push(st, I32(AsI32(c.fnIndex)));
    var st2 := Push(st1, I32(AsI32(BLOCK_COUNT)));
    var g := Before(c, acc, op);
    if g != [] {
      EvalCons(m, fuel, g, st, st1);
      EvalCons(m, fuel, g[1..], st1, st2);
      if Boundary(op) {
        var st3 := Push(st2, I64(AsI64(c.hash(acc))));
        assert Drop(st3, 3) == st;
        EvalCons(m, fuel, g[1..][1..], st2, st3);
        EvalCons(m, fuel, g[1..][1..][1..], st3, st);
      } else {
        assert Drop(st2, 2) == st;
        EvalCons(m, fuel, g[1..][1..], st2, st);
      }
    }
  }

  lemma EvalCons(m: Machine, fuel: nat, ops: seq<Op>, st: State, st': State)
    requires ops != [] && EvalOp(m, fuel, ops[0], st) == Next(st')
    ensures EvalSeq(m, fuel, Simples(ops), st) == EvalSeq(m, fuel, Simples(ops[1..]), st')
  {
    assert Simples(ops)[1..] == Simples(ops[1..]);
    assert EvalOne(m, fuel, Simple(ops[0]), st) == Next(st');
  }

  lemma {:induction false} WeaveSeqSame(m: Machine, m': Machine, config: nat -> Config, fuel: nat,
                                        c: Config, code: seq<Instr>, acc: CodeBlock, st: State)
    requires Instrumented(m, m', config) && Imports(m, c)
    ensures EvalSeq(m', fuel, WeaveSeq(c, code, acc).code, st) == EvalSeq(m, fuel, code, st)
    decreases fuel, 1, code, 0
  {
    if code != [] {
      var w := WeaveOne(c, code[0], acc);
      var v := WeaveSeq(c, code[1..], w.accumulated);
      WeaveOneSame(m, m', config, fuel, c, code[0], acc, st);
      EvalAppend(m', fuel, w.code, v.code, st);
      var r := EvalOne(m, fuel, code[0], st);
      if r.Next? {
        WeaveSeqSame(m, m', config, fuel, c, code[1..], w.accumulated, r.st);
      }
    }
  }

  /** A body with its closing group. */
  lemma {:induction false} WeaveClosedSame(m: Machine, m': Machine, config: nat -> Config, fuel: nat,
                                           c: Config, code: seq<Instr>, acc: CodeBlock, close: Op, st: State)
    requires Instrumented(m, m', config) && Imports(m, c)
    ensures var w := WeaveSeq(c, code, acc);
            EvalSeq(m', fuel, w.code + Simples(Before(c, w.accumulated, close)), st) == EvalSeq(m, fuel, code, st)
    decreases fuel, 1, code, 1
  {
    var w := WeaveSeq(c, code, acc);
    WeaveSeqSame(m, m', config, fuel, c, code, acc, st);
    EvalAppend(m', fuel, w.code, Simples(Before(c, w.accumulated, close)), st);
    var r := EvalSeq(m, fuel, code, st);
    if r.Next? {
      GroupIsSilent(m', fuel, c, w.accumulated, close, r.st);
    }
  }

  lemma {:induction false} SkipGroup(m: Machine, fuel: nat, c: Config, acc: CodeBlock, op: Op, i: Instr, st: State)
    requires Imports(m, c)
    ensures EvalSeq(m, fuel, Simples(Before(c, acc, op)) + [i], st) == EvalOne(m, fuel, i, st)
  {
    GroupIsSilent(m, fuel, c, acc, op, st);
    EvalAppend(m, fuel, Simples(Before(c, acc, op)), [i], st);
    assert [i][1..] == [];
  }

  lemma {:induction false} WeaveOneSame(m: Machine, m': Machine, config: nat -> Config, fuel: nat,
                                        c: Config, i: Instr, acc: CodeBlock, st: State)
    requires Instrumented(m, m', config) && Imports(m, c)
    ensures EvalSeq(m', fuel, WeaveOne(c, i, acc).code, st) == EvalOne(m, fuel, i, st)
    decreases fuel, 1, i, 2
  {
    match i
    case Simple(op) =>
      SkipGroup(m', fuel, c, acc, op, i, st);
      OpSame(m, m', config, fuel, op, st);
    case BlockI(ty, body) =>
      var w := WeaveSeq(c, body, After(acc, Block(ty)));
      SkipGroup(m', fuel, c, acc, Block(ty), BlockI(ty, w.code + Simples(Before(c, w.accumulated, End))), st);
      WeaveClosedSame(m, m', config, fuel, c, body, After(acc, Block(ty)), End, st);
    case LoopI(ty, body) =>
      var w := WeaveSeq(c, body, After(acc, Loop(ty)));
      SkipGroup(m', fuel, c, acc, Loop(ty), LoopI(ty, w.code + Simples(Before(c, w.accumulated, End))), st);
      LoopSame(m, m', config, fuel, c, ty, body, st);
    case IfI(ty, thn, hasElse, els) =>
      IfSame(m, m', config, fuel, c, i, acc, st);
  }

  lemma {:induction false} IfSame(m: Machine, m': Machine, config: nat -> Config, fuel: nat,
                                  c: Config, i: Instr, acc: CodeBlock, st: State)
    requires Instrumented(m, m', config) && Imports(m, c) && i.IfI?
    ensures EvalSeq(m', fuel, WeaveOne(c, i, acc).code, st) == EvalOne(m, fuel, i, st)
    decreases fuel, 1, i, 1
  {
    var IfI(ty, thn, hasElse, els) := i;
    var close := if hasElse then Else else End;
    var w := WeaveSeq(c, thn, After(acc, If(ty)));
    var v := WeaveSeq(c, els, []);
    var thn' := w.code + Simples(Before(c, w.accumulated, close));
    var els' := if hasElse then v.code + Simples(Before(c, v.accumulated, End)) else els;
    SkipGroup(m', fuel, c, acc, If(ty), IfI(ty, thn', hasElse, els'), st);
    if st.stack != [] {
      WeaveClosedSame(m, m', config, fuel, c, thn, After(acc, If(ty)), close, Drop(st, 1));
      if hasElse {
        WeaveClosedSame(m, m', config, fuel, c, els, [], End, Drop(st, 1));
      }
    }
    IfBranches(m, m', fuel, i, IfI(ty, thn', hasElse, els'), st);
  }

  /** Conditionals whose branches agree, agree. */
  lemma IfBranches(m: Machine, m': Machine, fuel: nat, i: Instr, i': Instr, st: State)
    requires i.IfI? && i'.IfI? && i'.ty == i.ty && i'.hasElse == i.hasElse
    requires st.stack != [] ==>
               && EvalSeq(m', fuel, i'.thn, Drop(st, 1)) == EvalSeq(m, fuel, i.thn, Drop(st, 1))
               && (i.hasElse ==> EvalSeq(m', fuel, i'.els, Drop(st, 1)) == EvalSeq(m, fuel, i.els, Drop(st, 1)))
    ensures EvalOne(m', fuel, i', st) == EvalOne(m, fuel, i, st)
  {
  }

  lemma {:induction false} LoopSame(m: Machine, m': Machine, config: nat -> Config, fuel: nat,
                                    c: Config, ty: BlockType, body: seq<Instr>, st: State)
    requires Instrumented(m, m', config) && Imports(m, c)
    ensures var w := WeaveSeq(c, body, []);
            var body' := w.code + Simples(Before(c, w.accumulated, End));
            EvalOne(m', fuel, LoopI(ty, body'), st) == EvalOne(m, fuel, LoopI(ty, body), st)
    decreases fuel, 1, body, 2
  {
    WeaveClosedSame(m, m', config, fuel, c, body, [], End, st);
    var w := WeaveSeq(c, body, []);
    var next := NextRound(ty, st, EvalSeq(m, fuel, body, st));
    if next.Some? && fuel > 0 {
      LoopSame(m, m', config, fuel - 1, c, ty, body, next.value);
    }
    LoopRound(m, m', fuel, ty, body, w.code + Simples(Before(c, w.accumulated, End)), st);
  }

  /** Loops whose rounds agree, now and from the next round on, agree. */
  lemma LoopRound(m: Machine, m': Machine, fuel: nat, ty: BlockType, body: seq<Instr>, body': seq<Instr>, st: State)
    requires EvalSeq(m', fuel, body', st) == EvalSeq(m, fuel, body, st)
    requires var next := NextRound(ty, st, EvalSeq(m, fuel, body, st));
             next.Some? && fuel > 0 ==>
               EvalOne(m', fuel - 1, LoopI(ty, body'), next.value) == EvalOne(m, fuel - 1, LoopI(ty, body), next.value)
    ensures EvalOne(m', fuel, LoopI(ty, body'), st) == EvalOne(m, fuel, LoopI(ty, body), st)
  {
  }

  lemma {:induction false} OpSame(m: Machine, m': Machine, config: nat -> Config, fuel: nat, op: Op, st: State)
    requires Instrumented(m, m', config)
    ensures EvalOp(m', fuel, op, st) == EvalOp(m, fuel, op, st)
    decreases fuel, 0, 0, 1
  {
    if op.Call? {
      InvokeSame(m, m', config, fuel, op.function_index, st);
    } else if op.CallIndirect? {
      var n := |st.stack|;
      if n > 0 && st.stack[n - 1].I32? && st.stack[n - 1].v in m.table {
        InvokeSame(m, m', config, fuel, m.table[st.stack[n - 1].v], Drop(st, 1));
      }
    }
  }

  /** Calling any function of the instrumented module gives the same outcome: same results, same memory, same
      traps, and the same fuel spent on loops and calls. */
  lemma {:induction false} InvokeSame(m: Machine, m': Machine, config: nat -> Config, fuel: nat, f: nat, st: State)
    requires Instrumented(m, m', config)
    ensures Invoke(m', fuel, f, st) == Invoke(m, fuel, f, st)
    decreases fuel, 0, 0, 0
  {
    if f !in m.imports && f in m.funcs && fuel > 0 && |st.stack| >= m.funcs[f].params {
      var fn := m.funcs[f];
      assert m'.funcs[f] == fn.(body := WeaveBody(config(f), fn.body));
      WeaveClosedSame(m, m', config, fuel - 1, config(f), fn.body, [], End, EnterCall(fn.params, fn.locals, st));
    }
  }

  // ----- from stream to stream -----

  lemma {:induction false} ProperAppend(a: seq<Instr>, b: seq<Instr>)
    requires Proper(a) && Proper(b)
    ensures Proper(a + b)
  {
    if a == [] {
      assert a + b == b;
    } else {
      assert (a + b)[1..] == a[1..] + b;
      ProperAppend(a[1..], b);
    }
  }

  lemma {:induction false} GroupProper(c: Config, acc: CodeBlock, op: Op)
    ensures Proper(Simples(Before(c, acc, op)))
  {
    SimplesProper(Before(c, acc, op));
  }

  lemma {:induction false} SimplesProper(ops: seq<Op>)
    requires forall i | 0 <= i < |ops| :: !Structural(ops[i])
    ensures Proper(Simples(ops))
  {
    if ops != [] {
      assert Simples(ops)[1..] == Simples(ops[1..]);
      SimplesProper(ops[1..]);
    }
  }

  lemma {:induction false} WeaveSeqProper(c: Config, code: seq<Instr>, acc: CodeBlock)
    requires Proper(code)
    ensures Proper(WeaveSeq(c, code, acc).code)
    decreases code, 0
  {
    if code != [] {
      var w := WeaveOne(c, code[0], acc);
      WeaveOneProper(c, code[0], acc);
      WeaveSeqProper(c, code[1..], w.accumulated);
      ProperAppend(w.code, WeaveSeq(c, code[1..], w.accumulated).code);
    }
  }

  lemma {:induction false} WeaveClosedProper(c: Config, code: seq<Instr>, acc: CodeBlock, close: Op)
    requires Proper(code)
    ensures var w := WeaveSeq(c, code, acc); Proper(w.code + Simples(Before(c, w.accumulated, close)))
    decreases code, 1
  {
    var w := WeaveSeq(c, code, acc);
    WeaveSeqProper(c, code, acc);
    GroupProper(c, w.accumulated, close);
    ProperAppend(w.code, Simples(Before(c, w.accumulated, close)));
  }

  lemma SingleProper(group: seq<Instr>, i: Instr)
    requires Proper(group) && ProperOne(i)
    ensures Proper(group + [i])
  {
    assert [i][1..] == [];
    ProperAppend(group, [i]);
  }

  lemma {:induction false} WeaveOneProper(c: Config, i: Instr, acc: CodeBlock)
    requires ProperOne(i)
    ensures Proper(WeaveOne(c, i, acc).code)
    decreases i, 2
  {
    var open := match i
      case Simple(op) => op
      case BlockI(ty, _) => Block(ty)
      case LoopI(ty, _) => Loop(ty)
      case IfI(ty, _, _, _) => If(ty);
    GroupProper(c, acc, open);
    match i {
      case Simple(_) =>
      case BlockI(_, body) => WeaveClosedProper(c, body, After(acc, open), End);
      case LoopI(_, body) => WeaveClosedProper(c, body, After(acc, open), End);
      case IfI(_, thn, hasElse, els) =>
        WeaveClosedProper(c, thn, After(acc, open), if hasElse then Else else End);
        WeaveClosedProper(c, els, [], End);
    }
    var code := WeaveOne(c, i, acc).code;
    var n := |code| - 1;
    assert code[..n] == Simples(Before(c, acc, open)) && code == code[..n] + [code[n]];
    SingleProper(code[..n], code[n]);
  }

  /** Instrumenting the stream of a function body gives the stream of exactly one body: the woven one. */
  lemma InstrumentedParses(c: Config, blocks: Blocks, ops: seq<Op>)
    requires Parse(ops).Parsed? && Parse(ops).rest == [End]
    ensures Parse(FeedAll(c, Profiling([], blocks, []), ops).out) == Parsed(WeaveBody(c, Parse(ops).result), [End])
  {
    var body := Parse(ops).result;
    ParseSound(ops);
    InstrumentedStream(c, blocks, body);
    WeaveClosedProper(c, body, [], End);
    ParseFlatten(WeaveBody(c, body), [End]);
  }

  /** The stream is a function's body, closed by its final `End`. */
  ghost predicate BodyStream(m: Machine, f: nat, ops: seq<Op>)
    requires f in m.funcs
  {
    Parse(ops) == Parsed(m.funcs[f].body, [End])
  }

  /** Two modules whose function bodies are given as streams, the second's streams being what the middleware
      emits for the first's, with any block store at the start of each function. */
  ghost predicate StreamsInstrumented(m: Machine, m': Machine, config: nat -> Config, streams: map<nat, seq<Op>>,
                                      stores: nat -> Blocks) {
    && m'.imports == m.imports && m'.table == m.table && m'.plain == m.plain
    && m'.funcs.Keys == m.funcs.Keys == streams.Keys
    && (forall f | f in m.funcs ::
          && m'.funcs[f] == m.funcs[f].(body := m'.funcs[f].body)
          && BodyStream(m, f, streams[f])
          && BodyStream(m', f, FeedAll(config(f), Profiling([], stores(f), []), streams[f]).out))
    && forall f :: Imports(m, config(f))
  }

  /** Stream in, stream out: a module read back from the emitted operators behaves as the original in every
      call, whatever its other imports and plain operators do. */
  lemma InstrumentedStreamsMeanTheSame(m: Machine, m': Machine, config: nat -> Config, streams: map<nat, seq<Op>>,
                                       stores: nat -> Blocks, fuel: nat, f: nat, st: State)
    requires StreamsInstrumented(m, m', config, streams, stores)
    ensures Invoke(m', fuel, f, st) == Invoke(m, fuel, f, st)
  {
    forall g | g in m.funcs ensures m'.funcs[g] == m.funcs[g].(body := WeaveBody(config(g), m.funcs[g].body)) {
      InstrumentedParses(config(g), stores(g), streams[g]);
    }
    InvokeSame(m, m', config, fuel, f, st);
  }
}
