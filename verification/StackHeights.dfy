/** With both `stringParams` and `trackIds` set the compiler pushes less for a parameter than the code generator pops:
    how far each opcode changes the height of the stacks, and what the opcodes of a program add up to. */
module StackHeights {
  import opened Wrappers
  import opened HandlebarsAst
  import opened HandlebarsCompiler
  import opened JsCode
  import opened CodeMachine

  // ----- the height of the stacks

  function Height(m: Machine): nat {
    |m.inlineStack| + |m.compileStack|
  }

  /** By how much an opcode changes the height when both `stringParams` and `trackIds` are set. */
  function Delta(op: Opcode): int {
    match op
    case GetContext(_) => 0
    case PushStringParam(value, _) => if value.Some? then 3 else 2
    case EmptyHash(_) => 4
    case PushHash => 0
    case AssignToHash(_) => -4
    case PopHash => 4
    case ResolvePossibleLambda => 0
    case InvokeHelper(arity, _, _) => -6 - 4 * arity
    case InvokeKnownHelper(arity, _) => -5 - 4 * arity
    case InvokeAmbiguous(_, _) => -2
    case InvokePartial(dynamic, _, _) => if dynamic then -10 else -9
    case RegisterDecorator(arity, _) => -6 - 4 * arity
    case BlockValue(_) => -6
    case AmbiguousBlockValue => -6
    case AppendContent(_) => 0
    case Append => -1
    case AppendEscaped => -1
    case _ => 1
  }

  function Raised(ops: seq<Opcode>): int {
    if ops == [] then 0 else Delta(ops[0]) + Raised(ops[1..])
  }

  lemma {:induction false} SumAppend(a: seq<Opcode>, b: seq<Opcode>)
    ensures Raised(a + b) == Raised(a) + Raised(b)
    decreases |a|
  {
    if a == [] {
      assert a + b == b;
    } else {
      assert (a + b)[1..] == a[1..] + b;
      SumAppend(a[1..], b);
    }
  }

  lemma {:induction false} PopHeight(m: Machine)
    ensures Pop(m).Some? ==> Height(Pop(m).value.1) == Height(m) - 1
  {
  }

  lemma {:induction false} TrackedHeight(config: Config, m: Machine)
    requires BothTracked(config.flags)
    ensures PopTracked(config, m).Some? ==> Height(PopTracked(config, m).value.rest) == Height(m) - 4
  {
    PopHeight(m);
    hide Height;
    if Pop(m).Some? {
      var m1 := Pop(m).value.1;
      PopHeight(m1);
      if Pop(m1).Some? {
        var m2 := Pop(m1).value.1;
        PopHeight(m2);
        if Pop(m2).Some? {
          PopHeight(Pop(m2).value.1);
        }
      }
    }
    hide Pop;
  }

  lemma {:induction false} ParamsHeight(config: Config, m: Machine, n: nat)
    requires BothTracked(config.flags)
    ensures PopParams(config, m, n).Some? ==> Height(PopParams(config, m, n).value.rest) == Height(m) - 4 * n
    decreases n
  {
    hide PopTracked, Height;
    if n > 0 {
      TrackedHeight(config, m);
      if PopTracked(config, m).Some? {
        ParamsHeight(config, PopTracked(config, m).value.rest, n - 1);
      }
    }
  }

  lemma {:induction false} SetupHeight(config: Config, m: Machine, name: string, arity: nat)
    requires BothTracked(config.flags)
    ensures var s := SetupParams(config, m, name, arity);
            s.Some? ==> Height(s.value.rest) == Height(m) - 6 - 4 * arity
  {
    hide PopTracked, Pop, PopParams, Height;
    TrackedHeight(config, m);
    var hash := PopTracked(config, m);
    if hash.Some? {
      PopHeight(hash.value.rest);
      var inverse := Pop(hash.value.rest);
      if inverse.Some? {
        PopHeight(inverse.value.1);
        var program := Pop(inverse.value.1);
        if program.Some? {
          ParamsHeight(config, program.value.1, arity);
        }
      }
    }
  }

  lemma {:induction false} ResolveHeight(m: Machine, parts: seq<string>, falsy: bool)
    ensures ResolvePath(m, parts, falsy).Some? ==> Height(ResolvePath(m, parts, falsy).value) == Height(m)
    decreases |parts|
  {
    if parts != [] {
      var r := ReplaceStack(m, if falsy then Guarded(parts[0]) else NullSafe(parts[0]));
      if r.Some? {
        ResolveHeight(r.value, parts[1..], falsy);
      }
    }
  }

  lemma {:induction false} FlushHeight(config: Config, m: Machine, entries: seq<Entry>)
    requires m.inlineStack == []
    ensures FlushEntries(config, m, entries).inlineStack == [] && Height(FlushEntries(config, m, entries)) == Height(m) + |entries|
    decreases |entries|
  {
    if entries != [] {
      if entries[0].Lit? {
        FlushHeight(config, m.(compileStack := m.compileStack + [entries[0]]), entries[1..]);
      } else {
        var m1 := IncrStack(m);
        var m2 := PushSource(config, m1, Assign(m1.stackSlot, entries[0].expr));
        FlushHeight(config, m2.(compileStack := m2.compileStack + [Code(Temp(m1.stackSlot))]), entries[1..]);
      }
    }
  }

  lemma {:induction false} CallHeight(config: Config, m: Machine, op: Opcode)
    requires BothTracked(config.flags) && CallOpcode(op)
    ensures Step(config, m, op).Some? ==> Height(Step(config, m, op).value) == Height(m) + Delta(op)
  {
    hide PopTracked, SetupParams, FlushEntries, ResolvePath, Pop, AppendOp, AssignToHashOp, PopHashOp;
    match op
    case InvokeHelper(arity, name, _) =>
      PopHeight(m);
      if Pop(m).Some? {
        SetupHeight(config, Pop(m).value.1, name, arity);
      }
    case InvokeKnownHelper(arity, name) => SetupHeight(config, m, name, arity);
    case InvokeAmbiguous(name, _) =>
      PopHeight(m);
      if Pop(m).Some? {
        SetupHeight(config, EmptyHashOp(config, Pop(m).value.1, false), name, 0);
      }
    case InvokePartial(_, name, _) =>
      SetupHeight(config, m, name, 1);
      var s := SetupParams(config, m, name, 1);
      if s.Some? {
        PopHeight(s.value.rest);
      }
    case RegisterDecorator(arity, name) => SetupHeight(config, m, name, arity);
    case BlockValue(name) =>
      SetupHeight(config, m, name, 0);
      var s := SetupParams(config, m, name, 0);
      if s.Some? {
        PopHeight(s.value.rest);
      }
    case AmbiguousBlockValue =>
      SetupHeight(config, m, "", 0);
      var s := SetupParams(config, m, "", 0);
      if s.Some? {
        FlushHeight(config, s.value.rest.(inlineStack := []), s.value.rest.inlineStack);
      }
  }

  /** The change does not depend on the state: whatever an opcode does not throw at, it changes the height by `Delta`. */
  lemma {:induction false} StepHeight(config: Config, m: Machine, op: Opcode)
    requires BothTracked(config.flags)
    ensures Step(config, m, op).Some? ==> Height(Step(config, m, op).value) == Height(m) + Delta(op)
  {
    hide PopTracked, SetupParams, FlushEntries, ResolvePath, Pop, InvokeHelperOp, InvokePartialOp, InvokeAmbiguousOp, BlockValueOp, AmbiguousBlockValueOp;
    if CallOpcode(op) {
      CallHeight(config, m, op);
      return;
    }
    match op
    case LookupOnContext(parts, falsy, _, _) => ResolveHeight(PushLit(m, ContextVar(config, m.lastContext)), parts, falsy);
    case LookupData(depth, parts, _) => ResolveHeight(PushLit(m, DataVar(depth)), parts, true);
    case LookupBlockParam(depth, index, parts) =>
      if parts != [] {
        ResolveHeight(PushCode(m, BlockParamVar(depth, index)), parts[1..], false);
      }
    case AssignToHash(key) => TrackedHeight(config, m);
    case ResolvePossibleLambda => PopHeight(m);
    case Append =>
      PopHeight(m);
      if m.inlineStack != [] {
        PopHeight(ReplaceStack(m, OrEmpty).value);
      }
    case AppendEscaped => PopHeight(m);
    case _ =>
  }

  lemma {:induction false} RunHeight(config: Config, m: Machine, ops: seq<Opcode>)
    requires BothTracked(config.flags)
    ensures Run(config, m, ops).Some? ==> Height(Run(config, m, ops).value) == Height(m) + Raised(ops)
    decreases |ops|
  {
    hide Step, Delta, Height;
    if ops != [] {
      StepHeight(config, m, ops[0]);
      if Step(config, m, ops[0]).Some? {
        RunHeight(config, Step(config, m, ops[0]).value, ops[1..]);
      }
    }
  }

  // ----- what the opcodes of a program add up to

  /** Parameters and hash pairs that a call passes on: each takes one entry more off the stack than was pushed for it. */
  function Lost(scope: Scope, args: Args): nat
    decreases args, 3
  {
    |args.params| + |args.hash| + LostParams(scope, args.params) + LostPairs(scope, args.hash)
  }

  function LostExpr(scope: Scope, e: Expr): nat
    decreases e, 0
  {
    if e.SubExpression? then LostCall(scope, e.call, true) else 0
  }

  function LostParams(scope: Scope, params: seq<Expr>): nat
    decreases params, 1
  {
    if params == [] then 0 else LostExpr(scope, params[0]) + LostParams(scope, params[1..])
  }

  function LostPairs(scope: Scope, pairs: seq<Pair>): nat
    decreases pairs, 1
  {
    if pairs == [] then 0 else LostExpr(scope, pairs[0].value) + LostPairs(scope, pairs[1..])
  }

  function LostCall(scope: Scope, call: Call, isSubExpression: bool): nat
    decreases call, 4
  {
    if Classify(scope, call, isSubExpression).HelperKind? then Lost(scope, call.args) else 0
  }

  function LostStatement(scope: Scope, s: Statement): nat {
    match s
    case MustacheStatement(call, _) => LostCall(scope, call, false)
    case BlockStatement(call, _, _) => LostCall(scope, call, false)
    case PartialStatement(name, args, _, _) =>
      (if name.DynamicName? then LostCall(scope, name.expr, true) else 0) + Lost(scope, PartialArgs(scope.flags, args))
      + (if NoContext(scope, args) then 3 else 0)
    case DecoratorStatement(call, _) => Lost(scope, call.args)
    case _ => 0
  }

  function LostBody(scope: Scope, body: seq<Statement>): nat {
    if body == [] then 0 else LostStatement(scope, body[0]) + LostBody(scope, body[1..])
  }

  lemma {:induction false} One(op: Opcode)
    ensures Raised([op]) == Delta(op)
  {
    assert [op][1..] == [];
  }

  lemma {:induction false} Two(a: Opcode, b: Opcode)
    ensures Raised([a, b]) == Delta(a) + Delta(b)
  {
    assert [a, b][1..] == [b];
    One(b);
  }

  lemma {:induction false} PathSum(scope: Scope, path: Path, falsy: bool, strict: bool)
    ensures Raised(EmitPath(scope, path, falsy, strict)) == 1
  {
    Two(GetContext(path.depth), PathOpcode(scope, path, falsy, strict));
  }

  lemma {:induction false} ExprSum(scope: Scope, e: Expr)
    requires BothTracked(scope.flags)
    ensures Raised(EmitExpr(scope, e)) == 1 - LostExpr(scope, e)
    decreases e, 0
  {
    match e
    case PathExpression(path) => PathSum(scope, path, false, false);
    case LiteralExpression(literal) => One(PushLiteral(literal));
    case SubExpression(call) => CallSum(scope, call, true, None, None);
  }

  lemma {:induction false} ParamSum(scope: Scope, e: Expr)
    requires BothTracked(scope.flags)
    ensures Raised(EmitParam(scope, e)) == 3 - LostExpr(scope, e)
    decreases e, 1
  {
    var (value, kind) := StringParam(e);
    var lead := [GetContext(ParamDepth(e)), PushStringParam(value, kind)];
    Two(lead[0], lead[1]);
    var rest := if e.SubExpression? then EmitExpr(scope, e) else [];
    SumAppend(lead, rest);
    if e.SubExpression? {
      ExprSum(scope, e);
    }
  }

  lemma {:induction false} ParamsSum(scope: Scope, params: seq<Expr>)
    requires BothTracked(scope.flags)
    ensures Raised(EmitParams(scope, params)) == 3 * |params| - LostParams(scope, params)
    decreases params, 2
  {
    if params != [] {
      ParamSum(scope, params[0]);
      ParamsSum(scope, params[1..]);
      SumAppend(EmitParam(scope, params[0]), EmitParams(scope, params[1..]));
    }
  }

  lemma {:induction false} PairsSum(scope: Scope, pairs: seq<Pair>)
    requires BothTracked(scope.flags)
    ensures Raised(EmitPairs(scope, pairs)) == 3 * |pairs| - LostPairs(scope, pairs)
    decreases pairs, 2
  {
    if pairs != [] {
      ParamSum(scope, pairs[0].value);
      PairsSum(scope, pairs[1..]);
      SumAppend(EmitParam(scope, pairs[0].value), EmitPairs(scope, pairs[1..]));
    }
  }

  lemma {:induction false} AssignsSum(pairs: seq<Pair>)
    ensures Raised(EmitAssigns(pairs)) == -4 * |pairs|
    decreases |pairs|
  {
    if pairs != [] {
      AssignsSum(pairs[1..]);
      One(AssignToHash(pairs[0].key));
      SumAppend(EmitAssigns(pairs[1..]), [AssignToHash(pairs[0].key)]);
    }
  }

  lemma {:induction false} HashSum(scope: Scope, hash: seq<Pair>, omitEmpty: bool)
    requires BothTracked(scope.flags)
    ensures Raised(EmitHash(scope, hash, omitEmpty)) == 4 - |hash| - LostPairs(scope, hash)
    decreases hash, 3
  {
    if hash == [] {
      One(EmptyHash(omitEmpty));
    } else {
      PairsSum(scope, hash);
      AssignsSum(hash);
      One(PushHash);
      One(PopHash);
      SumAppend([PushHash], EmitPairs(scope, hash));
      SumAppend([PushHash] + EmitPairs(scope, hash), EmitAssigns(hash));
      SumAppend([PushHash] + EmitPairs(scope, hash) + EmitAssigns(hash), [PopHash]);
    }
  }

  lemma {:induction false} SetupSum(scope: Scope, args: Args, program: Option<nat>, inverse: Option<nat>, omitEmpty: bool)
    requires BothTracked(scope.flags)
    ensures Raised(EmitSetup(scope, args, program, inverse, omitEmpty)) == 6 + 4 * |args.params| - Lost(scope, args)
    decreases args, 4
  {
    var programs := [PushProgram(program), PushProgram(inverse)];
    ParamsSum(scope, args.params);
    HashSum(scope, args.hash, omitEmpty);
    Two(programs[0], programs[1]);
    SumAppend(EmitParams(scope, args.params), programs);
    SumAppend(EmitParams(scope, args.params) + programs, EmitHash(scope, args.hash, omitEmpty));
  }

  lemma {:induction false} HelperSum(scope: Scope, call: Call, program: Option<nat>, inverse: Option<nat>)
    requires BothTracked(scope.flags)
    ensures Raised(EmitHelper(scope, call, program, inverse)) == 1 - Lost(scope, call.args)
    decreases call, 4
  {
    var setup := EmitSetup(scope, call.args, program, inverse, false);
    SetupSum(scope, call.args, program, inverse, false);
    if KnownHelper(scope, call.path) {
      var op := InvokeKnownHelper(|call.args.params|, call.path.parts[0]);
      One(op);
      SumAppend(setup, [op]);
    } else {
      var op := InvokeHelper(|call.args.params|, call.path.original, SimpleId(call.path));
      One(op);
      PathSum(scope, call.path, true, true);
      SumAppend(EmitPath(scope, call.path, true, true), [op]);
      SumAppend(setup, EmitPath(scope, call.path, true, true) + [op]);
    }
  }

  lemma {:induction false} CallSum(scope: Scope, call: Call, isSubExpression: bool, program: Option<nat>, inverse: Option<nat>)
    requires BothTracked(scope.flags)
    ensures Raised(EmitCall(scope, call, isSubExpression, program, inverse)) == 1 - LostCall(scope, call, isSubExpression)
    decreases call, 5
  {
    PathSum(scope, call.path, false, true);
    var path := EmitPath(scope, call.path, false, true);
    match Classify(scope, call, isSubExpression)
    case SimpleKind =>
      One(ResolvePossibleLambda);
      SumAppend(path, [ResolvePossibleLambda]);
    case HelperKind => HelperSum(scope, call, program, inverse);
    case AmbiguousKind =>
      var lead := [GetContext(call.path.depth), PushProgram(program), PushProgram(inverse)];
      var op := InvokeAmbiguous(call.path.parts[0], program.Some? || inverse.Some?);
      assert lead[1..] == [PushProgram(program), PushProgram(inverse)];
      Two(lead[1], lead[2]);
      One(op);
      SumAppend(lead, path);
      SumAppend(lead + path, [op]);
  }

  lemma {:induction false} TailSum(scope: Scope, call: Call, p: Option<nat>, i: Option<nat>)
    ensures Raised(BlockTail(scope, call, p, i)) == 0
  {
    var tail := BlockTail(scope, call, p, i);
    if tail != [] {
      Two(tail[0], tail[1]);
      Two(tail[2], tail[3]);
      SumAppend([tail[0], tail[1]], [tail[2], tail[3]]);
      assert tail == [tail[0], tail[1]] + [tail[2], tail[3]];
    }
  }

  lemma {:induction false} PartialSum(scope: Scope, s: Statement, block: Option<nat>)
    requires s.PartialStatement? && Supported(s) && BothTracked(scope.flags)
    ensures Raised(EmitPartial(scope, s, block)) == 0 - LostStatement(scope, s)
  {
    hide EmitSetup, EmitCall, Lost;
    var name := PartialNameCode(scope, s.name);
    var setup := EmitSetup(scope, PartialArgs(scope.flags, s.args), block, None, true);
    var last := [PartialInvocation(s), Append];
    if s.name.DynamicName? {
      CallSum(scope, s.name.expr, true, None, None);
    }
    SetupSum(scope, PartialArgs(scope.flags, s.args), block, None, true);
    Two(last[0], last[1]);
    var prefix := PartialPrefix(scope, s.args);
    One(PushLiteral(UndefinedLiteral));
    SumAppend(prefix, name);
    SumAppend(prefix + name, setup);
    SumAppend(prefix + name + setup, last);
  }

  lemma {:induction false} MustacheSum(scope: Scope, call: Call, op: Opcode)
    requires BothTracked(scope.flags) && (op == Append || op == AppendEscaped)
    ensures Raised(EmitCall(scope, call, false, None, None) + [op]) == 0 - LostCall(scope, call, false)
  {
    hide EmitCall, LostCall;
    CallSum(scope, call, false, None, None);
    One(op);
    SumAppend(EmitCall(scope, call, false, None, None), [op]);
  }

  lemma {:induction false} BlockSum(scope: Scope, call: Call, p: Option<nat>, i: Option<nat>)
    requires BothTracked(scope.flags)
    ensures Raised(EmitCall(scope, call, false, p, i) + BlockTail(scope, call, p, i) + [Append]) == 0 - LostCall(scope, call, false)
  {
    hide EmitCall, LostCall, BlockTail;
    CallSum(scope, call, false, p, i);
    TailSum(scope, call, p, i);
    One(Append);
    SumAppend(EmitCall(scope, call, false, p, i), BlockTail(scope, call, p, i));
    SumAppend(EmitCall(scope, call, false, p, i) + BlockTail(scope, call, p, i), [Append]);
  }

  lemma {:induction false} DecoratorSum(scope: Scope, call: Call, block: Option<nat>)
    requires BothTracked(scope.flags)
    ensures Raised(EmitSetup(scope, call.args, block, None, false) + [RegisterDecorator(|call.args.params|, call.path.original)])
         == 0 - Lost(scope, call.args)
  {
    hide EmitSetup, Lost;
    var op := RegisterDecorator(|call.args.params|, call.path.original);
    SetupSum(scope, call.args, block, None, false);
    One(op);
    SumAppend(EmitSetup(scope, call.args, block, None, false), [op]);
  }

  lemma {:induction false} NoSum()
    ensures Raised([]) == 0
  {
  }

  /** The opcodes of a statement leave the height as it was, but for what its calls lose. */
  lemma {:induction false} StatementSum(scope: Scope, s: Statement, guid: nat)
    requires Supported(s) && BothTracked(scope.flags)
    ensures Raised(EmitStatement(scope, s, guid).opcodes) == 0 - LostStatement(scope, s)
  {
    hide EmitCall, EmitSetup, Lost, EmitPartial, BlockTail, CompileChild, LostCall, Raised, Delta;
    match s
    case ContentStatement(value) =>
      NoSum();
      ContentSum(value);
    case CommentStatement => NoSum();
    case MustacheStatement(call, escaped) => MustacheSum(scope, call, if escaped && !scope.flags.noEscape then AppendEscaped else Append);
    case BlockStatement(call, program, inverse) => BlockSum(scope, call, Guid(program, guid), Guid(inverse, guid + Count(program)));
    case PartialStatement(_, _, _, block) => PartialSum(scope, s, Guid(block, guid));
    case DecoratorStatement(call, block) => DecoratorSum(scope, call, Guid(block, guid));
  }

  lemma {:induction false} ContentSum(value: string)
    ensures Raised([AppendContent(value)]) == 0
  {
    One(AppendContent(value));
  }

  lemma {:induction false} BodySum(scope: Scope, body: seq<Statement>, guid: nat)
    requires BodySupported(body) && BothTracked(scope.flags)
    ensures Raised(EmitBody(scope, body, guid).opcodes) == 0 - LostBody(scope, body)
    decreases |body|
  {
    hide EmitStatement;
    if body != [] {
      var first := EmitStatement(scope, body[0], guid);
      StatementSum(scope, body[0], guid);
      BodySum(scope, body[1..], guid + |first.children|);
      SumAppend(first.opcodes, EmitBody(scope, body[1..], guid + |first.children|).opcodes);
    }
  }
}
