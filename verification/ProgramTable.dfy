/** Equal programs share one compiled function: when two environments are equal, and what a template has to be to serve
    as the function of an environment. */
module ProgramTable {
  import opened Wrappers
  import opened HandlebarsAst
  import opened HandlebarsCompiler
  import opened JsCode
  import opened CodeMachine
  import opened BufferMerging

  /** Environments are compared by their opcodes and their children; neither the number of statements nor the flags
      count. */
  predicate Equals(a: Environment, b: Environment)
    decreases a
  {
    && a.opcodes == b.opcodes && |a.children| == |b.children|
    && forall i :: 0 <= i < |a.children| ==> Equals(a.children[i], b.children[i])
  }

  // ----- enclosing contexts, told from the opcodes

  predicate Reaches(ops: seq<Opcode>) {
    exists i :: 0 <= i < |ops| && ops[i].GetContext? && ops[i].depth != 0
  }

  predicate Deep(e: Environment) {
    Reaches(e.opcodes) || exists i :: 0 <= i < |e.children| && Deep(e.children[i])
  }

  lemma {:induction false} ReachesBoth(a: seq<Opcode>, b: seq<Opcode>)
    ensures Reaches(a + b) <==> Reaches(a) || Reaches(b)
  {
    forall i | 0 <= i < |a + b| ensures (a + b)[i] == if i < |a| then a[i] else b[i - |a|] {
    }
    if i :| 0 <= i < |a| && a[i].GetContext? && a[i].depth != 0 {
      assert (a + b)[i] == a[i];
    }
    if i :| 0 <= i < |b| && b[i].GetContext? && b[i].depth != 0 {
      assert (a + b)[|a| + i] == b[i];
    }
  }

  lemma {:induction false} ReachesOne(op: Opcode)
    ensures Reaches([op]) <==> op.GetContext? && op.depth != 0
  {
    assert [op][0] == op;
  }

  lemma {:induction false} ReachesTwo(a: Opcode, b: Opcode)
    ensures Reaches([a, b]) <==> (a.GetContext? && a.depth != 0) || (b.GetContext? && b.depth != 0)
  {
    assert [a, b] == [a] + [b];
    ReachesBoth([a], [b]);
    ReachesOne(a);
    ReachesOne(b);
  }

  lemma {:induction false} PathReaches(scope: Scope, path: Path, falsy: bool, strict: bool)
    ensures Reaches(EmitPath(scope, path, falsy, strict)) <==> path.depth != 0
  {
    ReachesTwo(GetContext(path.depth), PathOpcode(scope, path, falsy, strict));
  }

  lemma {:induction false} ExprReaches(scope: Scope, e: Expr)
    ensures Reaches(EmitExpr(scope, e)) <==> ExprUsesDepths(scope, e)
    decreases e, 0
  {
    match e
    case PathExpression(path) => PathReaches(scope, path, false, false);
    case LiteralExpression(literal) => ReachesOne(PushLiteral(literal));
    case SubExpression(call) => CallReaches(scope, call, true, None, None);
  }

  lemma {:induction false} ParamReaches(scope: Scope, e: Expr)
    ensures Reaches(EmitParam(scope, e)) <==> ExprUsesDepths(scope, e)
    decreases e, 1
  {
    ExprReaches(scope, e);
    if scope.flags.stringParams {
      var (value, kind) := StringParam(e);
      var lead := [GetContext(ParamDepth(e)), PushStringParam(value, kind)];
      ReachesTwo(lead[0], lead[1]);
      ReachesBoth(lead, if e.SubExpression? then EmitExpr(scope, e) else []);
    } else {
      var lead := if scope.flags.trackIds then [PushId(ParamId(scope, e))] else [];
      ReachesOne(PushId(ParamId(scope, e)));
      ReachesBoth(lead, EmitExpr(scope, e));
    }
  }

  lemma {:induction false} ParamsReach(scope: Scope, params: seq<Expr>)
    ensures Reaches(EmitParams(scope, params)) <==> ParamsUseDepths(scope, params)
    decreases params, 2
  {
    if params != [] {
      ParamReaches(scope, params[0]);
      ParamsReach(scope, params[1..]);
      ReachesBoth(EmitParam(scope, params[0]), EmitParams(scope, params[1..]));
    }
  }

  lemma {:induction false} PairsReach(scope: Scope, pairs: seq<Pair>)
    ensures Reaches(EmitPairs(scope, pairs)) <==> PairsUseDepths(scope, pairs)
    decreases pairs, 2
  {
    if pairs != [] {
      ParamReaches(scope, pairs[0].value);
      PairsReach(scope, pairs[1..]);
      ReachesBoth(EmitParam(scope, pairs[0].value), EmitPairs(scope, pairs[1..]));
    }
  }

  lemma {:induction false} AssignsReach(pairs: seq<Pair>)
    ensures !Reaches(EmitAssigns(pairs))
    decreases |pairs|
  {
    if pairs != [] {
      AssignsReach(pairs[1..]);
      ReachesOne(AssignToHash(pairs[0].key));
      ReachesBoth(EmitAssigns(pairs[1..]), [AssignToHash(pairs[0].key)]);
    }
  }

  lemma {:induction false} HashReaches(scope: Scope, hash: seq<Pair>, omitEmpty: bool)
    ensures Reaches(EmitHash(scope, hash, omitEmpty)) <==> PairsUseDepths(scope, hash)
    decreases hash, 3
  {
    ReachesOne(EmptyHash(omitEmpty));
    if hash != [] {
      PairsReach(scope, hash);
      AssignsReach(hash);
      ReachesOne(PushHash);
      ReachesOne(PopHash);
      hide Reaches;
      ReachesBoth([PushHash], EmitPairs(scope, hash));
      ReachesBoth([PushHash] + EmitPairs(scope, hash), EmitAssigns(hash));
      ReachesBoth([PushHash] + EmitPairs(scope, hash) + EmitAssigns(hash), [PopHash]);
    }
  }

  lemma {:induction false} SetupReaches(scope: Scope, args: Args, program: Option<nat>, inverse: Option<nat>, omitEmpty: bool)
    ensures Reaches(EmitSetup(scope, args, program, inverse, omitEmpty)) <==> ArgsUseDepths(scope, args)
    decreases args, 4
  {
    var programs := [PushProgram(program), PushProgram(inverse)];
    ParamsReach(scope, args.params);
    HashReaches(scope, args.hash, omitEmpty);
    ReachesTwo(programs[0], programs[1]);
    hide Reaches, EmitParams, EmitHash;
    ReachesBoth(EmitParams(scope, args.params), programs);
    ReachesBoth(EmitParams(scope, args.params) + programs, EmitHash(scope, args.hash, omitEmpty));
  }

  lemma {:induction false} HelperReaches(scope: Scope, call: Call, program: Option<nat>, inverse: Option<nat>)
    ensures Reaches(EmitHelper(scope, call, program, inverse))
            <==> ArgsUseDepths(scope, call.args) || (!KnownHelper(scope, call.path) && call.path.depth != 0)
    decreases call, 4
  {
    var setup := EmitSetup(scope, call.args, program, inverse, false);
    SetupReaches(scope, call.args, program, inverse, false);
    PathReaches(scope, call.path, true, true);
    hide Reaches, EmitSetup, EmitPath, ArgsUseDepths;
    if KnownHelper(scope, call.path) {
      var op := InvokeKnownHelper(|call.args.params|, call.path.parts[0]);
      ReachesOne(op);
      ReachesBoth(setup, [op]);
    } else {
      var op := InvokeHelper(|call.args.params|, call.path.original, SimpleId(call.path));
      var path := EmitPath(scope, call.path, true, true);
      ReachesOne(op);
      ReachesBoth(path, [op]);
      ReachesBoth(setup, path + [op]);
    }
  }

  lemma {:induction false} CallReaches(scope: Scope, call: Call, isSubExpression: bool, program: Option<nat>, inverse: Option<nat>)
    ensures Reaches(EmitCall(scope, call, isSubExpression, program, inverse)) <==> CallUsesDepths(scope, call, isSubExpression)
    decreases call, 5
  {
    var path := EmitPath(scope, call.path, false, true);
    PathReaches(scope, call.path, false, true);
    match Classify(scope, call, isSubExpression)
    case SimpleKind =>
      ReachesOne(ResolvePossibleLambda);
      ReachesBoth(path, [ResolvePossibleLambda]);
    case HelperKind => HelperReaches(scope, call, program, inverse);
    case AmbiguousKind =>
      var lead := [GetContext(call.path.depth), PushProgram(program), PushProgram(inverse)];
      var op := InvokeAmbiguous(call.path.parts[0], program.Some? || inverse.Some?);
      assert lead == [lead[0]] + [lead[1], lead[2]];
      ReachesOne(lead[0]);
      ReachesTwo(lead[1], lead[2]);
      ReachesBoth([lead[0]], [lead[1], lead[2]]);
      ReachesOne(op);
      hide Reaches, EmitPath;
      ReachesBoth(lead, path);
      ReachesBoth(lead + path, [op]);
  }

  lemma {:induction false} TailReaches(scope: Scope, call: Call, p: Option<nat>, i: Option<nat>)
    ensures !Reaches(BlockTail(scope, call, p, i))
  {
    hide Classify;
  }

  lemma {:induction false} PartialReaches(scope: Scope, s: Statement, block: Option<nat>)
    requires s.PartialStatement?
    ensures Reaches(EmitPartial(scope, s, block)) <==> PartialUsesDepths(scope, s)
  {
    var (prefix, name, args) := (PartialPrefix(scope, s.args), PartialNameCode(scope, s.name), PartialArgs(scope.flags, s.args));
    var (setup, last) := (EmitSetup(scope, args, block, None, true), [PartialInvocation(s), Append]);
    assert !Reaches(prefix);
    if s.name.DynamicName? {
      CallReaches(scope, s.name.expr, true, None, None);
    }
    SetupReaches(scope, args, block, None, true);
    ReachesTwo(last[0], last[1]);
    assert s.name.StaticName? ==> !Reaches(name);
    hide Reaches, EmitSetup, EmitCall, PartialNameCode, PartialPrefix;
    ReachesBoth(prefix, name);
    ReachesBoth(prefix + name, setup);
    ReachesBoth(prefix + name + setup, last);
  }

  predicate AnyDeep(es: seq<Environment>) {
    exists i :: 0 <= i < |es| && Deep(es[i])
  }

  lemma {:induction false} DeepBoth(a: seq<Environment>, b: seq<Environment>)
    ensures AnyDeep(a + b) <==> AnyDeep(a) || AnyDeep(b)
  {
    hide Deep;
    forall i | 0 <= i < |a + b| ensures (a + b)[i] == if i < |a| then a[i] else b[i - |a|] {
    }
    if i :| 0 <= i < |a| && Deep(a[i]) {
      assert (a + b)[i] == a[i];
    }
    if i :| 0 <= i < |b| && Deep(b[i]) {
      assert (a + b)[|a| + i] == b[i];
    }
  }

  lemma {:induction false} ChildDeep(scope: Scope, child: Child)
    ensures AnyDeep(CompileChild(scope, child)) <==> ChildUsesDepths(scope, child)
    decreases child, 1
  {
    if child.Present? {
      DeepExactly(scope, child.program);
      var es := CompileChild(scope, child);
      assert es == [es[0]];
    }
  }

  lemma {:induction false} StatementDeep(scope: Scope, s: Statement, guid: nat)
    ensures var e := EmitStatement(scope, s, guid);
            Reaches(e.opcodes) || AnyDeep(e.children) <==> StatementUsesDepths(scope, s)
    decreases s, 0
  {
    hide EmitCall, EmitSetup, EmitPartial, BlockTail, CompileProgram, CallUsesDepths, ArgsUseDepths, AnyDeep;
    match s
    case ContentStatement(value) => ReachesOne(AppendContent(value)); NoneDeep();
    case CommentStatement => NoneDeep();
    case MustacheStatement(call, escaped) =>
      var op := if escaped && !scope.flags.noEscape then AppendEscaped else Append;
      NoneDeep();
      CallReaches(scope, call, false, None, None);
      ReachesOne(op);
      ReachesBoth(EmitCall(scope, call, false, None, None), [op]);
    case BlockStatement(call, program, inverse) =>
      var (p, i) := (Guid(program, guid), Guid(inverse, guid + Count(program)));
      CallReaches(scope, call, false, p, i);
      TailReaches(scope, call, p, i);
      ReachesOne(Append);
      ReachesBoth(EmitCall(scope, call, false, p, i), BlockTail(scope, call, p, i));
      ReachesBoth(EmitCall(scope, call, false, p, i) + BlockTail(scope, call, p, i), [Append]);
      ChildDeep(scope, program);
      ChildDeep(scope, inverse);
      DeepBoth(CompileChild(scope, program), CompileChild(scope, inverse));
    case PartialStatement(_, _, _, block) =>
      PartialReaches(scope, s, Guid(block, guid));
      ChildDeep(scope, block);
    case DecoratorStatement(call, block) =>
      var op := RegisterDecorator(|call.args.params|, call.path.original);
      SetupReaches(scope, call.args, Guid(block, guid), None, false);
      ReachesOne(op);
      ReachesBoth(EmitSetup(scope, call.args, Guid(block, guid), None, false), [op]);
      ChildDeep(scope, block);
  }

  lemma {:induction false} NoneDeep()
    ensures !AnyDeep([]) && !Reaches([])
  {
  }

  lemma {:induction false} BodyDeep(scope: Scope, body: seq<Statement>, guid: nat)
    ensures var e := EmitBody(scope, body, guid);
            Reaches(e.opcodes) || AnyDeep(e.children) <==> BodyUsesDepths(scope, body)
    decreases body, 1
  {
    hide EmitStatement, StatementUsesDepths, Reaches, AnyDeep, Deep;
    if body == [] {
      NoneDeep();
    } else {
      var first := EmitStatement(scope, body[0], guid);
      var rest := EmitBody(scope, body[1..], guid + |first.children|);
      StatementDeep(scope, body[0], guid);
      BodyDeep(scope, body[1..], guid + |first.children|);
      ReachesBoth(first.opcodes, rest.opcodes);
      DeepBoth(first.children, rest.children);
    }
  }

  /** Whether a program reaches outside its own context can be told from its opcodes and those of its children. */
  lemma {:induction false} DeepExactly(scope: Scope, program: Program)
    ensures var e := CompileProgram(scope, program);
            Deep(e) == e.useDepths
    decreases program, 2
  {
    BodyDeep(scope.(blockParams := [program.blockParams] + scope.blockParams), program.body, 0);
    hide EmitBody;
  }

  // ----- opcodes that write

  predicate WritingOp(op: Opcode) {
    op.AppendContent? || op.Append? || op.AppendEscaped?
  }

  function Writings(ops: seq<Opcode>): nat {
    if ops == [] then 0 else (if WritingOp(ops[0]) then 1 else 0) + Writings(ops[1..])
  }

  lemma {:induction false} WritingsBoth(a: seq<Opcode>, b: seq<Opcode>)
    ensures Writings(a + b) == Writings(a) + Writings(b)
    decreases |a|
  {
    if a == [] {
      assert a + b == b;
    } else {
      assert (a + b)[1..] == a[1..] + b;
      WritingsBoth(a[1..], b);
    }
  }

  lemma {:induction false} WritingsOne(op: Opcode)
    ensures Writings([op]) == if WritingOp(op) then 1 else 0
  {
    assert [op][1..] == [];
  }

  predicate Silent(ops: seq<Opcode>) {
    forall i :: 0 <= i < |ops| ==> !WritingOp(ops[i])
  }

  lemma {:induction false} SilentBoth(a: seq<Opcode>, b: seq<Opcode>)
    requires Silent(a) && Silent(b)
    ensures Silent(a + b)
  {
  }

  lemma {:induction false} SilentWrites(ops: seq<Opcode>)
    requires Silent(ops)
    ensures Writings(ops) == 0
    decreases |ops|
  {
    if ops != [] {
      SilentWrites(ops[1..]);
    }
  }

  lemma {:induction false} ExprSilent(scope: Scope, e: Expr)
    ensures Silent(EmitExpr(scope, e))
    decreases e, 0
  {
    if e.SubExpression? {
      CallSilent(scope, e.call, true, None, None);
    }
  }

  lemma {:induction false} ParamSilent(scope: Scope, e: Expr)
    ensures Silent(EmitParam(scope, e))
    decreases e, 1
  {
    ExprSilent(scope, e);
  }

  lemma {:induction false} ParamsSilent(scope: Scope, params: seq<Expr>)
    ensures Silent(EmitParams(scope, params))
    decreases params, 2
  {
    if params != [] {
      ParamSilent(scope, params[0]);
      ParamsSilent(scope, params[1..]);
      SilentBoth(EmitParam(scope, params[0]), EmitParams(scope, params[1..]));
    }
  }

  lemma {:induction false} PairsSilent(scope: Scope, pairs: seq<Pair>)
    ensures Silent(EmitPairs(scope, pairs)) && Silent(EmitAssigns(pairs))
    decreases pairs, 2
  {
    if pairs != [] {
      ParamSilent(scope, pairs[0].value);
      PairsSilent(scope, pairs[1..]);
      SilentBoth(EmitParam(scope, pairs[0].value), EmitPairs(scope, pairs[1..]));
    }
  }

  lemma {:induction false} SetupSilent(scope: Scope, args: Args, program: Option<nat>, inverse: Option<nat>, omitEmpty: bool)
    ensures Silent(EmitSetup(scope, args, program, inverse, omitEmpty))
    decreases args, 4
  {
    ParamsSilent(scope, args.params);
    PairsSilent(scope, args.hash);
    hide EmitParams, EmitPairs, EmitAssigns;
    assert Silent(EmitHash(scope, args.hash, omitEmpty));
    hide EmitHash;
  }

  lemma {:induction false} CallSilent(scope: Scope, call: Call, isSubExpression: bool, program: Option<nat>, inverse: Option<nat>)
    ensures Silent(EmitCall(scope, call, isSubExpression, program, inverse))
    decreases call, 5
  {
    SetupSilent(scope, call.args, program, inverse, false);
    assert Silent(EmitPath(scope, call.path, false, true)) && Silent(EmitPath(scope, call.path, true, true));
    hide EmitSetup, EmitPath;
    match Classify(scope, call, isSubExpression)
    case SimpleKind =>
    case HelperKind =>
    case AmbiguousKind =>
  }

  /** Statements that are not written out at all. */
  predicate Blank(s: Statement) {
    s.CommentStatement? || (s.ContentStatement? && s.value == "")
  }

  /** A statement that is no decorator writes once or is blank. */
  lemma {:induction false} WritesOnce(scope: Scope, s: Statement, guid: nat)
    ensures var e := EmitStatement(scope, s, guid);
            && Writings(e.opcodes) <= 1
            && (!s.DecoratorStatement? ==> (Writings(e.opcodes) == 0 <==> Blank(s)))
            && (Blank(s) ==> e == Emission([], []))
  {
    hide EmitCall, EmitSetup, BlockTail, CompileChild, PartialPrefix, PartialNameCode;
    match s
    case ContentStatement(value) => WritingsOne(AppendContent(value));
    case CommentStatement =>
    case MustacheStatement(call, escaped) =>
      CallSilent(scope, call, false, None, None);
      LastWrites(EmitCall(scope, call, false, None, None), if escaped && !scope.flags.noEscape then AppendEscaped else Append);
    case BlockStatement(call, program, inverse) =>
      var (p, i) := (Guid(program, guid), Guid(inverse, guid + Count(program)));
      CallSilent(scope, call, false, p, i);
      TailSilent(scope, call, p, i);
      LastWrites(EmitCall(scope, call, false, p, i) + BlockTail(scope, call, p, i), Append);
    case PartialStatement(name, args, _, block) =>
      PartialSilent(scope, s, Guid(block, guid));
    case DecoratorStatement(call, block) =>
      SetupSilent(scope, call.args, Guid(block, guid), None, false);
      SilentWrites(EmitStatement(scope, s, guid).opcodes);
  }

  lemma {:induction false} TailSilent(scope: Scope, call: Call, p: Option<nat>, i: Option<nat>)
    ensures Silent(BlockTail(scope, call, p, i))
  {
    hide Classify;
  }

  lemma {:induction false} PartialSilent(scope: Scope, s: Statement, block: Option<nat>)
    requires s.PartialStatement?
    ensures Writings(EmitPartial(scope, s, block)) == 1
  {
    var name := PartialNameCode(scope, s.name);
    var setup := EmitSetup(scope, PartialArgs(scope.flags, s.args), block, None, true);
    assert Silent(PartialPrefix(scope, s.args));
    if s.name.DynamicName? {
      CallSilent(scope, s.name.expr, true, None, None);
    }
    assert Silent(name);
    SetupSilent(scope, PartialArgs(scope.flags, s.args), block, None, true);
    hide EmitSetup, PartialNameCode, PartialPrefix;
    var ops := PartialPrefix(scope, s.args) + name + setup + [PartialInvocation(s)];
    assert EmitPartial(scope, s, block) == ops + [Append];
    LastWrites(ops, Append);
  }

  lemma {:induction false} LastWrites(ops: seq<Opcode>, op: Opcode)
    requires Silent(ops) && WritingOp(op)
    ensures Writings(ops + [op]) == 1
  {
    SilentWrites(ops);
    WritingsOne(op);
    WritingsBoth(ops, [op]);
  }

  // ----- serving as the function of an environment

  /** The body that the opcodes of `e` give, as a program of a single statement or not. */
  predicate BodyOf(flags: Flags, e: Environment, body: Body, isSimple: bool) {
    var m := Generate(Config(flags, isSimple, Deep(e)), e.opcodes);
    m.Some? && body == Merge(m.value.source, isSimple)
  }

  /** A template whose body and children could be those of `e`: taken for a single statement only if at most one writes. */
  predicate Serves(flags: Flags, e: Environment, t: Template)
    decreases e
  {
    && (BodyOf(flags, e, t.body, false) || (Writings(e.opcodes) <= 1 && BodyOf(flags, e, t.body, true)))
    && |t.children| == |e.children|
    && forall i :: 0 <= i < |e.children| ==> Serves(flags, e.children[i], t.children[i])
  }

  lemma {:induction false} EqualDeep(a: Environment, b: Environment)
    requires Equals(a, b)
    ensures Deep(a) == Deep(b)
    decreases a
  {
    forall i | 0 <= i < |a.children| ensures Deep(a.children[i]) == Deep(b.children[i]) {
      EqualDeep(a.children[i], b.children[i]);
    }
  }

  /** What serves an environment serves every one that is equal to it. */
  lemma {:induction false} EqualServes(flags: Flags, a: Environment, b: Environment, t: Template)
    requires Equals(a, b) && Serves(flags, a, t)
    ensures Serves(flags, b, t)
    decreases a
  {
    EqualDeep(a, b);
    forall i | 0 <= i < |b.children| ensures Serves(flags, b.children[i], t.children[i]) {
      EqualServes(flags, a.children[i], b.children[i], t.children[i]);
    }
    hide Deep, Generate, Merge;
  }
}
