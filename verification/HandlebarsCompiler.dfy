/** The first compiler pass: one walk over the template tree that pushes opcodes.
    `Emit*` say what each visitor pushes; class `Compiler` pushes them in place. */
module HandlebarsCompiler {
  import opened Wrappers
  import opened HandlebarsAst

  datatype IdKind = PathId(text: string) | BlockParamId(depth: nat, index: nat, child: string) | SubExpressionId | OtherId

  datatype Opcode =
    | GetContext(depth: nat)
    | PushContext
    | LookupOnContext(parts: seq<string>, falsy: bool, strict: bool, scoped: bool)
    | LookupData(depth: nat, parts: seq<string>, strict: bool)
    | LookupBlockParam(index: nat, slot: nat, parts: seq<string>)
    | PushLiteral(literal: Literal)
    | PushStringParam(value: Option<Literal>, kind: string)
    | PushId(id: IdKind)
    | PushProgram(guid: Option<nat>)
    | EmptyHash(omitEmpty: bool)
    | PushHash
    | AssignToHash(key: string)
    | PopHash
    | ResolvePossibleLambda
    | InvokeHelper(arity: nat, name: string, simple: bool)
    | InvokeKnownHelper(arity: nat, name: string)
    | InvokeAmbiguous(name: string, isBlock: bool)
    | InvokePartial(dynamic: bool, name: string, indent: string)
    | RegisterDecorator(arity: nat, name: string)
    | BlockValue(name: string)
    | AmbiguousBlockValue
    | AppendContent(text: string)
    | Append
    | AppendEscaped

  /** What one compiler leaves behind: its opcodes and one environment a nested program. */
  datatype Environment = Environment(opcodes: seq<Opcode>, children: seq<Environment>,
                                     isSimple: bool, useDepths: bool, blockParams: nat, useDecorators: bool)

  datatype Flags = Flags(knownHelpers: set<string>, noEscape: bool, explicitPartialContext: bool,
                         stringParams: bool, trackIds: bool)

  /** The options in force at a node, with the block parameters of the enclosing programs, innermost first. */
  datatype Scope = Scope(flags: Flags, blockParams: seq<seq<string>>)

  datatype Kind = HelperKind | AmbiguousKind | SimpleKind

  /** First position of `name` in `names`, or the length. */
  function IndexOf(names: seq<string>, name: string): nat {
    if names == [] || names[0] == name then 0 else 1 + IndexOf(names[1..], name)
  }

  function BlockParamIndex(blockParams: seq<seq<string>>, name: string): Option<(nat, nat)> {
    if blockParams == [] then None
    else if name in blockParams[0] then Some((0, IndexOf(blockParams[0], name)))
    else match BlockParamIndex(blockParams[1..], name)
         case None => None
         case Some((depth, index)) => Some((depth + 1, index))
  }

  function Classify(scope: Scope, call: Call, isSubExpression: bool): Kind {
    var isSimple := SimpleId(call.path);
    var isBlockParam := isSimple && BlockParamIndex(scope.blockParams, call.path.parts[0]).Some?;
    if !isBlockParam && HelperExpression(call, isSubExpression) then HelperKind
    else if !isBlockParam && isSimple then
      if call.path.parts[0] in scope.flags.knownHelpers then HelperKind else AmbiguousKind
    else SimpleKind
  }

  predicate KnownHelper(scope: Scope, path: Path) {
    |path.parts| > 0 && path.parts[0] in scope.flags.knownHelpers
  }

  // ----- paths and parameters

  /** The one opcode after `getContext` in the code of a path. */
  function PathOpcode(scope: Scope, path: Path, falsy: bool, strict: bool): Opcode {
    if |path.parts| > 0 && path.depth == 0 && !ScopedId(path) && BlockParamIndex(scope.blockParams, path.parts[0]).Some? then
      var id := BlockParamIndex(scope.blockParams, path.parts[0]).value;
      LookupBlockParam(id.0, id.1, path.parts)
    else if path.parts == [] || path.parts[0] == "" then PushContext
    else if path.data then LookupData(path.depth, path.parts, strict)
    else LookupOnContext(path.parts, falsy, strict, ScopedId(path))
  }

  function EmitPath(scope: Scope, path: Path, falsy: bool, strict: bool): seq<Opcode> {
    [GetContext(path.depth), PathOpcode(scope, path, falsy, strict)]
  }

  /** `^(\.?\.\/)*` removed. */
  function StripUp(text: string): string {
    if |text| >= 3 && text[..3] == "../" then StripUp(text[3..])
    else if |text| >= 2 && text[..2] == "./" then StripUp(text[2..])
    else text
  }

  function Dotted(text: string): string {
    seq(|text|, i requires 0 <= i < |text| => if text[i] == '/' then '.' else text[i])
  }

  /** The text that `pushStringParam` receives for a parameter, and the name of its node type. */
  function StringParam(e: Expr): (Option<Literal>, string) {
    match e
    case PathExpression(path) => (Some(TextLiteral(Dotted(StripUp(path.original)))), "PathExpression")
    case SubExpression(_) => (None, "SubExpression")
    case LiteralExpression(TextLiteral(s)) => (Some(TextLiteral(Dotted(StripUp(s)))), "StringLiteral")
    case LiteralExpression(NumberLiteral(n)) => (Some(NumberLiteral(n)), "NumberLiteral")
    case LiteralExpression(BooleanLiteral(b)) => (Some(BooleanLiteral(b)), "BooleanLiteral")
    case LiteralExpression(UndefinedLiteral) => (Some(TextLiteral("")), "UndefinedLiteral")
    case LiteralExpression(NullLiteral) => (Some(TextLiteral("")), "NullLiteral")
  }

  /** `^this(?:\.|$)`, `^\.\/` and `^\.$` removed, in this order. */
  function IdText(text: string): string {
    var a := if text == "this" then "" else if |text| >= 5 && text[..5] == "this." then text[5..] else text;
    var b := if |a| >= 2 && a[..2] == "./" then a[2..] else a;
    if b == "." then "" else b
  }

  function ParamId(scope: Scope, e: Expr): IdKind {
    match e
    case PathExpression(path) =>
      if |path.parts| > 0 && !ScopedId(path) && path.depth == 0 && BlockParamIndex(scope.blockParams, path.parts[0]).Some? then
        var id := BlockParamIndex(scope.blockParams, path.parts[0]).value;
        BlockParamId(id.0, id.1, Join(".", path.parts[1..]))
      else PathId(IdText(path.original))
    case SubExpression(_) => SubExpressionId
    case LiteralExpression(_) => OtherId
  }

  function ParamDepth(e: Expr): nat {
    if e.PathExpression? then e.path.depth else 0
  }

  function EmitExpr(scope: Scope, e: Expr): seq<Opcode>
    decreases e, 0
  {
    match e
    case PathExpression(path) => EmitPath(scope, path, false, false)
    case LiteralExpression(literal) => [PushLiteral(literal)]
    case SubExpression(call) => EmitCall(scope, call, true, None, None)
  }

  function EmitParam(scope: Scope, e: Expr): seq<Opcode>
    decreases e, 1
  {
    if scope.flags.stringParams then
      var (value, kind) := StringParam(e);
      [GetContext(ParamDepth(e)), PushStringParam(value, kind)] + (if e.SubExpression? then EmitExpr(scope, e) else [])
    else
      (if scope.flags.trackIds then [PushId(ParamId(scope, e))] else []) + EmitExpr(scope, e)
  }

  function EmitParams(scope: Scope, params: seq<Expr>): seq<Opcode>
    decreases params, 2
  {
    if params == [] then [] else EmitParam(scope, params[0]) + EmitParams(scope, params[1..])
  }

  function EmitPairs(scope: Scope, pairs: seq<Pair>): seq<Opcode>
    decreases pairs, 2
  {
    if pairs == [] then [] else EmitParam(scope, pairs[0].value) + EmitPairs(scope, pairs[1..])
  }

  /** The keys are assigned last to first, each taking the value on top of the stack. */
  function EmitAssigns(pairs: seq<Pair>): seq<Opcode> {
    if pairs == [] then [] else EmitAssigns(pairs[1..]) + [AssignToHash(pairs[0].key)]
  }

  function EmitHash(scope: Scope, hash: seq<Pair>, omitEmpty: bool): seq<Opcode>
    decreases hash, 3
  {
    if hash == [] then [EmptyHash(omitEmpty)]
    else [PushHash] + EmitPairs(scope, hash) + EmitAssigns(hash) + [PopHash]
  }

  function EmitSetup(scope: Scope, args: Args, program: Option<nat>, inverse: Option<nat>, omitEmpty: bool): seq<Opcode>
    decreases args, 4
  {
    EmitParams(scope, args.params) + [PushProgram(program), PushProgram(inverse)] + EmitHash(scope, args.hash, omitEmpty)
  }

  function EmitHelper(scope: Scope, call: Call, program: Option<nat>, inverse: Option<nat>): seq<Opcode>
    decreases call, 4
  {
    EmitSetup(scope, call.args, program, inverse, false)
    + (if KnownHelper(scope, call.path) then [InvokeKnownHelper(|call.args.params|, call.path.parts[0])]
       else EmitPath(scope, call.path, true, true) + [InvokeHelper(|call.args.params|, call.path.original, SimpleId(call.path))])
  }

  function EmitCall(scope: Scope, call: Call, isSubExpression: bool, program: Option<nat>, inverse: Option<nat>): seq<Opcode>
    decreases call, 5
  {
    match Classify(scope, call, isSubExpression)
    case SimpleKind => EmitPath(scope, call.path, false, true) + [ResolvePossibleLambda]
    case HelperKind => EmitHelper(scope, call, program, inverse)
    case AmbiguousKind =>
      [GetContext(call.path.depth), PushProgram(program), PushProgram(inverse)] + EmitPath(scope, call.path, false, true)
      + [InvokeAmbiguous(call.path.parts[0], program.Some? || inverse.Some?)]
  }

  // ----- statements and programs

  /** The opcodes of a statement, and the environments of the programs nested in it. */
  datatype Emission = Emission(opcodes: seq<Opcode>, children: seq<Environment>)

  function Guid(child: Child, guid: nat): Option<nat> {
    if child.Present? then Some(guid) else None
  }

  function Count(child: Child): nat {
    if child.Present? then 1 else 0
  }

  const CurrentContext := PathExpression(Path("", [], 0, false))

  /** A partial without a parameter is given the current context. */
  function PartialArgs(flags: Flags, args: Args): Args {
    if args.params == [] && !flags.explicitPartialContext then args.(params := [CurrentContext]) else args
  }

  function EmitStatement(scope: Scope, s: Statement, guid: nat): Emission
    decreases s, 0
  {
    match s
    case ContentStatement(value) => Emission(if value == "" then [] else [AppendContent(value)], [])
    case CommentStatement => Emission([], [])
    case MustacheStatement(call, escaped) =>
      Emission(EmitCall(scope, call, false, None, None)
               + [if escaped && !scope.flags.noEscape then AppendEscaped else Append], [])
    case BlockStatement(call, program, inverse) =>
      var p := Guid(program, guid);
      var i := Guid(inverse, guid + Count(program));
      Emission(EmitCall(scope, call, false, p, i) + BlockTail(scope, call, p, i) + [Append],
               CompileChild(scope, program) + CompileChild(scope, inverse))
    case PartialStatement(_, _, _, block) =>
      Emission(EmitPartial(scope, s, Guid(block, guid)), CompileChild(scope, block))
    case DecoratorStatement(call, block) =>
      Emission(EmitSetup(scope, call.args, Guid(block, guid), None, false)
               + [RegisterDecorator(|call.args.params|, call.path.original)],
               CompileChild(scope, block))
  }

  function PartialPrefix(scope: Scope, args: Args): seq<Opcode> {
    if args.params == [] && scope.flags.explicitPartialContext then [PushLiteral(UndefinedLiteral)] else []
  }

  function PartialNameCode(scope: Scope, name: PartialName): seq<Opcode> {
    if name.DynamicName? then EmitCall(scope, name.expr, true, None, None) else []
  }

  function PartialInvocation(s: Statement): Opcode
    requires s.PartialStatement?
  {
    InvokePartial(s.name.DynamicName?, if s.name.StaticName? then s.name.name else "", s.indent)
  }

  function EmitPartial(scope: Scope, s: Statement, block: Option<nat>): seq<Opcode>
    requires s.PartialStatement?
  {
    PartialPrefix(scope, s.args) + PartialNameCode(scope, s.name)
    + EmitSetup(scope, PartialArgs(scope.flags, s.args), block, None, true)
    + [PartialInvocation(s), Append]
  }

  function BlockTail(scope: Scope, call: Call, p: Option<nat>, i: Option<nat>): seq<Opcode> {
    match Classify(scope, call, false)
    case HelperKind => []
    case SimpleKind => [PushProgram(p), PushProgram(i), EmptyHash(false), BlockValue(call.path.original)]
    case AmbiguousKind => [PushProgram(p), PushProgram(i), EmptyHash(false), AmbiguousBlockValue]
  }

  function EmitBody(scope: Scope, body: seq<Statement>, guid: nat): Emission
    decreases body, 1
  {
    if body == [] then Emission([], [])
    else
      var first := EmitStatement(scope, body[0], guid);
      var rest := EmitBody(scope, body[1..], guid + |first.children|);
      Emission(first.opcodes + rest.opcodes, first.children + rest.children)
  }

  predicate HasDecorator(body: seq<Statement>) {
    body != [] && (body[0].DecoratorStatement? || HasDecorator(body[1..]))
  }

  function CompileChild(scope: Scope, child: Child): seq<Environment>
    decreases child, 1
  {
    if child.Absent? then [] else [CompileProgram(scope, child.program)]
  }

  function CompileProgram(scope: Scope, program: Program): Environment
    decreases program, 1
  {
    var inner := scope.(blockParams := [program.blockParams] + scope.blockParams);
    var emission := EmitBody(inner, program.body, 0);
    Environment(emission.opcodes, emission.children, |program.body| == 1, BodyUsesDepths(inner, program.body), |program.blockParams|,
                HasDecorator(program.body))
  }

  // ----- which programs reach outside their own context

  predicate ExprUsesDepths(scope: Scope, e: Expr)
    decreases e, 0
  {
    match e
    case PathExpression(path) => path.depth != 0
    case LiteralExpression(_) => false
    case SubExpression(call) => CallUsesDepths(scope, call, true)
  }

  predicate ParamsUseDepths(scope: Scope, params: seq<Expr>)
    decreases params, 1
  {
    params != [] && (ExprUsesDepths(scope, params[0]) || ParamsUseDepths(scope, params[1..]))
  }

  predicate PairsUseDepths(scope: Scope, pairs: seq<Pair>)
    decreases pairs, 1
  {
    pairs != [] && (ExprUsesDepths(scope, pairs[0].value) || PairsUseDepths(scope, pairs[1..]))
  }

  predicate ArgsUseDepths(scope: Scope, args: Args)
    decreases args, 2
  {
    ParamsUseDepths(scope, args.params) || PairsUseDepths(scope, args.hash)
  }

  predicate CallUsesDepths(scope: Scope, call: Call, isSubExpression: bool)
    decreases call, 2
  {
    match Classify(scope, call, isSubExpression)
    case SimpleKind => call.path.depth != 0
    case AmbiguousKind => call.path.depth != 0
    case HelperKind =>
      || ArgsUseDepths(scope, call.args)
      || (!KnownHelper(scope, call.path) && call.path.depth != 0)
  }

  predicate StatementUsesDepths(scope: Scope, s: Statement)
    decreases s, 0
  {
    match s
    case ContentStatement(_) => false
    case CommentStatement => false
    case MustacheStatement(call, _) => CallUsesDepths(scope, call, false)
    case BlockStatement(call, program, inverse) =>
      ChildUsesDepths(scope, program) || ChildUsesDepths(scope, inverse) || CallUsesDepths(scope, call, false)
    case PartialStatement(_, _, _, block) => ChildUsesDepths(scope, block) || PartialUsesDepths(scope, s)
    case DecoratorStatement(call, block) =>
      ChildUsesDepths(scope, block) || ArgsUseDepths(scope, call.args)
  }

  predicate PartialUsesDepths(scope: Scope, s: Statement)
    requires s.PartialStatement?
  {
    || (s.name.DynamicName? && CallUsesDepths(scope, s.name.expr, true))
    || ArgsUseDepths(scope, PartialArgs(scope.flags, s.args))
  }

  predicate ChildUsesDepths(scope: Scope, child: Child)
    decreases child, 1
  {
    child.Present?
    && BodyUsesDepths(scope.(blockParams := [child.program.blockParams] + scope.blockParams), child.program.body)
  }

  predicate BodyUsesDepths(scope: Scope, body: seq<Statement>)
    decreases body, 1
  {
    body != [] && (StatementUsesDepths(scope, body[0]) || BodyUsesDepths(scope, body[1..]))
  }

  // ----- programs the compiler refuses

  predicate Supported(s: Statement)
    decreases s, 0
  {
    match s
    case BlockStatement(_, program, inverse) => ChildSupported(program) && ChildSupported(inverse)
    case PartialStatement(_, args, _, block) => ChildSupported(block) && |args.params| <= 1
    case DecoratorStatement(_, block) => ChildSupported(block)
    case _ => true
  }

  predicate ChildSupported(child: Child)
    decreases child, 1
  {
    child.Present? ==> BodySupported(child.program.body)
  }

  predicate BodySupported(body: seq<Statement>)
    decreases body, 1
  {
    body == [] || (Supported(body[0]) && BodySupported(body[1..]))
  }

  // ----- programs that the code generator can hold

  /** With both flags the compiler pushes less for a parameter or a hash pair than the code generator takes. */
  predicate BothTracked(flags: Flags) {
    flags.stringParams && flags.trackIds
  }

  predicate ExprFits(scope: Scope, e: Expr)
    decreases e, 0
  {
    e.SubExpression? ==> CallFits(scope, e.call, true)
  }

  predicate ParamsFit(scope: Scope, params: seq<Expr>)
    decreases params, 1
  {
    params == [] || (!BothTracked(scope.flags) && ExprFits(scope, params[0]) && ParamsFit(scope, params[1..]))
  }

  /** Literals that an array takes as its length. */
  predicate ArrayLength(e: Expr) {
    e.LiteralExpression? && match e.literal
                            case NumberLiteral(n) => 0 <= n < 0x1_0000_0000
                            case BooleanLiteral(_) => true
                            case _ => false
  }

  /** A hash is collected in arrays: an entry `hasOwnProperty` hides the method they are printed with, and `length`
      takes nothing but lengths, which the texts that tracking stores are not. */
  predicate KeyFits(scope: Scope, pair: Pair) {
    && pair.key != "hasOwnProperty"
    && (pair.key == "length" ==> !scope.flags.stringParams && !scope.flags.trackIds && ArrayLength(pair.value))
  }

  predicate PairsFit(scope: Scope, pairs: seq<Pair>)
    decreases pairs, 1
  {
    pairs == [] || (!BothTracked(scope.flags) && KeyFits(scope, pairs[0]) && ExprFits(scope, pairs[0].value) && PairsFit(scope, pairs[1..]))
  }

  predicate ArgsFit(scope: Scope, args: Args)
    decreases args, 2
  {
    ParamsFit(scope, args.params) && PairsFit(scope, args.hash)
  }

  /** Only a helper call passes its parameters and its hash on. */
  predicate CallFits(scope: Scope, call: Call, isSubExpression: bool)
    decreases call, 3
  {
    Classify(scope, call, isSubExpression).HelperKind? ==> ArgsFit(scope, call.args)
  }

  /** The calls of the statement itself fit. */
  predicate OwnFits(scope: Scope, s: Statement) {
    match s
    case ContentStatement(_) => true
    case CommentStatement => true
    case MustacheStatement(call, _) => CallFits(scope, call, false)
    case BlockStatement(call, _, _) => CallFits(scope, call, false)
    case PartialStatement(_, _, _, _) => PartialFits(scope, s)
    case DecoratorStatement(call, _) => ArgsFit(scope, call.args)
  }

  predicate Fits(scope: Scope, s: Statement)
    decreases s, 0
  {
    OwnFits(scope, s) && match s
                         case BlockStatement(_, program, inverse) => ChildFits(scope, program) && ChildFits(scope, inverse)
                         case PartialStatement(_, _, _, block) => ChildFits(scope, block)
                         case DecoratorStatement(_, block) => ChildFits(scope, block)
                         case _ => true
  }

  /** Whether `explicitPartialContext` makes `undefined` the context of a partial. */
  predicate NoContext(scope: Scope, args: Args) {
    args.params == [] && scope.flags.explicitPartialContext
  }

  /** The undefined context is pushed without the entries that tracking takes off with it. */
  predicate PartialFits(scope: Scope, s: Statement)
    requires s.PartialStatement?
  {
    && (s.name.DynamicName? ==> CallFits(scope, s.name.expr, true))
    && ArgsFit(scope, PartialArgs(scope.flags, s.args))
    && (NoContext(scope, s.args) ==> !scope.flags.stringParams && !scope.flags.trackIds)
  }

  predicate ChildFits(scope: Scope, child: Child)
    decreases child, 1
  {
    child.Present? ==> BodyFits(scope.(blockParams := [child.program.blockParams] + scope.blockParams), child.program.body)
  }

  predicate BodyFits(scope: Scope, body: seq<Statement>)
    decreases body, 1
  {
    body == [] || (Fits(scope, body[0]) && BodyFits(scope, body[1..]))
  }

  predicate BodyOwnFits(scope: Scope, body: seq<Statement>) {
    body == [] || (OwnFits(scope, body[0]) && BodyOwnFits(scope, body[1..]))
  }

  // ----- the compiler object

  lemma Reassociates<T>(a: seq<T>, b: seq<T>, c: seq<T>, d: seq<T>)
    ensures a + b + c + d == a + (b + c + d)
  {
  }

  /** The options object that a compiler shares with the compilers of nested programs. */
  class CompileOptions {
    const flags: Flags
    var blockParams: seq<seq<string>>

    constructor (flags: Flags)
      ensures this.flags == flags && blockParams == []
    {
      this.flags := flags;
      blockParams := [];
    }

    function View(): Scope
      reads this
    {
      Scope(flags, blockParams)
    }
  }

  class Compiler {
    const options: CompileOptions
    var opcodes: seq<Opcode>
    var children: seq<Environment>
    var useDepths: bool
    var useDecorators: bool

    constructor (options: CompileOptions)
      ensures this.options == options && opcodes == [] && children == [] && !useDepths && !useDecorators
    {
      this.options := options;
      opcodes, children, useDepths, useDecorators := [], [], false, false;
    }

    /** An expression visit only pushes opcodes and may raise the depth flag. */
    twostate predicate Pushed(code: seq<Opcode>, depths: bool)
      reads this, options
    {
      && opcodes == old(opcodes) + code
      && children == old(children)
      && useDepths == (old(useDepths) || depths)
      && options.blockParams == old(options.blockParams)
    }

    method Push(opcode: Opcode)
      modifies `opcodes
      ensures Pushed([opcode], false)
    {
      opcodes := opcodes + [opcode];
    }

    method VisitPath(path: Path, falsy: bool, strict: bool)
      modifies `opcodes, `useDepths
      ensures Pushed(EmitPath(old(options.View()), path, falsy, strict), path.depth != 0)
    {
      if path.depth != 0 {
        useDepths := true;
      }
      Push(GetContext(path.depth));
      var blockParam := None;
      if |path.parts| > 0 && path.depth == 0 && !ScopedId(path) {
        blockParam := BlockParamIndex(options.blockParams, path.parts[0]);
      }
      if blockParam.Some? {
        Push(LookupBlockParam(blockParam.value.0, blockParam.value.1, path.parts));
      } else if path.parts == [] || path.parts[0] == "" {
        Push(PushContext);
      } else if path.data {
        Push(LookupData(path.depth, path.parts, strict));
      } else {
        Push(LookupOnContext(path.parts, falsy, strict, ScopedId(path)));
      }
    }

    method VisitExpr(e: Expr)
      modifies `opcodes, `useDepths
      ensures Pushed(EmitExpr(old(options.View()), e), ExprUsesDepths(old(options.View()), e))
      decreases e, 0
    {
      match e
      case PathExpression(path) => VisitPath(path, false, false);
      case LiteralExpression(literal) => Push(PushLiteral(literal));
      case SubExpression(call) => VisitCall(call, true, None, None);
    }

    method PushParam(e: Expr)
      modifies `opcodes, `useDepths
      ensures Pushed(EmitParam(old(options.View()), e), ExprUsesDepths(old(options.View()), e))
      decreases e, 1
    {
      if options.flags.stringParams {
        if ParamDepth(e) != 0 {
          useDepths := true;
        }
        Push(GetContext(ParamDepth(e)));
        var param := StringParam(e);
        Push(PushStringParam(param.0, param.1));
        if e.SubExpression? {
          VisitExpr(e);
        }
      } else {
        if options.flags.trackIds {
          Push(PushId(ParamId(options.View(), e)));
        }
        VisitExpr(e);
      }
    }

    method PushParams(params: seq<Expr>)
      modifies `opcodes, `useDepths
      ensures Pushed(EmitParams(old(options.View()), params), ParamsUseDepths(old(options.View()), params))
      decreases params, 2
    {
      ghost var scope := options.View();
      for i := 0 to |params|
        invariant opcodes + EmitParams(scope, params[i..]) == old(opcodes) + EmitParams(scope, params)
        invariant children == old(children) && options.blockParams == old(options.blockParams)
        invariant (useDepths || ParamsUseDepths(scope, params[i..])) == (old(useDepths) || ParamsUseDepths(scope, params))
      {
        PushParam(params[i]);
        assert params[i..][1..] == params[i + 1..];
      }
    }

    method VisitHash(hash: seq<Pair>)
      requires hash != []
      modifies `opcodes, `useDepths
      ensures Pushed(EmitHash(old(options.View()), hash, false), PairsUseDepths(old(options.View()), hash))
      decreases hash, 3
    {
      ghost var scope := options.View();
      Push(PushHash);
      PushPairs(hash);
      ghost var code := [PushHash] + EmitPairs(scope, hash);
      assert opcodes == old(opcodes) + code;
      AssignKeys(hash);
      code := code + EmitAssigns(hash);
      assert opcodes == old(opcodes) + code;
      Push(PopHash);
      assert opcodes == old(opcodes) + (code + [PopHash]);
    }

    method PushPairs(hash: seq<Pair>)
      modifies `opcodes, `useDepths
      ensures Pushed(EmitPairs(old(options.View()), hash), PairsUseDepths(old(options.View()), hash))
      decreases hash, 2
    {
      ghost var scope := options.View();
      for i := 0 to |hash|
        invariant opcodes + EmitPairs(scope, hash[i..]) == old(opcodes) + EmitPairs(scope, hash)
        invariant children == old(children) && options.blockParams == old(options.blockParams)
        invariant (useDepths || PairsUseDepths(scope, hash[i..])) == (old(useDepths) || PairsUseDepths(scope, hash))
      {
        PushParam(hash[i].value);
        assert hash[i..][1..] == hash[i + 1..];
      }
    }

    method AssignKeys(hash: seq<Pair>)
      modifies `opcodes, `useDepths
      ensures Pushed(EmitAssigns(hash), false)
    {
      var i: nat := |hash|;
      while i > 0
        invariant i <= |hash|
        invariant opcodes == old(opcodes) + EmitAssigns(hash[i..])
        invariant children == old(children) && options.blockParams == old(options.blockParams) && useDepths == old(useDepths)
      {
        i := i - 1;
        Push(AssignToHash(hash[i].key));
        assert hash[i..][1..] == hash[i + 1..];
      }
      assert hash[0..] == hash;
    }

    method PushPrograms(program: Option<nat>, inverse: Option<nat>)
      modifies `opcodes
      ensures Pushed([PushProgram(program), PushProgram(inverse)], false)
    {
      Push(PushProgram(program));
      Push(PushProgram(inverse));
    }

    method SetupParams(args: Args, program: Option<nat>, inverse: Option<nat>, omitEmpty: bool)
      modifies `opcodes, `useDepths
      ensures Pushed(EmitSetup(old(options.View()), args, program, inverse, omitEmpty), ArgsUseDepths(old(options.View()), args))
      decreases args, 4
    {
      ghost var start, params := opcodes, EmitParams(options.View(), args.params);
      PushParams(args.params);
      PushPrograms(program, inverse);
      ghost var programs := [PushProgram(program), PushProgram(inverse)];
      ghost var hash := EmitHash(options.View(), args.hash, omitEmpty);
      if args.hash != [] {
        VisitHash(args.hash);
      } else {
        Push(EmptyHash(omitEmpty));
      }
      Reassociates(start, params, programs, hash);
    }

    method VisitCall(call: Call, isSubExpression: bool, program: Option<nat>, inverse: Option<nat>)
      modifies `opcodes, `useDepths
      ensures Pushed(EmitCall(old(options.View()), call, isSubExpression, program, inverse),
                     CallUsesDepths(old(options.View()), call, isSubExpression))
      decreases call, 5
    {
      match Classify(options.View(), call, isSubExpression)
      case SimpleKind => SimpleCall(call);
      case HelperKind => HelperCall(call, program, inverse);
      case AmbiguousKind => AmbiguousCall(call, program, inverse);
    }

    method SimpleCall(call: Call)
      modifies `opcodes, `useDepths
      ensures Pushed(EmitPath(old(options.View()), call.path, false, true) + [ResolvePossibleLambda], call.path.depth != 0)
    {
      VisitPath(call.path, false, true);
      Push(ResolvePossibleLambda);
    }

    method HelperCall(call: Call, program: Option<nat>, inverse: Option<nat>)
      modifies `opcodes, `useDepths
      ensures Pushed(EmitHelper(old(options.View()), call, program, inverse),
                     ArgsUseDepths(old(options.View()), call.args)
                     || (!KnownHelper(old(options.View()), call.path) && call.path.depth != 0))
      decreases call, 4
    {
      SetupParams(call.args, program, inverse, false);
      if KnownHelper(options.View(), call.path) {
        Push(InvokeKnownHelper(|call.args.params|, call.path.parts[0]));
      } else {
        VisitPath(call.path, true, true);
        Push(InvokeHelper(|call.args.params|, call.path.original, SimpleId(call.path)));
      }
    }

    method AmbiguousCall(call: Call, program: Option<nat>, inverse: Option<nat>)
      requires |call.path.parts| > 0
      modifies `opcodes, `useDepths
      ensures Pushed([GetContext(call.path.depth), PushProgram(program), PushProgram(inverse)]
                     + EmitPath(old(options.View()), call.path, false, true)
                     + [InvokeAmbiguous(call.path.parts[0], program.Some? || inverse.Some?)], call.path.depth != 0)
    {
      Push(GetContext(call.path.depth));
      Push(PushProgram(program));
      Push(PushProgram(inverse));
      VisitPath(call.path, false, true);
      Push(InvokeAmbiguous(call.path.parts[0], program.Some? || inverse.Some?));
    }

    /** Visits the statements of `program` with its block parameters in scope; false if one is refused. */
    method VisitProgram(program: Program) returns (ok: bool)
      requires opcodes == [] && children == [] && !useDepths && !useDecorators
      modifies this, options
      ensures ok == BodySupported(program.body)
      ensures ok ==> options.blockParams == old(options.blockParams)
      ensures ok ==> Finished(program) == CompileProgram(old(options.View()), program)
      decreases program, 1
    {
      options.blockParams := [program.blockParams] + options.blockParams;
      ok := VisitBody(program.body);
      if !ok {
        return;
      }
      options.blockParams := options.blockParams[1..];
    }

    method VisitBody(body: seq<Statement>) returns (ok: bool)
      modifies this, options
      ensures ok == BodySupported(body)
      ensures ok ==> options.blockParams == old(options.blockParams)
      ensures ok ==> var e := EmitBody(old(options.View()), body, old(|children|));
                     opcodes == old(opcodes) + e.opcodes && children == old(children) + e.children
      ensures ok ==> useDepths == (old(useDepths) || BodyUsesDepths(old(options.View()), body))
      ensures ok ==> useDecorators == (old(useDecorators) || HasDecorator(body))
      decreases body, 0
    {
      hide EmitStatement, StatementUsesDepths, Supported;
      ghost var scope, whole := options.View(), EmitBody(options.View(), body, |children|);
      var i := 0;
      while i < |body|
        invariant 0 <= i <= |body|
        invariant options.View() == scope
        invariant opcodes + EmitBody(scope, body[i..], |children|).opcodes == old(opcodes) + whole.opcodes
        invariant children + EmitBody(scope, body[i..], |children|).children == old(children) + whole.children
        invariant (useDepths || BodyUsesDepths(scope, body[i..])) == (old(useDepths) || BodyUsesDepths(scope, body))
        invariant (useDecorators || HasDecorator(body[i..])) == (old(useDecorators) || HasDecorator(body))
        invariant BodySupported(body[i..]) == BodySupported(body)
        decreases |body| - i
      {
        ghost var done, kids := opcodes, children;
        ghost var e := EmitStatement(scope, body[i], |kids|);
        ghost var rest := EmitBody(scope, body[i + 1..], |kids| + |e.children|);
        Unroll(scope, body, i, |kids|);
        ok := VisitStatement(body[i]);
        if !ok {
          return;
        }
        assert done + (e.opcodes + rest.opcodes) == opcodes + rest.opcodes;
        assert kids + (e.children + rest.children) == children + rest.children;
        i := i + 1;
      }
      ok := true;
    }

    static lemma Unroll(scope: Scope, body: seq<Statement>, i: nat, guid: nat)
      requires i < |body|
      ensures var e := EmitStatement(scope, body[i], guid);
              var rest := EmitBody(scope, body[i + 1..], guid + |e.children|);
              EmitBody(scope, body[i..], guid) == Emission(e.opcodes + rest.opcodes, e.children + rest.children)
      ensures BodyUsesDepths(scope, body[i..]) == (StatementUsesDepths(scope, body[i]) || BodyUsesDepths(scope, body[i + 1..]))
      ensures BodySupported(body[i..]) == (Supported(body[i]) && BodySupported(body[i + 1..]))
      ensures HasDecorator(body[i..]) == (body[i].DecoratorStatement? || HasDecorator(body[i + 1..]))
    {
      assert body[i..][1..] == body[i + 1..];
    }

    function Finished(program: Program): Environment
      reads this
    {
      Environment(opcodes, children, |program.body| == 1, useDepths, |program.blockParams|, useDecorators)
    }

    /** Compiles a nested program with a compiler of its own and keeps its environment. */
    method VisitChild(child: Child) returns (ok: bool, guid: Option<nat>)
      modifies this, options
      ensures ok == ChildSupported(child)
      ensures ok ==> opcodes == old(opcodes) && children == old(children) + CompileChild(old(options.View()), child)
      ensures ok ==> guid == Guid(child, old(|children|)) && options.blockParams == old(options.blockParams)
      ensures ok ==> useDepths == (old(useDepths) || ChildUsesDepths(old(options.View()), child))
      ensures useDecorators == old(useDecorators)
      decreases child, 1
    {
      if child.Absent? {
        return true, None;
      }
      guid := None;
      var compiler := new Compiler(options);
      ok := compiler.VisitProgram(child.program);
      if !ok {
        return;
      }
      guid := Some(|children|);
      children := children + [compiler.Finished(child.program)];
      useDepths := useDepths || compiler.useDepths;
    }

    method VisitStatement(s: Statement) returns (ok: bool)
      modifies this, options
      ensures ok == Supported(s)
      ensures ok ==> options.blockParams == old(options.blockParams)
      ensures ok ==> var e := EmitStatement(old(options.View()), s, old(|children|));
                     opcodes == old(opcodes) + e.opcodes && children == old(children) + e.children
      ensures ok ==> useDepths == (old(useDepths) || StatementUsesDepths(old(options.View()), s))
      ensures ok ==> useDecorators == (old(useDecorators) || s.DecoratorStatement?)
      decreases s, 0, 1
    {
      ok := true;
      match s
      case ContentStatement(value) =>
        if value != "" {
          Push(AppendContent(value));
        }
      case CommentStatement =>
      case MustacheStatement(call, escaped) =>
        VisitCall(call, false, None, None);
        if escaped && !options.flags.noEscape {
          Push(AppendEscaped);
        } else {
          Push(Append);
        }
      case BlockStatement(_, _, _) => ok := VisitBlock(s);
      case PartialStatement(_, _, _, _) => ok := VisitPartial(s);
      case DecoratorStatement(call, block) =>
        var guid;
        ok, guid := VisitChild(block);
        if ok {
          SetupParams(call.args, guid, None, false);
          useDecorators := true;
          Push(RegisterDecorator(|call.args.params|, call.path.original));
        }
    }

    /** Compiles the two programs of a block, the inverse after the main one. */
    method VisitBlock(s: Statement) returns (ok: bool)
      requires s.BlockStatement?
      modifies this, options
      ensures ok == Supported(s)
      ensures ok ==> options.blockParams == old(options.blockParams)
      ensures ok ==> var e := EmitStatement(old(options.View()), s, old(|children|));
                     opcodes == old(opcodes) + e.opcodes && children == old(children) + e.children
      ensures ok ==> useDepths == (old(useDepths) || StatementUsesDepths(old(options.View()), s))
      ensures useDecorators == old(useDecorators)
      decreases s, 0, 0
    {
      var p, i;
      ok, p := VisitChild(s.program);
      if !ok {
        return;
      }
      ok, i := VisitChild(s.inverse);
      if !ok {
        return;
      }
      BlockCall(s.call, p, i);
    }

    method BlockCall(call: Call, p: Option<nat>, i: Option<nat>)
      modifies `opcodes, `useDepths
      ensures Pushed(EmitCall(old(options.View()), call, false, p, i) + BlockTail(old(options.View()), call, p, i) + [Append],
                     CallUsesDepths(old(options.View()), call, false))
    {
      hide EmitCall, CallUsesDepths, Classify;
      VisitCall(call, false, p, i);
      var kind := Classify(options.View(), call, false);
      if kind != HelperKind {
        // the value found is handed to blockHelperMissing
        Push(PushProgram(p));
        Push(PushProgram(i));
        Push(EmptyHash(false));
        Push(if kind == SimpleKind then BlockValue(call.path.original) else AmbiguousBlockValue);
      }
      Push(Append);
    }

    method VisitPartial(s: Statement) returns (ok: bool)
      requires s.PartialStatement?
      modifies this, options
      ensures ok == Supported(s)
      ensures ok ==> options.blockParams == old(options.blockParams)
      ensures ok ==> var e := EmitStatement(old(options.View()), s, old(|children|));
                     opcodes == old(opcodes) + e.opcodes && children == old(children) + e.children
      ensures ok ==> useDepths == (old(useDepths) || StatementUsesDepths(old(options.View()), s))
      ensures useDecorators == old(useDecorators)
      decreases s, 0, 0
    {
      var guid;
      ok, guid := VisitChild(s.block);
      if !ok || |s.args.params| > 1 {
        return false;
      }
      PartialCall(s, guid);
    }

    method PartialCall(s: Statement, guid: Option<nat>)
      requires s.PartialStatement?
      modifies `opcodes, `useDepths
      ensures Pushed(EmitPartial(old(options.View()), s, guid), PartialUsesDepths(old(options.View()), s))
    {
      hide EmitCall, EmitSetup, CallUsesDepths, ArgsUseDepths;
      ghost var scope, start := options.View(), opcodes;
      var args := PartialContext(s.args);
      PartialNameCall(s.name);
      SetupParams(args, guid, None, true);
      Push(PartialInvocation(s));
      Push(Append);
      Reassociates(start, PartialPrefix(scope, s.args), PartialNameCode(scope, s.name), EmitSetup(scope, args, guid, None, true));
      Reassociates(start, PartialPrefix(scope, s.args) + PartialNameCode(scope, s.name) + EmitSetup(scope, args, guid, None, true),
              [PartialInvocation(s)], [Append]);
    }

    method PartialContext(args: Args) returns (completed: Args)
      modifies `opcodes, `useDepths
      ensures completed == PartialArgs(options.flags, args)
      ensures Pushed(PartialPrefix(old(options.View()), args), false)
    {
      completed := args;
      if args.params == [] {
        if options.flags.explicitPartialContext {
          Push(PushLiteral(UndefinedLiteral));
        } else {
          completed := args.(params := [CurrentContext]);
        }
      }
    }

    method PartialNameCall(name: PartialName)
      modifies `opcodes, `useDepths
      ensures Pushed(PartialNameCode(old(options.View()), name), name.DynamicName? && CallUsesDepths(old(options.View()), name.expr, true))
    {
      if name.DynamicName? {
        VisitCall(name.expr, true, None, None);
      }
    }
  }
}
