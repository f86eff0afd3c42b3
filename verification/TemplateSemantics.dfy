/** What a template means, read off its tree: no opcodes, stacks, temporaries or buffer. */
module TemplateSemantics {
  import opened Wrappers
  import opened HandlebarsAst
  import opened HandlebarsCompiler
  import opened JsValues

  /** What `trackIds` and `stringParams` tell a helper about its parameters and its hash. */
  datatype Tracking = Tracking(hashIds: map<string, Value>, hashTypes: map<string, Value>, hashContexts: map<string, Value>,
                               ids: seq<Value>, types: seq<Value>, contexts: seq<Value>)

  const Untracked := Tracking(map[], map[], map[], [], [], [])

  /** The options a helper sees: what it is called by, its hash, whether it has programs, the data frame, and what is
      tracked. A partial without a hash is given none. */
  datatype CallInfo = CallInfo(name: string, hash: Option<map<string, Value>>, hasPrograms: bool, data: Value, tracking: Tracking)

  /** The next move of a running helper, given what its programs have rendered so far. */
  datatype Action = Finish(value: Value) | Render(inverse: bool, context: Value, data: Value)

  /** Everything outside the template: property lookup, the registered helpers and partials and how they act, conversions
      of objects. `invokePartial` is the function of the runtime, which acts like a helper on the partial and its context. */
  datatype World = World(
    get: (Value, string) -> Value,
    isFunction: Value -> bool,
    lambda: (Value, Value) -> Value,
    helper: string -> Value,
    partial: string -> Value,
    invokePartial: Value,
    action: (Value, Value, seq<Value>, CallInfo, seq<Value>) -> Action,
    limit: nat,
    parentData: (Value, nat) -> Value,
    emptyObject: Value,
    convert: nat -> Primitive,
    escape: Value -> string)

  /** Where a program runs: its context, the enclosing contexts (its own first), and its data frame. */
  datatype Env = Env(context: Value, depths: seq<Value>, data: Value)

  /** Objects take part in sums as what they convert to. */
  function Converted(w: World, v: Value): Primitive {
    if v.Ref? then w.convert(v.id) else v
  }

  function TextOf(w: World, v: Value): string {
    PrimitiveText(Converted(w, v))
  }

  function LiteralValue(literal: Literal): Value {
    match literal
    case TextLiteral(s) => Str(s)
    case NumberLiteral(n) => Number(n)
    case BooleanLiteral(b) => Boolean(b)
    case UndefinedLiteral => Undefined
    case NullLiteral => Null
  }

  // ----- paths

  /** Property lookups that stop at null and undefined. */
  function SafeFold(w: World, v: Value, parts: seq<string>): Value
    decreases |parts|
  {
    if parts == [] then v else SafeFold(w, if IsNull(v) then v else w.get(v, parts[0]), parts[1..])
  }

  /** Property lookups that stop at any falsy value. */
  function GuardedFold(w: World, v: Value, parts: seq<string>): Value
    decreases |parts|
  {
    if parts == [] then v else GuardedFold(w, if Truthy(v) then w.get(v, parts[0]) else v, parts[1..])
  }

  function ContextAt(env: Env, depth: nat): Value {
    if depth == 0 then env.context else if depth < |env.depths| then env.depths[depth] else Undefined
  }

  function DataAt(w: World, env: Env, depth: nat): Value {
    if depth == 0 then env.data else w.parentData(env.data, depth)
  }

  function PathValue(w: World, env: Env, path: Path, falsy: bool): Value {
    if path.parts == [] || path.parts[0] == "" then ContextAt(env, path.depth)
    else if path.data then GuardedFold(w, DataAt(w, env, path.depth), path.parts)
    else if falsy then GuardedFold(w, ContextAt(env, path.depth), path.parts)
    else SafeFold(w, ContextAt(env, path.depth), path.parts)
  }

  // ----- expressions and calls

  function FirstTruthy(vs: seq<Value>): Value
    requires vs != []
  {
    if Truthy(vs[0]) || |vs| == 1 then vs[0] else FirstTruthy(vs[1..])
  }

  function SelfOf(w: World, env: Env): Value {
    if IsNull(env.context) then w.emptyObject else env.context
  }

  /** A call with everything but the helper's own work done. */
  datatype Prepared = Ready(value: Value)
                    | Pending(callee: Value, args: seq<Value>, name: string, hash: map<string, Value>, tracking: Tracking)

  function ExprValue(w: World, env: Env, scope: Scope, e: Expr): Value
    decreases e, 0
  {
    match e
    case PathExpression(path) => PathValue(w, env, path, false)
    case LiteralExpression(literal) => LiteralValue(literal)
    case SubExpression(call) => PlainValue(w, env, Prepare(w, env, scope, call, true))
  }

  /** The value passed on for a parameter: under `stringParams` its text, unless it is a call or a literal. */
  function ParamValue(w: World, env: Env, scope: Scope, e: Expr): Value
    decreases e, 1
  {
    var text := StringParam(e).0;
    if scope.flags.stringParams && text.Some? then LiteralValue(text.value) else ExprValue(w, env, scope, e)
  }

  function ParamValues(w: World, env: Env, scope: Scope, params: seq<Expr>): seq<Value>
    decreases params, 1
  {
    if params == [] then [] else [ParamValue(w, env, scope, params[0])] + ParamValues(w, env, scope, params[1..])
  }

  /** The hash a helper gets. Of two pairs with one key the first decides; a literal `undefined` drops the key, unless
      `stringParams` makes it an empty text. */
  function HashValue(w: World, env: Env, scope: Scope, hash: seq<Pair>): map<string, Value>
    decreases hash, 1
  {
    if hash == [] then map[]
    else
      var rest := HashValue(w, env, scope, hash[1..]);
      if hash[0].value == LiteralExpression(UndefinedLiteral) && !scope.flags.stringParams then rest - {hash[0].key}
      else rest[hash[0].key := ParamValue(w, env, scope, hash[0].value)]
  }

  // ----- what is tracked

  datatype Trait = TheId | TheType | TheContext

  predicate IsTracked(flags: Flags, what: Trait) {
    if what.TheId? then flags.trackIds else flags.stringParams
  }

  function TraitValue(env: Env, scope: Scope, what: Trait, e: Expr): Value {
    match what
    case TheType => Str(StringParam(e).1)
    case TheContext => ContextAt(env, ParamDepth(e))
    case TheId => match ParamId(scope, e)
                  case PathId(text) => Str(text)
                  case SubExpressionId => Boolean(true)
                  case _ => Null
  }

  function ParamTraits(env: Env, scope: Scope, what: Trait, params: seq<Expr>): seq<Value> {
    if params == [] || !IsTracked(scope.flags, what) then []
    else [TraitValue(env, scope, what, params[0])] + ParamTraits(env, scope, what, params[1..])
  }

  function HashTraits(env: Env, scope: Scope, what: Trait, hash: seq<Pair>): map<string, Value> {
    if hash == [] || !IsTracked(scope.flags, what) then map[]
    else HashTraits(env, scope, what, hash[1..])[hash[0].key := TraitValue(env, scope, what, hash[0].value)]
  }

  function TrackingOf(env: Env, scope: Scope, args: Args): Tracking {
    Tracking(HashTraits(env, scope, TheId, args.hash), HashTraits(env, scope, TheType, args.hash), HashTraits(env, scope, TheContext, args.hash),
             ParamTraits(env, scope, TheId, args.params), ParamTraits(env, scope, TheType, args.params),
             ParamTraits(env, scope, TheContext, args.params))
  }

  /** The function that a definite helper call invokes. */
  function CalleeValue(w: World, env: Env, scope: Scope, path: Path): Value {
    if KnownHelper(scope, path) then w.helper(path.parts[0])
    else FirstTruthy((if SimpleId(path) then [w.helper(path.original)] else [])
                     + [PathValue(w, env, path, true), w.helper("helperMissing")])
  }

  /** A name that may be a helper or a property: the helper wins, and null falls back on `helperMissing`. */
  function AmbiguousCallee(w: World, env: Env, path: Path): Value
    requires |path.parts| > 0
  {
    var v := FirstTruthy([w.helper(path.parts[0]), PathValue(w, env, path, false)]);
    if IsNull(v) then w.helper("helperMissing") else v
  }

  function Prepare(w: World, env: Env, scope: Scope, call: Call, isSubExpression: bool): Prepared
    decreases call, 2
  {
    match Classify(scope, call, isSubExpression)
    case SimpleKind =>
      var v := PathValue(w, env, call.path, false);
      Ready(if w.isFunction(v) then w.lambda(v, env.context) else v)
    case HelperKind =>
      Pending(CalleeValue(w, env, scope, call.path), ParamValues(w, env, scope, call.args.params),
              if KnownHelper(scope, call.path) then call.path.parts[0] else call.path.original,
              HashValue(w, env, scope, call.args.hash), TrackingOf(env, scope, call.args))
    case AmbiguousKind =>
      var v := AmbiguousCallee(w, env, call.path);
      if w.isFunction(v) then Pending(v, [], call.path.parts[0], map[], Untracked) else Ready(v)
  }

  /** A call outside a block has no programs: what it renders is empty. */
  function PlainValue(w: World, env: Env, p: Prepared): Value {
    match p
    case Ready(v) => v
    case Pending(callee, args, name, hash, tracking) =>
      PlainRun(w, callee, SelfOf(w, env), args, CallInfo(name, Some(hash), false, env.data, tracking), [])
  }

  /** A helper that has rendered `limit` programs without finishing yields undefined. */
  function PlainRun(w: World, callee: Value, self: Value, args: seq<Value>, info: CallInfo, outputs: seq<Value>): Value
    decreases w.limit - |outputs|
  {
    if |outputs| >= w.limit then Undefined
    else match w.action(callee, self, args, info, outputs)
      case Finish(v) => v
      case Render(_, _, _) => PlainRun(w, callee, self, args, info, outputs + [Str("")])
  }

  // ----- statements and programs

  /** What is written, and whether raw output consisted of strings and nulls throughout, and no partial that was called lost
      its name to an explicit context. */
  datatype Rendered = Rendered(text: string, clean: bool)

  datatype Walked = Walked(value: Value, clean: bool)

  /** The context of a nested program goes in front of the enclosing ones, unless it is the same. */
  function ChildEnv(env: Env, context: Value, data: Value): Env {
    Env(context, if env.depths != [] && env.depths[0] == context then env.depths else [context] + env.depths,
        if Truthy(data) then data else env.data)
  }

  /** The programs that a statement hands to what it calls. */
  function MainOf(s: Statement): Child {
    match s
    case BlockStatement(_, program, _) => program
    case PartialStatement(_, _, _, block) => block
    case _ => Absent
  }

  function InverseOf(s: Statement): Child {
    if s.BlockStatement? then s.inverse else Absent
  }

  function ProgramRun(w: World, env: Env, scope: Scope, s: Statement, callee: Value, self: Value, args: seq<Value>,
                      info: CallInfo, outputs: seq<Value>): Walked
    decreases s, 1, w.limit - |outputs|
  {
    if |outputs| >= w.limit then Walked(Undefined, true)
    else match w.action(callee, self, args, info, outputs)
      case Finish(v) => Walked(v, true)
      case Render(inverse, context, data) =>
        var child := if inverse then InverseOf(s) else MainOf(s);
        var r := if child.Absent? then Rendered("", true) else ChildText(w, ChildEnv(env, context, data), scope, child.program);
        var rest := ProgramRun(w, env, scope, s, callee, self, args, info, outputs + [Str(r.text)]);
        Walked(rest.value, r.clean && rest.clean)
  }

  function ChildText(w: World, env: Env, scope: Scope, program: Program): Rendered
    decreases program, 0
  {
    BodyText(w, env, scope.(blockParams := [program.blockParams] + scope.blockParams), program.body)
  }

  predicate HasPrograms(s: Statement) {
    MainOf(s).Present? || InverseOf(s).Present?
  }

  /** The value a block statement appends. */
  function BlockResult(w: World, env: Env, scope: Scope, s: Statement): Walked
    requires s.BlockStatement?
    decreases s, 2
  {
    var info := CallInfo("", Some(map[]), HasPrograms(s), env.data, Untracked);
    var first := match Prepare(w, env, scope, s.call, false)
                 case Ready(v) => Walked(v, true)
                 case Pending(callee, args, name, hash, tracking) =>
                   ProgramRun(w, env, scope, s, callee, SelfOf(w, env), args,
                              info.(name := name, hash := Some(hash), tracking := tracking), []);
    match Classify(scope, s.call, false)
    case HelperKind => first
    case SimpleKind =>
      ProgramRun(w, env, scope, s, w.helper("blockHelperMissing"), env.context, [first.value], info.(name := s.call.path.original), [])
    case AmbiguousKind =>
      // a name that is no helper is treated as a section over its value
      if Truthy(w.helper(s.call.path.parts[0])) then first
      else
        var second := ProgramRun(w, env, scope, s, w.helper("blockHelperMissing"), env.context, [first.value],
                                 info.(name := s.call.path.parts[0]), []);
        Walked(second.value, first.clean && second.clean)
  }

  /** A partial is looked up by its name or given by a call, and run on its context. */
  function PartialValue(w: World, env: Env, scope: Scope, name: PartialName): Value
    decreases name
  {
    match name
    case StaticName(text) => w.partial(text)
    case DynamicName(call) => PlainValue(w, env, Prepare(w, env, scope, call, true))
  }

  function NameOf(name: PartialName): string {
    if name.StaticName? then name.name else ""
  }

  function IndentValue(indent: string): Value {
    if indent == "" then Undefined else Str(indent)
  }

  function PartialContextValue(w: World, env: Env, scope: Scope, args: Args): Value {
    if NoContext(scope, args) then Undefined else ParamValue(w, env, scope, PartialArgs(scope.flags, args).params[0])
  }

  /** What the partial is told. */
  function PartialInfo(w: World, env: Env, scope: Scope, s: Statement): CallInfo
    requires s.PartialStatement?
  {
    CallInfo(NameOf(s.name), if s.args.hash == [] then None else Some(HashValue(w, env, scope, s.args.hash)), HasPrograms(s), env.data,
             TrackingOf(env, scope, PartialArgs(scope.flags, s.args)))
  }

  /** The value a partial appends. */
  function PartialResult(w: World, env: Env, scope: Scope, s: Statement): Walked
    requires s.PartialStatement?
    decreases s, 2
  {
    var args := [PartialValue(w, env, scope, s.name), PartialContextValue(w, env, scope, s.args), IndentValue(s.indent)];
    var r := ProgramRun(w, env, scope, s, w.invokePartial, Undefined, args, PartialInfo(w, env, scope, s), []);
    Walked(r.value, r.clean && !(s.name.DynamicName? && NoContext(scope, s.args)))
  }

  function RawText(w: World, v: Value): Rendered {
    Rendered(if IsNull(v) then "" else TextOf(w, v), IsNull(v) || v.Str?)
  }

  /** The arrays that a hash is collected in keep every key but these two. */
  predicate KeyKept(key: string) {
    key != "length" && key != "__proto__"
  }

  predicate BasicExpr(e: Expr)
    decreases e, 0
  {
    e.SubExpression? ==> BasicArgs(e.call.args)
  }

  predicate BasicParams(params: seq<Expr>)
    decreases params, 1
  {
    params == [] || (BasicExpr(params[0]) && BasicParams(params[1..]))
  }

  predicate BasicPairs(pairs: seq<Pair>)
    decreases pairs, 1
  {
    pairs == [] || (KeyKept(pairs[0].key) && BasicExpr(pairs[0].value) && BasicPairs(pairs[1..]))
  }

  predicate BasicArgs(args: Args)
    decreases args, 2
  {
    BasicParams(args.params) && BasicPairs(args.hash)
  }

  /** Whether a statement is content, a comment, a mustache, a block or a partial, and keeps its hashes; a parsed block has
      a program. */
  predicate Basic(s: Statement)
    decreases s, 0
  {
    match s
    case MustacheStatement(call, _) => BasicArgs(call.args)
    case BlockStatement(call, program, inverse) =>
      BasicArgs(call.args) && (program.Present? || inverse.Present?) && BasicChild(program) && BasicChild(inverse)
    case PartialStatement(name, args, _, block) =>
      BasicArgs(args) && |args.params| <= 1 && (name.DynamicName? ==> BasicArgs(name.expr.args)) && BasicChild(block)
    case DecoratorStatement(_, _) => false
    case _ => true
  }

  /** Nested programs declare no block parameters. */
  predicate BasicChild(child: Child)
    decreases child, 1
  {
    child.Present? ==> child.program.blockParams == [] && BasicBody(child.program.body)
  }

  predicate BasicBody(body: seq<Statement>)
    decreases body, 1
  {
    body == [] || (Basic(body[0]) && BasicBody(body[1..]))
  }

  function StatementText(w: World, env: Env, scope: Scope, s: Statement): Rendered
    decreases s, 3
  {
    match s
    case ContentStatement(value) => Rendered(value, true)
    case MustacheStatement(call, escaped) =>
      var v := PlainValue(w, env, Prepare(w, env, scope, call, false));
      if escaped && !scope.flags.noEscape then Rendered(w.escape(v), true) else RawText(w, v)
    case BlockStatement(_, _, _) =>
      var b := BlockResult(w, env, scope, s);
      var r := RawText(w, b.value);
      Rendered(r.text, b.clean && r.clean)
    case PartialStatement(_, _, _, _) =>
      var p := PartialResult(w, env, scope, s);
      var r := RawText(w, p.value);
      Rendered(r.text, p.clean && r.clean)
    case _ => Rendered("", true)
  }

  function BodyText(w: World, env: Env, scope: Scope, body: seq<Statement>): Rendered
    decreases body, 0
  {
    if body == [] then Rendered("", true)
    else
      var first := StatementText(w, env, scope, body[0]);
      var rest := BodyText(w, env, scope, body[1..]);
      Rendered(first.text + rest.text, first.clean && rest.clean)
  }
}
