/** The second compiler pass as a machine over two stacks: what every opcode does to
    the state of `JavaScriptCompiler`. `None` is an exception. */
module CodeMachine {
  import opened Wrappers
  import opened HandlebarsAst
  import opened HandlebarsCompiler
  import opened JsCode
  import JsValues

  /** A stack entry: literals are repeated where they are used, code is evaluated once. */
  datatype Entry = Lit(expr: JsExpr) | Code(expr: JsExpr)

  datatype HashRegister = HashRegister(values: seq<Field>, types: seq<Field>, contexts: seq<Field>, ids: seq<Field>)

  /** What stays fixed while one environment is compiled. */
  datatype Config = Config(flags: Flags, isSimple: bool, useDepths: bool)

  datatype Machine = Machine(
    inlineStack: seq<Entry>, compileStack: seq<Entry>, stackSlot: nat, stackVars: nat,
    hash: Option<HashRegister>, hashes: seq<HashRegister>,
    lastContext: nat, lastHelper: JsExpr, pending: string, source: seq<Line>, decorators: seq<JsExpr>)

  const Start := Machine([], [], 0, 0, None, [], 0, Constant(UndefinedLiteral), "", [], [])

  // ----- stacks

  function Push(m: Machine, entry: Entry): Machine {
    m.(inlineStack := m.inlineStack + [entry])
  }

  function PushCode(m: Machine, expr: JsExpr): Machine {
    Push(m, Code(expr))
  }

  function PushLit(m: Machine, expr: JsExpr): Machine {
    Push(m, Lit(expr))
  }

  function Last<T>(s: seq<T>): T
    requires s != []
  {
    s[|s| - 1]
  }

  function Init<T>(s: seq<T>): seq<T>
    requires s != []
  {
    s[..|s| - 1]
  }

  /** Inline entries go first; only a popped non-literal of the compile stack frees a slot. */
  function PopEntry(m: Machine): Option<(Entry, Machine)> {
    if m.inlineStack != [] then Some((Last(m.inlineStack), m.(inlineStack := Init(m.inlineStack))))
    else if m.compileStack == [] then None
    else if Last(m.compileStack).Lit? then Some((Last(m.compileStack), m.(compileStack := Init(m.compileStack))))
    else if m.stackSlot == 0 then None
    else Some((Last(m.compileStack), m.(compileStack := Init(m.compileStack), stackSlot := m.stackSlot - 1)))
  }

  function Pop(m: Machine): Option<(JsExpr, Machine)> {
    var (entry, m') :- PopEntry(m);
    Some((entry.expr, m'))
  }

  function PopIf(m: Machine, flag: bool): Option<(seq<JsExpr>, Machine)> {
    if !flag then Some(([], m))
    else
      var (e, m') :- Pop(m);
      Some(([e], m'))
  }

  /** A value, with what tracking pushed under it. */
  datatype Tracked = Tracked(value: JsExpr, ids: seq<JsExpr>, types: seq<JsExpr>, contexts: seq<JsExpr>, rest: Machine)

  function PopTracked(config: Config, m: Machine): Option<Tracked> {
    var (value, m1) :- Pop(m);
    var (ids, m2) :- PopIf(m1, config.flags.trackIds);
    var (types, m3) :- PopIf(m2, config.flags.stringParams);
    var (contexts, m4) :- PopIf(m3, config.flags.stringParams);
    Some(Tracked(value, ids, types, contexts, m4))
  }

  function TopStack(m: Machine): Option<JsExpr> {
    if m.inlineStack != [] then Some(Last(m.inlineStack).expr)
    else if m.compileStack != [] then Some(Last(m.compileStack).expr)
    else None
  }

  function Max(a: nat, b: nat): nat {
    if a < b then b else a
  }

  /** The first free temporary becomes the name of one more live value. */
  function IncrStack(m: Machine): Machine {
    m.(stackSlot := m.stackSlot + 1, stackVars := Max(m.stackVars, m.stackSlot + 1))
  }

  datatype Wrap = NullSafe(name: string) | Guarded(name: string) | OrEmpty

  /** What the callbacks of `replaceStack` build; `test` evaluates the value and `current` repeats it. */
  function Wrapped(wrap: Wrap, test: JsExpr, current: JsExpr): JsExpr {
    match wrap
    case NullSafe(name) => IfNotNull(test, Get(current, name), current)
    case Guarded(name) => And(test, Get(current, name))
    case OrEmpty => IfNotNull(test, current, Constant(TextLiteral("")))
  }

  function WrapEntry(wrap: Wrap, top: Entry, slot: nat): JsExpr {
    match top
    case Lit(e) => Wrapped(wrap, e, e)
    case Code(e) => Wrapped(wrap, SetTemp(slot, e), Temp(slot))
  }

  function ReplaceStack(m: Machine, wrap: Wrap): Option<Machine> {
    if m.inlineStack == [] then None
    else
      var top := Last(m.inlineStack);
      var vars := if top.Lit? then m.stackVars else Max(m.stackVars, m.stackSlot + 1);
      Some(PushCode(m.(inlineStack := Init(m.inlineStack), stackVars := vars), WrapEntry(wrap, top, m.stackSlot + 1)))
  }

  function ResolvePath(m: Machine, parts: seq<string>, falsy: bool): Option<Machine>
    decreases |parts|
  {
    if parts == [] then Some(m)
    else
      var m' :- ReplaceStack(m, if falsy then Guarded(parts[0]) else NullSafe(parts[0]));
      ResolvePath(m', parts[1..], falsy)
  }

  // ----- source lines

  function Flushed(config: Config, m: Machine): Machine {
    if m.pending == "" then m
    else m.(source := m.source + [AppendLine(config, Constant(TextLiteral(m.pending)))], pending := "")
  }

  function AppendLine(config: Config, value: JsExpr): Line {
    if config.isSimple then Return(value) else Appended(value)
  }

  function PushSource(config: Config, m: Machine, line: Line): Machine {
    var m' := Flushed(config, m);
    m'.(source := m'.source + [line])
  }

  /** Every inline entry is given a temporary of its own, in order. */
  function FlushEntries(config: Config, m: Machine, entries: seq<Entry>): Machine
    decreases |entries|
  {
    if entries == [] then m
    else if entries[0].Lit? then FlushEntries(config, m.(compileStack := m.compileStack + [entries[0]]), entries[1..])
    else
      var m1 := IncrStack(m);
      var m2 := PushSource(config, m1, Assign(m1.stackSlot, entries[0].expr));
      FlushEntries(config, m2.(compileStack := m2.compileStack + [Code(Temp(m1.stackSlot))]), entries[1..])
  }

  function FlushInline(config: Config, m: Machine): Machine {
    FlushEntries(config, m.(inlineStack := []), m.inlineStack)
  }

  // ----- the hash register

  /** The array index that a key denotes, if it does. */
  function ArrayIndex(key: string): Option<nat> {
    if key == "0" then Some(0)
    else if key == "" || key[0] == '0' || !JsValues.AllDigits(key) then None
    else Some(JsValues.Decimal(key))
  }

  function Truncate(fields: seq<Field>, length: nat): seq<Field> {
    if fields == [] then []
    else
      var index := ArrayIndex(fields[0].key);
      (if index.Some? && index.value >= length then [] else [fields[0]]) + Truncate(fields[1..], length)
  }

  function SetField(fields: seq<Field>, key: string, value: JsExpr): seq<Field> {
    if fields == [] then [Field(key, value)]
    else if fields[0].key == key then [Field(key, value)] + fields[1..]
    else [fields[0]] + SetField(fields[1..], key, value)
  }

  function LengthOf(value: JsExpr): Option<nat> {
    match value
    case Constant(NumberLiteral(n)) => if 0 <= n < 0x1_0000_0000 then Some(n) else None
    case Constant(BooleanLiteral(b)) => Some(if b then 1 else 0)
    case _ => None
  }

  /** The registers are arrays: the key `length` resizes them and `__proto__` changes what they inherit from, and
      neither becomes an entry. */
  function AssignedField(fields: seq<Field>, key: string, value: JsExpr): seq<Field> {
    if key == "length" then (if LengthOf(value).Some? then Truncate(fields, LengthOf(value).value) else fields)
    else if key == "__proto__" then fields
    else SetField(fields, key, value)
  }

  function AssignField(fields: seq<Field>, key: string, value: JsExpr): Option<seq<Field>> {
    if key == "length" && LengthOf(value).None? then None else Some(AssignedField(fields, key, value))
  }

  /** What tracking stores are texts, which are no lengths. */
  function AssignTracked(fields: seq<Field>, key: string, value: seq<JsExpr>): Option<seq<Field>> {
    if value == [] then Some(fields)
    else if key == "length" then None
    else Some(AssignedField(fields, key, value[0]))
  }

  /** `objectLiteral` asks the register itself for its `hasOwnProperty`, which an entry of that name hides. */
  predicate Printable(fields: seq<Field>) {
    forall i :: 0 <= i < |fields| ==> fields[i].key != "hasOwnProperty"
  }

  predicate RegisterPrintable(config: Config, r: HashRegister) {
    && (config.flags.trackIds ==> Printable(r.ids))
    && (config.flags.stringParams ==> Printable(r.contexts) && Printable(r.types))
    && Printable(r.values)
  }

  function AssignToHashOp(config: Config, m: Machine, key: string): Option<Machine> {
    var t :- PopTracked(config, m);
    var register :- t.rest.hash;
    var contexts :- AssignTracked(register.contexts, key, t.contexts);
    var types :- AssignTracked(register.types, key, t.types);
    var ids :- AssignTracked(register.ids, key, t.ids);
    var values :- AssignField(register.values, key, t.value);
    Some(t.rest.(hash := Some(HashRegister(values, types, contexts, ids))))
  }

  function PopHashOp(config: Config, m: Machine): Option<Machine> {
    var register :- m.hash;
    if !RegisterPrintable(config, register) then None
    else
      var m1 := if m.hashes == [] then m.(hash := None) else m.(hash := Some(Last(m.hashes)), hashes := Init(m.hashes));
      var m2 := if config.flags.trackIds then PushCode(m1, ObjectOf(register.ids)) else m1;
      var m3 := if config.flags.stringParams
                then PushCode(PushCode(m2, ObjectOf(register.contexts)), ObjectOf(register.types)) else m2;
      Some(PushCode(m3, ObjectOf(register.values)))
  }

  function EmptyHashOp(config: Config, m: Machine, omitEmpty: bool): Machine {
    var m1 := if config.flags.trackIds then PushCode(m, EmptyObject) else m;
    var m2 := if config.flags.stringParams then PushCode(PushCode(m1, EmptyObject), EmptyObject) else m1;
    PushLit(m2, if omitEmpty then Constant(UndefinedLiteral) else EmptyObject)
  }

  // ----- helper calls

  /** The parameters popped off, first one first. */
  datatype Popped = Popped(values: seq<JsExpr>, ids: seq<JsExpr>, types: seq<JsExpr>, contexts: seq<JsExpr>, rest: Machine)

  function PopParams(config: Config, m: Machine, n: nat): (r: Option<Popped>)
    ensures r.Some? ==> |r.value.values| == n
    decreases n
  {
    if n == 0 then Some(Popped([], [], [], [], m))
    else
      var t :- PopTracked(config, m);
      var before :- PopParams(config, t.rest, n - 1);
      Some(Popped(before.values + [t.value], before.ids + t.ids, before.types + t.types, before.contexts + t.contexts, before.rest))
  }

  /** `setupParams`: the parameters and the options object of a call. */
  datatype Setup = Setup(params: seq<JsExpr>, options: JsExpr, rest: Machine)

  function SetupParams(config: Config, m: Machine, name: string, arity: nat): (r: Option<Setup>)
    ensures r.Some? ==> |r.value.params| == arity
  {
    var hash :- PopTracked(config, m);
    var (inverse, m1) :- Pop(hash.rest);
    var (program, m2) :- Pop(m1);
    var popped :- PopParams(config, m2, arity);
    Some(Setup(popped.values,
               OptionsOf(name, hash.value, program, inverse,
                         Extras(hash.ids, hash.types, hash.contexts, popped.ids, popped.types, popped.contexts)),
               popped.rest))
  }

  function HelperChain(name: string, simple: bool, nonHelper: JsExpr): JsExpr {
    Or((if simple then [Helper(name)] else []) + [nonHelper, Helper("helperMissing")])
  }

  function InvokeHelperOp(config: Config, m: Machine, arity: nat, name: string, simple: bool): Option<Machine> {
    var (nonHelper, m1) :- Pop(m);
    var setup :- SetupParams(config, m1, name, arity);
    Some(PushCode(setup.rest, Invoke(HelperChain(name, simple, nonHelper), setup.params, setup.options)))
  }

  function InvokeKnownHelperOp(config: Config, m: Machine, arity: nat, name: string): Option<Machine> {
    var setup :- SetupParams(config, m, name, arity);
    Some(PushCode(setup.rest, Invoke(Helper(name), setup.params, setup.options)))
  }

  function AmbiguousCode(name: string, nonHelper: JsExpr, options: JsExpr, isBlock: bool): JsExpr {
    var lookup := SetHelper(IfNotNull(SetHelper(Or([Helper(name), nonHelper])), HelperVar, Helper("helperMissing")));
    var call := IfFunction(Invoke(HelperVar, [], if isBlock then OptionsVar else options), HelperVar);
    Comma(lookup, if isBlock then Comma(SetOptions(options), call) else call)
  }

  function InvokeAmbiguousOp(config: Config, m: Machine, name: string, isBlock: bool): Option<Machine> {
    var (nonHelper, m1) :- Pop(m);
    var setup :- SetupParams(config, EmptyHashOp(config, m1, false), name, 0);
    Some(PushCode(setup.rest.(lastHelper := Helper(name)), AmbiguousCode(name, nonHelper, setup.options, isBlock)))
  }

  function InvokePartialOp(config: Config, m: Machine, dynamic: bool, name: string, indent: string): Option<Machine> {
    var setup :- SetupParams(config, m, name, 1);
    if dynamic then
      var (named, m') :- Pop(setup.rest);
      Some(PushCode(m', PartialOf(named, setup.params[0], setup.options, indent)))
    else
      Some(PushCode(setup.rest, PartialOf(NamedPartial(name), setup.params[0], setup.options, indent)))
  }

  function BlockValueOp(config: Config, m: Machine, name: string): Option<Machine> {
    var setup :- SetupParams(config, m, name, 0);
    var (value, m') :- Pop(setup.rest);
    Some(PushCode(m', InvokeMissing(value, setup.options)))
  }

  function AmbiguousBlockValueOp(config: Config, m: Machine): Option<Machine> {
    var setup :- SetupParams(config, m, "", 0);
    var m1 := FlushInline(config, setup.rest);
    var current :- TopStack(m1);
    Some(PushSource(config, m1, UnlessHelper(m1.lastHelper, current, InvokeMissing(current, OptionsVar))))
  }

  function AppendOp(config: Config, m: Machine): Option<Machine> {
    if m.inlineStack != [] then
      var m1 :- ReplaceStack(m, OrEmpty);
      var (value, m2) :- Pop(m1);
      Some(PushSource(config, m2, AppendLine(config, value)))
    else
      var (local, m1) :- Pop(m);
      if config.isSimple then Some(PushSource(config, PushSource(config, m1, ReturnIf(local)), ElseReturnEmpty))
      else Some(PushSource(config, m1, AppendIf(local)))
  }

  // ----- one opcode, and a run of them

  function ContextVar(config: Config, depth: nat): JsExpr {
    DepthVar(depth, config.useDepths && depth != 0)
  }

  function IdExpr(id: IdKind): JsExpr {
    match id
    case PathId(text) => Constant(TextLiteral(text))
    case BlockParamId(depth, index, child) => BlockParamPath(depth, index, child)
    case SubExpressionId => Constant(BooleanLiteral(true))
    case OtherId => Constant(NullLiteral)
  }

  /** The opcodes that take the arguments of a call off the stack. */
  predicate CallOpcode(op: Opcode) {
    op.InvokeHelper? || op.InvokeKnownHelper? || op.InvokeAmbiguous? || op.InvokePartial? || op.RegisterDecorator?
    || op.BlockValue? || op.AmbiguousBlockValue?
  }

  function Step(config: Config, m: Machine, op: Opcode): Option<Machine> {
    match op
    case GetContext(depth) => Some(m.(lastContext := depth))
    case PushContext => Some(PushLit(m, ContextVar(config, m.lastContext)))
    case LookupOnContext(parts, falsy, _, _) => ResolvePath(PushLit(m, ContextVar(config, m.lastContext)), parts, falsy)
    case LookupData(depth, parts, _) => ResolvePath(PushLit(m, DataVar(depth)), parts, true)
    case LookupBlockParam(depth, index, parts) =>
      if parts == [] then None else ResolvePath(PushCode(m, BlockParamVar(depth, index)), parts[1..], false)
    case PushLiteral(literal) => Some(PushLit(m, Constant(literal)))
    case PushStringParam(value, kind) =>
      var m' := PushLit(PushLit(m, ContextVar(config, m.lastContext)), Constant(TextLiteral(kind)));
      Some(if value.Some? then PushLit(m', Constant(value.value)) else m')
    case PushId(id) => Some(PushLit(m, IdExpr(id)))
    case PushProgram(guid) => Some(PushLit(m, if guid.Some? then ProgramRef(guid.value, config.useDepths) else NoProgram))
    case EmptyHash(omitEmpty) => Some(EmptyHashOp(config, m, omitEmpty))
    case PushHash =>
      Some(m.(hash := Some(HashRegister([], [], [], [])), hashes := if m.hash.Some? then m.hashes + [m.hash.value] else m.hashes))
    case AssignToHash(key) => AssignToHashOp(config, m, key)
    case PopHash => PopHashOp(config, m)
    case ResolvePossibleLambda =>
      var (value, m') :- Pop(m);
      Some(PushCode(m', Lambda(value)))
    case InvokeHelper(arity, name, simple) => InvokeHelperOp(config, m, arity, name, simple)
    case InvokeKnownHelper(arity, name) => InvokeKnownHelperOp(config, m, arity, name)
    case InvokeAmbiguous(name, isBlock) => InvokeAmbiguousOp(config, m, name, isBlock)
    case InvokePartial(dynamic, name, indent) => InvokePartialOp(config, m, dynamic, name, indent)
    case RegisterDecorator(arity, name) =>
      var setup :- SetupParams(config, m, name, arity);
      Some(setup.rest.(decorators := setup.rest.decorators + [Invoke(Helper(name), setup.params, setup.options)]))
    case BlockValue(name) => BlockValueOp(config, m, name)
    case AmbiguousBlockValue => AmbiguousBlockValueOp(config, m)
    case AppendContent(text) => Some(m.(pending := m.pending + text))
    case Append => AppendOp(config, m)
    case AppendEscaped =>
      var (value, m') :- Pop(m);
      Some(PushSource(config, m', AppendLine(config, Escape(value))))
  }

  function Run(config: Config, m: Machine, ops: seq<Opcode>): Option<Machine>
    decreases |ops|
  {
    if ops == [] then Some(m)
    else
      var m' :- Step(config, m, ops[0]);
      Run(config, m', ops[1..])
  }

  /** All opcodes of an environment, the trailing content, and the final check. */
  function Generate(config: Config, ops: seq<Opcode>): Option<Machine> {
    var m :- Run(config, Start, ops);
    var m' := Flushed(config, m);
    if m'.stackSlot != 0 || m'.inlineStack != [] || m'.compileStack != [] then None else Some(m')
  }
}
