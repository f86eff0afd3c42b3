/** Running the generated code: JavaScript's evaluation of the terms of `JsCode`, with
    assignments to the temporaries and registers of one function activation. */
module Execution {
  import opened Wrappers
  import opened HandlebarsAst
  import opened JsCode
  import opened JsValues
  import opened TemplateSemantics

  /** A program handed to a helper: its guid and whether it was given the depths. */
  datatype Handle = Handle(guid: nat, depths: bool)

  datatype Options = Options(name: string, hash: Option<map<string, Value>>, program: Option<Handle>, inverse: Option<Handle>, data: Value,
                             tracking: Tracking)

  datatype Item = V(value: Value) | H(hash: map<string, Value>) | O(options: Options) | P(handle: Option<Handle>)

  const NoOptions := Options("", Some(map[]), None, None, Undefined, Untracked)

  /** The local variables of an activation. */
  datatype Frame = Frame(temps: map<nat, Value>, helper: Value, options: Options)

  const EmptyFrame := Frame(map[], Undefined, NoOptions)

  function AsValue(item: Item): Value {
    if item.V? then item.value else Undefined
  }

  function AsHash(item: Item): map<string, Value> {
    if item.H? then item.hash else map[]
  }

  /** The entry `hash` of the options is left out if its code is the literal `undefined`. */
  function HashOf(item: Item): Option<map<string, Value>> {
    if item.H? then Some(item.hash) else None
  }

  function AsOptions(item: Item): Options {
    if item.O? then item.options else NoOptions
  }

  function AsHandle(item: Item): Option<Handle> {
    if item.P? then item.handle else None
  }

  function TempValue(f: Frame, slot: nat): Value {
    if slot in f.temps then f.temps[slot] else Undefined
  }

  function InfoOf(o: Options): CallInfo {
    CallInfo(o.name, o.hash, o.program.Some? || o.inverse.Some?, o.data, o.tracking)
  }

  function PlusOf(w: World, a: Value, b: Value): Value {
    Added(Converted(w, a), Converted(w, b))
  }

  datatype Result = Result(item: Item, frame: Frame)

  datatype Results = Results(values: seq<Value>, frame: Frame)

  datatype Hashed = Hashed(hash: map<string, Value>, frame: Frame)

  function Eval(w: World, t: Template, env: Env, f: Frame, e: JsExpr): Result
    decreases t, 1, e, 0
  {
    match e
    case Constant(literal) => Result(V(LiteralValue(literal)), f)
    case EmptyObject => Result(H(map[]), f)
    case DepthVar(depth, listed) =>
      Result(V(if depth == 0 then env.context else if listed && depth < |env.depths| then env.depths[depth] else Undefined), f)
    case DataVar(depth) => Result(V(DataAt(w, env, depth)), f)
    case Temp(slot) => Result(V(TempValue(f, slot)), f)
    case SetTemp(slot, value) =>
      var r := Eval(w, t, env, f, value);
      Result(r.item, r.frame.(temps := r.frame.temps[slot := AsValue(r.item)]))
    case Get(subject, name) =>
      var r := Eval(w, t, env, f, subject);
      Result(V(w.get(AsValue(r.item), name)), r.frame)
    case IfNotNull(test, yes, no) =>
      var r := Eval(w, t, env, f, test);
      Eval(w, t, env, r.frame, if !IsNull(AsValue(r.item)) then yes else no)
    case And(left, right) =>
      var r := Eval(w, t, env, f, left);
      if Truthy(AsValue(r.item)) then Eval(w, t, env, r.frame, right) else r
    case Or(alternatives) => EvalOr(w, t, env, f, alternatives)
    case Lambda(value) =>
      var r := Eval(w, t, env, f, value);
      var v := AsValue(r.item);
      Result(V(if w.isFunction(v) then w.lambda(v, env.context) else v), r.frame)
    case Escape(value) =>
      var r := Eval(w, t, env, f, value);
      Result(V(Str(w.escape(AsValue(r.item)))), r.frame)
    case Helper(name) => Result(V(w.helper(name)), f)
    case Invoke(callee, args, options) =>
      var c := Eval(w, t, env, f, callee);
      var a := EvalAll(w, t, env, c.frame, args);
      var o := Eval(w, t, env, a.frame, options);
      Result(V(RunHelper(w, t, env, AsValue(c.item), SelfOf(w, env), a.values, AsOptions(o.item), [])), o.frame)
    case InvokeMissing(value, options) =>
      var v := Eval(w, t, env, f, value);
      var o := Eval(w, t, env, v.frame, options);
      Result(V(RunHelper(w, t, env, w.helper("blockHelperMissing"), env.context, [AsValue(v.item)], AsOptions(o.item), [])), o.frame)
    case ObjectOf(fields) =>
      var h := EvalFields(w, t, env, f, fields);
      Result(H(h.hash), h.frame)
    case OptionsOf(name, hash, program, inverse, extras) =>
      var h := Eval(w, t, env, f, hash);
      var k := EvalExtras(w, t, env, h.frame, extras);
      var p := Eval(w, t, env, k.frame, program);
      var i := Eval(w, t, env, p.frame, inverse);
      Result(O(Options(name, HashOf(h.item), AsHandle(p.item), AsHandle(i.item), env.data, k.tracking)), i.frame)
    case OptionsVar => Result(O(f.options), f)
    case SetOptions(options) =>
      var o := Eval(w, t, env, f, options);
      Result(o.item, o.frame.(options := AsOptions(o.item)))
    case HelperVar => Result(V(f.helper), f)
    case SetHelper(value) =>
      var r := Eval(w, t, env, f, value);
      Result(r.item, r.frame.(helper := AsValue(r.item)))
    case IfFunction(yes, no) => Eval(w, t, env, f, if w.isFunction(f.helper) then yes else no)
    case Comma(first, second) => Eval(w, t, env, Eval(w, t, env, f, first).frame, second)
    case ProgramRef(guid, depths) => Result(P(Some(Handle(guid, depths))), f)
    case NoProgram => Result(P(None), f)
    case BlockParamVar(_, _) => Result(V(Undefined), f)
    case BlockParamPath(_, _, _) => Result(V(Undefined), f)
    case NamedPartial(name) => Result(V(w.partial(name)), f)
    case PartialOf(callee, context, options, indent) =>
      var c := Eval(w, t, env, f, callee);
      var x := Eval(w, t, env, c.frame, context);
      var o := Eval(w, t, env, x.frame, options);
      var args := [AsValue(c.item), AsValue(x.item), IndentValue(indent)];
      Result(V(RunHelper(w, t, env, w.invokePartial, Undefined, args, AsOptions(o.item), [])), o.frame)
  }

  function EvalOr(w: World, t: Template, env: Env, f: Frame, es: seq<JsExpr>): Result
    decreases t, 1, es, 0
  {
    if es == [] then Result(V(Undefined), f)
    else
      var r := Eval(w, t, env, f, es[0]);
      if Truthy(AsValue(r.item)) || |es| == 1 then r else EvalOr(w, t, env, r.frame, es[1..])
  }

  function EvalAll(w: World, t: Template, env: Env, f: Frame, es: seq<JsExpr>): (r: Results)
    ensures |r.values| == |es|
    decreases t, 1, es, 0
  {
    if es == [] then Results([], f)
    else
      var r := Eval(w, t, env, f, es[0]);
      var rest := EvalAll(w, t, env, r.frame, es[1..]);
      Results([AsValue(r.item)] + rest.values, rest.frame)
  }

  /** An object literal; entries whose code is the literal `undefined` were left out of the text. */
  function EvalFields(w: World, t: Template, env: Env, f: Frame, fields: seq<Field>): Hashed
    decreases t, 1, fields, 0
  {
    if fields == [] then Hashed(map[], f)
    else
      var r := Eval(w, t, env, f, fields[0].value);
      var rest := EvalFields(w, t, env, r.frame, fields[1..]);
      if fields[0].value == Constant(UndefinedLiteral) then rest
      else Hashed(map[fields[0].key := AsValue(r.item)] + rest.hash, rest.frame)
  }

  function EvalMap(w: World, t: Template, env: Env, f: Frame, es: seq<JsExpr>): Hashed
    decreases t, 1, es, 0
  {
    if es == [] then Hashed(map[], f)
    else
      var r := Eval(w, t, env, f, es[0]);
      Hashed(AsHash(r.item), r.frame)
  }

  datatype Extra = Extra(tracking: Tracking, frame: Frame)

  function EvalExtras(w: World, t: Template, env: Env, f: Frame, extras: Extras): Extra
    decreases t, 1, extras, 0
  {
    var hashIds := EvalMap(w, t, env, f, extras.hashIds);
    var hashTypes := EvalMap(w, t, env, hashIds.frame, extras.hashTypes);
    var hashContexts := EvalMap(w, t, env, hashTypes.frame, extras.hashContexts);
    var ids := EvalAll(w, t, env, hashContexts.frame, extras.ids);
    var types := EvalAll(w, t, env, ids.frame, extras.types);
    var contexts := EvalAll(w, t, env, types.frame, extras.contexts);
    Extra(Tracking(hashIds.hash, hashTypes.hash, hashContexts.hash, ids.values, types.values, contexts.values), contexts.frame)
  }

  /** A helper at work: it may render its programs any number of times before it finishes. */
  function RunHelper(w: World, t: Template, env: Env, callee: Value, self: Value, args: seq<Value>, o: Options, outputs: seq<Value>): Value
    decreases t, 0, w.limit - |outputs|
  {
    if |outputs| >= w.limit then Undefined
    else match w.action(callee, self, args, InfoOf(o), outputs)
      case Finish(v) => v
      case Render(inverse, context, data) =>
        var out := RunChild(w, t, env, if inverse then o.inverse else o.program, context, data);
        RunHelper(w, t, env, callee, self, args, o, outputs + [out])
  }

  /** Calling a program handle; a missing one is the `noop` program. */
  function RunChild(w: World, t: Template, env: Env, handle: Option<Handle>, context: Value, data: Value): Value
    decreases t, 0, 0
  {
    match handle
    case None => Str("")
    case Some(Handle(guid, depths)) =>
      if guid >= |t.children| then Undefined
      else RunTemplate(w, t.children[guid], ChildEnv(if depths then env else env.(depths := []), context, data))
  }

  // ----- function bodies

  datatype Flow = Running(frame: Frame, buffer: Value) | Returned(value: Value) | Malformed

  function RunTemplate(w: World, t: Template, env: Env): Value
    decreases t, 3
  {
    var flow := RunLines(w, t, env, EmptyFrame, if t.body.bufferVar.EmptyBuffer? then Str("") else Undefined, t.body.lines,
                         t.body.bufferVar.BufferFromFirst?);
    if flow.Returned? then flow.value else Undefined
  }

  /** The lines of one sum: the first one and the `+` lines after it, up to the semicolon. */
  function SumLength(lines: seq<SourceLine>): Option<nat>
    requires lines != []
    ensures SumLength(lines).Some? ==> 1 <= SumLength(lines).value <= |lines|
  {
    if lines[0].semicolon then Some(1)
    else if |lines| > 1 && lines[1].line.Appended? && lines[1].prefix == Plus then
      var n :- SumLength(lines[1..]);
      Some(n + 1)
    else None
  }

  function SumExprs(lines: seq<SourceLine>): seq<JsExpr> {
    seq(|lines|, i requires 0 <= i < |lines| => if lines[i].line.Appended? then lines[i].line.value else NoProgram)
  }

  function SumOf(w: World, first: Value, rest: seq<Value>): Value
    decreases |rest|
  {
    if rest == [] then first else SumOf(w, PlusOf(w, first, rest[0]), rest[1..])
  }

  /** Whether a run of the body completes the declaration of `buffer` is told by `opening`. */
  function RunLines(w: World, t: Template, env: Env, f: Frame, buffer: Value, lines: seq<SourceLine>, opening: bool): Flow
    decreases t, 2, |lines|
  {
    if lines == [] then (if opening then Malformed else Running(f, buffer))
    else if lines[0].line.Appended? then
      var n := SumLength(lines);
      if n.None? then Malformed
      else
        var r := EvalAll(w, t, env, f, SumExprs(lines[..n.value]));
        var sum := SumOf(w, r.values[0], r.values[1..]);
        match lines[0].prefix
        case NoPrefix => RunLines(w, t, env, r.frame, if opening then sum else buffer, lines[n.value..], false)
        case BufferPlus => if opening then Malformed else RunLines(w, t, env, r.frame, PlusOf(w, buffer, sum), lines[n.value..], false)
        case ReturnSum => if opening then Malformed else Returned(sum)
        case ReturnBufferPlus => if opening then Malformed else Returned(SumOf(w, buffer, r.values))
        case Plus => Malformed
    else if opening then Malformed
    else
      var flow := RunStatement(w, t, env, f, buffer, lines[0].line);
      if flow.Running? then RunLines(w, t, env, flow.frame, flow.buffer, lines[1..], false) else flow
  }

  function RunStatement(w: World, t: Template, env: Env, f: Frame, buffer: Value, line: Line): Flow
    decreases t, 2, 0
  {
    match line
    case Appended(_) => Malformed
    case Return(value) => Returned(AsValue(Eval(w, t, env, f, value).item))
    case ReturnBuffer => Returned(buffer)
    case Assign(slot, value) =>
      var r := Eval(w, t, env, f, value);
      Running(r.frame.(temps := r.frame.temps[slot := AsValue(r.item)]), buffer)
    case AppendIf(local) =>
      var r := Eval(w, t, env, f, local);
      var v := AsValue(r.item);
      Running(r.frame, if IsNull(v) then buffer else PlusOf(w, buffer, v))
    case ReturnIf(local) =>
      var r := Eval(w, t, env, f, local);
      if IsNull(AsValue(r.item)) then Running(r.frame, buffer) else Returned(AsValue(r.item))
    case ElseReturnEmpty => Returned(Str(""))
    case UnlessHelper(helper, target, value) =>
      var h := Eval(w, t, env, f, helper);
      if Truthy(AsValue(h.item)) then Running(h.frame, buffer)
      else
        var r := Eval(w, t, env, h.frame, value);
        if target.Temp? then Running(r.frame.(temps := r.frame.temps[target.slot := AsValue(r.item)]), buffer) else Malformed
  }
}
