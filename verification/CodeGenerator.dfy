/** `JavaScriptCompiler`, the object whose methods work the two stacks in place, proved
    against the opcode machine, and the recursive compilation of whole templates. */
module CodeGenerator {
  import opened Wrappers
  import opened HandlebarsAst
  import opened HandlebarsCompiler
  import opened JsCode
  import opened JsValues
  import opened CodeMachine
  import opened BufferMerging
  import opened TemplateSemantics
  import opened Execution
  import opened TemplateMeaning
  import opened ProgramTable
  import opened ProgramSharing
  import ExactCompilation

  class JavaScriptCompiler {
    const config: Config
    var inlineStack: seq<Entry>
    var compileStack: seq<Entry>
    var stackSlot: nat
    var stackVars: nat
    var hash: Option<HashRegister>
    var hashes: seq<HashRegister>
    var lastContext: nat
    var lastHelper: JsExpr
    var pendingContent: string
    var source: seq<Line>
    var decorators: seq<JsExpr>

    constructor (config: Config)
      ensures this.config == config && State() == Start
    {
      this.config := config;
      inlineStack, compileStack, stackSlot, stackVars := [], [], 0, 0;
      hash, hashes, lastContext, lastHelper := None, [], 0, Constant(UndefinedLiteral);
      pendingContent, source, decorators := "", [], [];
    }

    function State(): Machine
      reads this
    {
      Machine(inlineStack, compileStack, stackSlot, stackVars, hash, hashes, lastContext, lastHelper, pendingContent, source, decorators)
    }

    /** A method that may throw did what the machine does. */
    twostate predicate Did(ok: bool, new result: Option<Machine>)
      reads this
    {
      ok == result.Some? && (ok ==> State() == result.value)
    }

    // ----- stacks

    method PushEntry(entry: Entry)
      modifies this
      ensures State() == Push(old(State()), entry)
    {
      inlineStack := inlineStack + [entry];
    }

    method PushStackLiteral(e: JsExpr)
      modifies this
      ensures State() == PushLit(old(State()), e)
    {
      PushEntry(Lit(e));
    }

    method PopStack() returns (ok: bool, entry: Entry)
      modifies this
      ensures ok == PopEntry(old(State())).Some?
      ensures ok ==> PopEntry(old(State())) == Some((entry, State()))
    {
      ok := true;
      if inlineStack != [] {
        entry := Last(inlineStack);
        inlineStack := Init(inlineStack);
      } else if compileStack == [] {
        return false, Lit(NoProgram);
      } else {
        entry := Last(compileStack);
        compileStack := Init(compileStack);
        if entry.Code? {
          if stackSlot == 0 {
            return false, entry;
          }
          stackSlot := stackSlot - 1;
        }
      }
    }

    method PopExpr() returns (ok: bool, e: JsExpr)
      modifies this
      ensures ok == Pop(old(State())).Some?
      ensures ok ==> Pop(old(State())) == Some((e, State()))
    {
      var entry;
      ok, entry := PopStack();
      e := entry.expr;
    }

    method PopWhen(flag: bool) returns (ok: bool, es: seq<JsExpr>)
      modifies this
      ensures ok == PopIf(old(State()), flag).Some?
      ensures ok ==> PopIf(old(State()), flag) == Some((es, State()))
    {
      if !flag {
        return true, [];
      }
      var e;
      ok, e := PopExpr();
      es := [e];
    }

    /** A value and its tracking entries. */
    method PopTrackedValue() returns (ok: bool, t: Tracked)
      modifies this
      ensures ok == PopTracked(config, old(State())).Some?
      ensures ok ==> PopTracked(config, old(State())) == Some(t) && t.rest == State()
    {
      var value, ids, types, contexts;
      t := Tracked(NoProgram, [], [], [], State());
      ok, value := PopExpr();
      if !ok { return; }
      ok, ids := PopWhen(config.flags.trackIds);
      if !ok { return; }
      ok, types := PopWhen(config.flags.stringParams);
      if !ok { return; }
      ok, contexts := PopWhen(config.flags.stringParams);
      if !ok { return; }
      t := Tracked(value, ids, types, contexts, State());
    }

    method NextSlot() returns (slot: nat)
      requires stackSlot <= stackVars
      modifies this
      ensures State() == IncrStack(old(State())) && slot == stackSlot
    {
      stackSlot := stackSlot + 1;
      if stackSlot > stackVars {
        stackVars := stackVars + 1;
      }
      slot := stackSlot;
    }

    /** Pops the top inline value, names it unless it is a literal, and pushes what the callback builds on it. */
    method Replace(wrap: Wrap) returns (ok: bool)
      requires stackSlot <= stackVars
      modifies this
      ensures Did(ok, ReplaceStack(old(State()), wrap))
      ensures ok ==> stackSlot <= stackVars
    {
      if inlineStack == [] {
        return false;
      }
      var top;
      ok, top := PopStack();
      var item;
      if top.Lit? {
        item := Wrapped(wrap, top.expr, top.expr);
      } else {
        var slot := NextSlot();
        PushEntry(Code(Temp(slot)));
        item := Wrapped(wrap, SetTemp(slot, top.expr), Temp(slot));
        var popped;
        ok, popped := PopStack();
        stackSlot := stackSlot - 1;
      }
      PushEntry(Code(item));
    }

    method ResolveParts(parts: seq<string>, falsy: bool) returns (ok: bool)
      requires stackSlot <= stackVars
      modifies this
      ensures Did(ok, ResolvePath(old(State()), parts, falsy))
      ensures ok ==> stackSlot <= stackVars
    {
      var i := 0;
      while i < |parts|
        invariant 0 <= i <= |parts| && stackSlot <= stackVars
        invariant ResolvePath(State(), parts[i..], falsy) == ResolvePath(old(State()), parts, falsy)
      {
        assert parts[i..][1..] == parts[i + 1..];
        ok := Replace(if falsy then Guarded(parts[i]) else NullSafe(parts[i]));
        if !ok {
          return;
        }
        i := i + 1;
      }
      ok := true;
    }

    // ----- source lines

    method FlushContent()
      modifies this
      ensures State() == Flushed(config, old(State()))
    {
      if pendingContent != "" {
        source := source + [AppendLine(config, Constant(TextLiteral(pendingContent)))];
        pendingContent := "";
      }
    }

    method PushLine(line: Line)
      modifies this
      ensures State() == PushSource(config, old(State()), line)
    {
      FlushContent();
      source := source + [line];
    }

    /** Moves every inline entry to the compile stack, each non-literal into a temporary of its own. */
    method FlushInlineStack()
      requires stackSlot <= stackVars
      modifies this
      ensures State() == FlushInline(config, old(State())) && stackSlot <= stackVars
    {
      var entries := inlineStack;
      inlineStack := [];
      var i := 0;
      while i < |entries|
        invariant 0 <= i <= |entries| && stackSlot <= stackVars
        invariant FlushEntries(config, State(), entries[i..]) == FlushInline(config, old(State()))
      {
        assert entries[i..][1..] == entries[i + 1..];
        if entries[i].Lit? {
          compileStack := compileStack + [entries[i]];
        } else {
          var slot := NextSlot();
          PushLine(Assign(slot, entries[i].expr));
          compileStack := compileStack + [Code(Temp(slot))];
        }
        i := i + 1;
      }
    }

    // ----- hashes

    method OpenHash()
      modifies this
      ensures Step(config, old(State()), PushHash) == Some(State())
    {
      if hash.Some? {
        hashes := hashes + [hash.value];
      }
      hash := Some(HashRegister([], [], [], []));
    }

    method AssignKey(key: string) returns (ok: bool)
      modifies this
      ensures Did(ok, AssignToHashOp(config, old(State()), key))
    {
      var t;
      ok, t := PopTrackedValue();
      if !ok || hash.None? {
        return false;
      }
      var contexts := AssignTracked(hash.value.contexts, key, t.contexts);
      var types := AssignTracked(hash.value.types, key, t.types);
      var ids := AssignTracked(hash.value.ids, key, t.ids);
      var values := AssignField(hash.value.values, key, t.value);
      if contexts.None? || types.None? || ids.None? || values.None? {
        return false;
      }
      hash := Some(HashRegister(values.value, types.value, contexts.value, ids.value));
    }

    /** An object with the given entries. The list is asked for the entries one by one, through its own `hasOwnProperty`. */
    method ObjectLiteral(fields: seq<Field>) returns (ok: bool, e: JsExpr)
      ensures ok == Printable(fields)
      ensures ok ==> e == ObjectOf(fields)
    {
      var pairs := [];
      for i := 0 to |fields|
        invariant pairs == fields[..i] && Printable(pairs)
      {
        if fields[i].key == "hasOwnProperty" {
          return false, NoProgram;
        }
        pairs := pairs + [fields[i]];
      }
      assert pairs == fields;
      return true, ObjectOf(pairs);
    }

    method CloseHash() returns (ok: bool)
      modifies this
      ensures Did(ok, PopHashOp(config, old(State())))
    {
      if hash.None? {
        return false;
      }
      var register := hash.value;
      if hashes == [] {
        hash := None;
      } else {
        hash, hashes := Some(Last(hashes)), Init(hashes);
      }
      var e;
      if config.flags.trackIds {
        ok, e := ObjectLiteral(register.ids);
        if !ok { return; }
        PushEntry(Code(e));
      }
      if config.flags.stringParams {
        ok, e := ObjectLiteral(register.contexts);
        if !ok { return; }
        PushEntry(Code(e));
        ok, e := ObjectLiteral(register.types);
        if !ok { return; }
        PushEntry(Code(e));
      }
      ok, e := ObjectLiteral(register.values);
      if !ok { return; }
      PushEntry(Code(e));
    }

    method PushEmptyHash(omitEmpty: bool)
      modifies this
      ensures State() == EmptyHashOp(config, old(State()), omitEmpty)
    {
      if config.flags.trackIds {
        PushEntry(Code(EmptyObject));
      }
      if config.flags.stringParams {
        PushEntry(Code(EmptyObject));
        PushEntry(Code(EmptyObject));
      }
      PushStackLiteral(if omitEmpty then Constant(UndefinedLiteral) else EmptyObject);
    }

    // ----- calls

    /** The parameters come off the stack last one first. */
    method PopArguments(arity: nat) returns (ok: bool, popped: Popped)
      modifies this
      ensures ok == PopParams(config, old(State()), arity).Some?
      ensures ok ==> PopParams(config, old(State()), arity) == Some(popped) && popped.rest == State()
    {
      hide PopTracked;
      var values, ids, types, contexts := [], [], [], [];
      popped := Popped([], [], [], [], State());
      ExtendedByNothing(PopParams(config, State(), arity));
      var i := arity;
      while i > 0
        invariant 0 <= i <= arity
        invariant PopParams(config, old(State()), arity) == Extended(PopParams(config, State(), i), values, ids, types, contexts)
        decreases i
      {
        ExtendedStep(config, State(), i, values, ids, types, contexts);
        i := i - 1;
        var t;
        ok, t := PopTrackedValue();
        if !ok {
          return;
        }
        values, ids, types, contexts := [t.value] + values, t.ids + ids, t.types + types, t.contexts + contexts;
      }
      ok := true;
      popped := Popped(values, ids, types, contexts, State());
      assert [] + values == values && [] + ids == ids && [] + types == types && [] + contexts == contexts;
    }

    method SetupCall(name: string, arity: nat) returns (ok: bool, setup: Setup)
      modifies this
      ensures ok == SetupParams(config, old(State()), name, arity).Some?
      ensures ok ==> SetupParams(config, old(State()), name, arity) == Some(setup) && setup.rest == State()
    {
      var h, inverse, program, popped;
      setup := Setup([], NoProgram, State());
      ok, h := PopTrackedValue();
      if !ok { return; }
      ok, inverse := PopExpr();
      if !ok { return; }
      ok, program := PopExpr();
      if !ok { return; }
      ok, popped := PopArguments(arity);
      if !ok { return; }
      setup := Setup(popped.values,
                     OptionsOf(name, h.value, program, inverse, Extras(h.ids, h.types, h.contexts, popped.ids, popped.types, popped.contexts)),
                     State());
    }

    method InvokeHelperCall(arity: nat, name: string, simple: bool) returns (ok: bool)
      modifies this
      ensures Did(ok, InvokeHelperOp(config, old(State()), arity, name, simple))
    {
      var nonHelper, setup;
      ok, nonHelper := PopExpr();
      if !ok { return; }
      ok, setup := SetupCall(name, arity);
      if !ok { return; }
      PushEntry(Code(Invoke(HelperChain(name, simple, nonHelper), setup.params, setup.options)));
    }

    method InvokeAmbiguousCall(name: string, isBlock: bool) returns (ok: bool)
      modifies this
      ensures Did(ok, InvokeAmbiguousOp(config, old(State()), name, isBlock))
    {
      var nonHelper, setup;
      ok, nonHelper := PopExpr();
      if !ok { return; }
      PushEmptyHash(false);
      ok, setup := SetupCall(name, 0);
      if !ok { return; }
      lastHelper := Helper(name);
      PushEntry(Code(AmbiguousCode(name, nonHelper, setup.options, isBlock)));
    }

    method InvokePartialCall(dynamic: bool, name: string, indent: string) returns (ok: bool)
      modifies this
      ensures Did(ok, InvokePartialOp(config, old(State()), dynamic, name, indent))
    {
      var setup;
      ok, setup := SetupCall(name, 1);
      if !ok { return; }
      var callee := NamedPartial(name);
      if dynamic {
        ok, callee := PopExpr();
        if !ok { return; }
      }
      PushEntry(Code(PartialOf(callee, setup.params[0], setup.options, indent)));
    }

    method BlockValueCall(name: string) returns (ok: bool)
      modifies this
      ensures Did(ok, BlockValueOp(config, old(State()), name))
    {
      var setup, value;
      ok, setup := SetupCall(name, 0);
      if !ok { return; }
      ok, value := PopExpr();
      if !ok { return; }
      PushEntry(Code(InvokeMissing(value, setup.options)));
    }

    /** The value found is replaced, unless it came from a helper; the options are those of the last call. */
    method AmbiguousBlockValueCall() returns (ok: bool)
      requires stackSlot <= stackVars
      modifies this
      ensures Did(ok, AmbiguousBlockValueOp(config, old(State())))
    {
      var setup;
      ghost var vars := stackVars;
      ok, setup := SetupCall("", 0);
      if !ok { return; }
      SetupKeepsVars(config, old(State()), "", 0);
      FlushInlineStack();
      var current := TopStack(State());
      if current.None? {
        return false;
      }
      PushLine(UnlessHelper(lastHelper, current.value, InvokeMissing(current.value, OptionsVar)));
    }

    method AppendValue() returns (ok: bool)
      requires stackSlot <= stackVars
      modifies this
      ensures Did(ok, AppendOp(config, old(State())))
    {
      if inlineStack != [] {
        ok := Replace(OrEmpty);
        var value;
        ok, value := PopExpr();
        PushLine(AppendLine(config, value));
      } else {
        var local;
        ok, local := PopExpr();
        if !ok { return; }
        if config.isSimple {
          PushLine(ReturnIf(local));
          PushLine(ElseReturnEmpty);
        } else {
          PushLine(AppendIf(local));
        }
      }
    }

    // ----- one environment

    /** One opcode that makes a call. */
    method ExecuteCall(op: Opcode) returns (ok: bool)
      requires Declared(config, State()) && CallOpcode(op)
      modifies this
      ensures Did(ok, Step(config, old(State()), op))
    {
      hide SetupParams, PopTracked, FlushInline, ResolvePath, PopHashOp, AssignToHashOp, AppendOp;
      ok := true;
      match op
      case InvokeHelper(arity, name, simple) => ok := InvokeHelperCall(arity, name, simple);
      case InvokeKnownHelper(arity, name) =>
        var setup;
        ok, setup := SetupCall(name, arity);
        if !ok { return; }
        PushEntry(Code(Invoke(Helper(name), setup.params, setup.options)));
      case InvokeAmbiguous(name, isBlock) => ok := InvokeAmbiguousCall(name, isBlock);
      case InvokePartial(dynamic, name, indent) => ok := InvokePartialCall(dynamic, name, indent);
      case RegisterDecorator(arity, name) =>
        var setup;
        ok, setup := SetupCall(name, arity);
        if !ok { return; }
        decorators := decorators + [Invoke(Helper(name), setup.params, setup.options)];
      case BlockValue(name) => ok := BlockValueCall(name);
      case AmbiguousBlockValue => ok := AmbiguousBlockValueCall();
    }

    /** One opcode. */
    method Execute(op: Opcode) returns (ok: bool)
      requires Declared(config, State())
      modifies this
      ensures Did(ok, Step(config, old(State()), op))
      ensures ok ==> Declared(config, State())
    {
      hide SetupParams, PopTracked, FlushInline, ResolvePath, PopHashOp, AssignToHashOp, InvokeHelperOp, InvokePartialOp, InvokeAmbiguousOp, BlockValueOp, AmbiguousBlockValueOp;
      StepKeeps(config, State(), op);
      ok := true;
      if CallOpcode(op) {
        ok := ExecuteCall(op);
        return;
      }
      match op
      case GetContext(depth) => lastContext := depth;
      case PushContext => PushStackLiteral(ContextVar(config, lastContext));
      case LookupOnContext(parts, falsy, _, _) =>
        PushStackLiteral(ContextVar(config, lastContext));
        ok := ResolveParts(parts, falsy);
      case LookupData(depth, parts, _) =>
        PushStackLiteral(DataVar(depth));
        ok := ResolveParts(parts, true);
      case LookupBlockParam(depth, index, parts) =>
        if parts == [] {
          return false;
        }
        PushEntry(Code(BlockParamVar(depth, index)));
        ok := ResolveParts(parts[1..], false);
      case PushLiteral(literal) => PushStackLiteral(Constant(literal));
      case PushStringParam(value, kind) =>
        PushStackLiteral(ContextVar(config, lastContext));
        PushStackLiteral(Constant(TextLiteral(kind)));
        if value.Some? {
          PushStackLiteral(Constant(value.value));
        }
      case PushId(id) => PushStackLiteral(IdExpr(id));
      case PushProgram(guid) =>
        PushStackLiteral(if guid.Some? then ProgramRef(guid.value, config.useDepths) else NoProgram);
      case EmptyHash(omitEmpty) => PushEmptyHash(omitEmpty);
      case PushHash => OpenHash();
      case AssignToHash(key) => ok := AssignKey(key);
      case PopHash => ok := CloseHash();
      case ResolvePossibleLambda =>
        var value;
        ok, value := PopExpr();
        if !ok { return; }
        PushEntry(Code(Lambda(value)));
      case AppendContent(text) => pendingContent := pendingContent + text;
      case Append => ok := AppendValue();
      case AppendEscaped =>
        var value;
        ok, value := PopExpr();
        if !ok { return; }
        PushLine(AppendLine(config, Escape(value)));
    }

    /** All opcodes, the trailing content, the check for leftovers, and the merged body. */
    method CompileOpcodes(opcodes: seq<Opcode>) returns (body: Option<Body>)
      requires State() == Start
      modifies this
      ensures body == var m := Generate(config, opcodes); if m.Some? then Some(Merge(m.value.source, config.isSimple)) else None
    {
      var i := 0;
      while i < |opcodes|
        invariant 0 <= i <= |opcodes| && Declared(config, State())
        invariant Run(config, State(), opcodes[i..]) == Run(config, Start, opcodes)
      {
        assert opcodes[i..][1..] == opcodes[i + 1..];
        var ok := Execute(opcodes[i]);
        if !ok {
          return None;
        }
        i := i + 1;
      }
      FlushContent();
      if stackSlot != 0 || inlineStack != [] || compileStack != [] {
        return None;
      }
      var gen := new CodeGen();
      i := 0;
      while i < |source|
        invariant 0 <= i <= |source| && fresh(gen) && gen.source == Unmarked(source[..i])
        invariant State() == Flushed(config, Run(config, Start, opcodes).value)
      {
        gen.Push(source[i]);
        assert Unmarked(source[..i + 1]) == Unmarked(source[..i]) + [SourceLine(source[i], NoPrefix, false)];
        i := i + 1;
      }
      assert source[..|source|] == source;
      var bufferVar := gen.MergeSource(source, config.isSimple);
      body := Some(Body(bufferVar, gen.source));
    }
  }

  ghost function Zipped(environments: seq<Environment>, programs: seq<Template>): seq<Compiled>
    requires |environments| == |programs|
  {
    seq(|programs|, i requires 0 <= i < |programs| => Compiled(environments[i], programs[i]))
  }

  /** The table that the compilers of one template share: what has been compiled, and the function it became. */
  class Context {
    var environments: seq<Environment>
    var programs: seq<Template>

    constructor ()
      ensures Valid() && Table() == []
    {
      environments, programs := [], [];
    }

    ghost predicate Valid()
      reads this
    {
      |environments| == |programs|
    }

    ghost function Table(): seq<Compiled>
      reads this
      requires Valid()
    {
      Zipped(environments, programs)
    }

    /** The index of the first environment in the table that is equal to `child`. */
    method MatchExistingProgram(child: Environment) returns (index: Option<nat>)
      requires Valid()
      ensures index == Match(Table(), child)
    {
      hide Equals;
      var i := 0;
      MatchFrom(Table(), child, 0);
      while i < |environments|
        invariant 0 <= i <= |environments|
        invariant Match(Table(), child) == Later(i, Match(Table()[i..], child))
      {
        MatchFrom(Table(), child, i);
        if Equals(environments[i], child) {
          return Some(i);
        }
        i := i + 1;
      }
      index := None;
    }

    method Add(environment: Environment, program: Template)
      requires Valid()
      modifies this
      ensures Valid() && Table() == old(Table()) + [Compiled(environment, program)]
    {
      environments := environments + [environment];
      programs := programs + [program];
    }
  }

  ghost function Later(i: nat, found: Option<nat>): Option<nat> {
    if found.Some? then Some(i + found.value) else None
  }

  lemma {:induction false} MatchFrom(table: seq<Compiled>, e: Environment, i: nat)
    requires i <= |table|
    ensures table[0..] == table && Later(0, Match(table, e)) == Match(table, e)
    ensures i < |table| ==> Match(table[i..], e) == if Equals(table[i].environment, e) then Some(0) else Later(1, Match(table[i + 1..], e))
    ensures i < |table| ==> Later(i, Later(1, Match(table[i + 1..], e))) == Later(i + 1, Match(table[i + 1..], e))
    ensures i == |table| ==> Match(table[i..], e) == None
  {
    hide Equals;
    if i < |table| {
      assert table[i..][0] == table[i] && table[i..][1..] == table[i + 1..];
    }
  }

  /** Compiles the nested programs first, each with a compiler of its own unless an equal one has been compiled before,
      then the opcodes of `e`. */
  method CompileEnvironment(flags: Flags, e: Environment, context: Context) returns (t: Option<Template>, useDepths: bool)
    requires context.Valid()
    modifies context
    ensures context.Valid()
    ensures var r := Share(flags, e, old(context.Table()));
            t.Some? == r.Some? && (t.Some? ==> r == Some(Shared(t.value, useDepths, context.Table())))
    decreases e, 0
  {
    hide Share, ShareAll, Generate, Merge, Followed;
    var children := [];
    useDepths := false;
    ghost var start := context.Table();
    AllStarts(flags, e.children, start);
    var i := 0;
    while i < |e.children|
      invariant 0 <= i <= |e.children| && context.Valid()
      invariant ShareAll(flags, e.children, start) == Followed(children, useDepths, ShareAll(flags, e.children[i..], context.Table()))
      decreases |e.children| - i
    {
      ghost var table := context.Table();
      AllNext(flags, e.children, i, table, children, useDepths);
      var child, deep := CompileChild(flags, e.children[i], context);
      if child.None? {
        NothingFollows(flags, e, start);
        return None, false;
      }
      children := children + [child.value];
      useDepths := useDepths || deep;
      i := i + 1;
    }
    AllEnds(flags, e, start, children, useDepths, context.Table());
    useDepths := useDepths || e.useDepths || e.useDecorators;
    var compiler := new JavaScriptCompiler(Config(flags, e.isSimple, useDepths));
    var body := compiler.CompileOpcodes(e.opcodes);
    t := if body.Some? then Some(Template(body.value, children)) else None;
  }

  /** One nested program: an equal one is used again, and then only its own flag for enclosing contexts is looked at. */
  method CompileChild(flags: Flags, child: Environment, context: Context) returns (t: Option<Template>, useDepths: bool)
    requires context.Valid()
    modifies context
    ensures context.Valid()
    ensures var r := ShareOne(flags, child, old(context.Table()));
            t.Some? == r.Some? && (t.Some? ==> r == Some(Shared(t.value, useDepths, context.Table())))
    decreases child, 1
  {
    hide Share, Match;
    var index := context.MatchExistingProgram(child);
    if index.Some? {
      t, useDepths := Some(context.programs[index.value]), child.useDepths;
    } else {
      t, useDepths := CompileEnvironment(flags, child, context);
      if t.Some? {
        context.Add(child, t.value);
      }
    }
  }

  /** The whole compiler: the tree is walked, then code is generated for what the walk left behind. */
  method CompileTemplate(flags: Flags, program: Program) returns (t: Option<Template>, useDepths: bool)
    ensures t.Some? <==> BodySupported(program.body) && BodyFits(Inner(Scope(flags, []), program), program.body)
    ensures t.Some? ==> var r := Share(flags, CompileProgram(Scope(flags, []), program), []);
                        r.Some? && r.value.template == t.value && r.value.depths == useDepths
    ensures t.Some? && Understood(program) ==> forall w, context, data :: Renders(w, t.value, useDepths, flags, program, context, data)
  {
    hide Share, Build, Renders;
    var options := new CompileOptions(flags);
    var compiler := new Compiler(options);
    var ok := compiler.VisitProgram(program);
    if !ok {
      return None, false;
    }
    var table := new Context();
    t, useDepths := CompileEnvironment(flags, compiler.Finished(program), table);
    SharesExactly(flags, program);
    if t.Some? && Understood(program) {
      forall w, context, data ensures Renders(w, t.value, useDepths, flags, program, context, data) {
        UnderstoodRenders(w, flags, program, context, data);
      }
    }
  }

  lemma {:induction false} SharesExactly(flags: Flags, program: Program)
    requires BodySupported(program.body)
    ensures Share(flags, CompileProgram(Scope(flags, []), program), []).Some? <==> BodyFits(Inner(Scope(flags, []), program), program.body)
  {
    var e := CompileProgram(Scope(flags, []), program);
    hide Share, Build, CompileProgram;
    assert FromProgram(flags, e, false);
    ShareExactly(flags, e, []);
    ExactCompilation.CompilesExactly(flags, Scope(flags, []), program);
  }

  /** Templates of content, comments, mustaches, blocks and partials that keep their hash keys. */
  predicate Understood(program: Program) {
    program.blockParams == [] && BasicBody(program.body)
  }

  /** If raw output consists of strings and nulls and no partial loses its name, the compiled template returns the text of the tree. */
  ghost predicate Renders(w: World, t: Template, useDepths: bool, flags: Flags, program: Program, context: Value, data: Value) {
    var r := BodyText(w, Env(context, [context], data), Inner(Scope(flags, []), program), program.body);
    r.clean ==> RunTemplate(w, t, RootEnv(context, data, useDepths)) == Str(r.text)
  }

  lemma {:induction false} UnderstoodRenders(w: World, flags: Flags, program: Program, context: Value, data: Value)
    requires Understood(program) && Share(flags, CompileProgram(Scope(flags, []), program), []).Some?
    ensures var r := Share(flags, CompileProgram(Scope(flags, []), program), []).value;
            Renders(w, r.template, r.depths, flags, program, context, data)
  {
    SharingInvisible(w, flags, program, context, data);
    hide Share, Build, BodyText, RunTemplate;
  }

  /** What is left to compile, after some nested programs. */
  ghost function Followed(a: seq<Template>, depths: bool, b: Option<SharedAll>): Option<SharedAll> {
    if b.Some? then Some(SharedAll(a + b.value.templates, depths || b.value.depths, b.value.table)) else None
  }

  lemma {:induction false} AllStarts(flags: Flags, es: seq<Environment>, table: seq<Compiled>)
    ensures ShareAll(flags, es, table) == Followed([], false, ShareAll(flags, es[0..], table))
  {
    hide ShareAll;
    assert es[0..] == es;
    var r := ShareAll(flags, es, table);
    assert r.Some? ==> [] + r.value.templates == r.value.templates;
  }

  lemma {:induction false} AllNext(flags: Flags, es: seq<Environment>, i: nat, table: seq<Compiled>, children: seq<Template>, depths: bool)
    requires i < |es|
    ensures var first := ShareOne(flags, es[i], table);
            Followed(children, depths, ShareAll(flags, es[i..], table))
            == if first.None? then None
               else Followed(children + [first.value.template], depths || first.value.depths, ShareAll(flags, es[i + 1..], first.value.table))
  {
    hide ShareOne;
    assert es[i..][0] == es[i] && es[i..][1..] == es[i + 1..];
    var first := ShareOne(flags, es[i], table);
    if first.Some? {
      var rest := ShareAll(flags, es[i + 1..], first.value.table);
      assert rest.Some? ==> children + ([first.value.template] + rest.value.templates) == children + [first.value.template] + rest.value.templates;
    }
  }

  lemma {:induction false} NothingFollows(flags: Flags, e: Environment, table: seq<Compiled>)
    requires ShareAll(flags, e.children, table).None?
    ensures Share(flags, e, table).None?
  {
    hide ShareAll, Generate;
  }

  lemma {:induction false} AllEnds(flags: Flags, e: Environment, start: seq<Compiled>, children: seq<Template>, depths: bool, table: seq<Compiled>)
    requires ShareAll(flags, e.children, start) == Followed(children, depths, ShareAll(flags, e.children[|e.children|..], table))
    ensures var deep := depths || e.useDepths || e.useDecorators;
            var m := Generate(Config(flags, e.isSimple, deep), e.opcodes);
            Share(flags, e, start)
            == if m.Some? then Some(Shared(Template(Merge(m.value.source, e.isSimple), children), deep, table)) else None
  {
    hide Generate, Merge;
    assert e.children[|e.children|..] == [] && ShareAll(flags, [], table) == Some(SharedAll([], false, table));
    assert children + [] == children;
  }

  ghost function Extended(p: Option<Popped>, values: seq<JsExpr>, ids: seq<JsExpr>, types: seq<JsExpr>, contexts: seq<JsExpr>): Option<Popped> {
    if p.None? then None
    else Some(Popped(p.value.values + values, p.value.ids + ids, p.value.types + types, p.value.contexts + contexts, p.value.rest))
  }

  lemma {:induction false} ExtendedByNothing(p: Option<Popped>)
    ensures Extended(p, [], [], [], []) == p
  {
    if p.Some? {
      var a := p.value;
      assert a.values + [] == a.values && a.ids + [] == a.ids && a.types + [] == a.types && a.contexts + [] == a.contexts;
    }
  }

  lemma {:induction false} ExtendedStep(config: Config, m: Machine, n: nat, values: seq<JsExpr>, ids: seq<JsExpr>, types: seq<JsExpr>,
                                        contexts: seq<JsExpr>)
    requires n > 0
    ensures var t := PopTracked(config, m);
            Extended(PopParams(config, m, n), values, ids, types, contexts)
            == if t.None? then None
               else Extended(PopParams(config, t.value.rest, n - 1), [t.value.value] + values, t.value.ids + ids,
                             t.value.types + types, t.value.contexts + contexts)
  {
    hide PopTracked;
    var t := PopTracked(config, m);
    if t.Some? {
      var before := PopParams(config, t.value.rest, n - 1);
      if before.Some? {
        var (b, x) := (before.value, t.value);
        assert b.values + [x.value] + values == b.values + ([x.value] + values);
        assert b.ids + x.ids + ids == b.ids + (x.ids + ids);
        assert b.types + x.types + types == b.types + (x.types + types);
        assert b.contexts + x.contexts + contexts == b.contexts + (x.contexts + contexts);
      }
    }
  }

  predicate Freed(m: Machine, m': Machine) {
    m'.stackSlot <= m.stackSlot && m'.stackVars == m.stackVars && m'.source == m.source
  }

  /** Popping frees slots, names no new temporaries and writes nothing. */
  lemma PopKeepsVars(m: Machine)
    ensures Pop(m).Some? ==> Freed(m, Pop(m).value.1)
  {
  }

  lemma {:induction false} TrackedKeepsVars(config: Config, m: Machine)
    ensures var r := PopTracked(config, m);
            r.Some? ==> Freed(m, r.value.rest)
  {
    hide Pop;
    PopKeepsVars(m);
    if Pop(m).Some? {
      var m1 := Pop(m).value.1;
      PopKeepsVars(m1);
      var r2 := PopIf(m1, config.flags.trackIds);
      if r2.Some? {
        PopKeepsVars(r2.value.1);
        var r3 := PopIf(r2.value.1, config.flags.stringParams);
        if r3.Some? {
          PopKeepsVars(r3.value.1);
        }
      }
    }
  }

  lemma {:induction false} ParamsKeepVars(config: Config, m: Machine, n: nat)
    ensures var r := PopParams(config, m, n);
            r.Some? ==> Freed(m, r.value.rest)
    decreases n
  {
    if n > 0 {
      hide PopTracked;
      TrackedKeepsVars(config, m);
      var t := PopTracked(config, m);
      if t.Some? {
        ParamsKeepVars(config, t.value.rest, n - 1);
      }
    }
  }

  lemma {:induction false} SetupKeepsVars(config: Config, m: Machine, name: string, arity: nat)
    ensures var r := SetupParams(config, m, name, arity);
            r.Some? ==> Freed(m, r.value.rest)
  {
    hide PopTracked, PopParams, Pop;
    TrackedKeepsVars(config, m);
    var h := PopTracked(config, m);
    if h.Some? {
      PopKeepsVars(h.value.rest);
      var i := Pop(h.value.rest);
      if i.Some? && Pop(i.value.1).Some? {
        PopKeepsVars(i.value.1);
        ParamsKeepVars(config, Pop(i.value.1).value.1, arity);
      }
    }
  }

  predicate NoAppends(lines: seq<Line>) {
    forall i :: 0 <= i < |lines| ==> !lines[i].Appended?
  }

  /** Every live temporary is declared, and a simple program has no line to merge. */
  predicate Declared(config: Config, m: Machine) {
    m.stackSlot <= m.stackVars && (config.isSimple ==> NoAppends(m.source))
  }

  lemma {:induction false} ResolveKeeps(config: Config, m: Machine, parts: seq<string>, falsy: bool)
    requires Declared(config, m)
    ensures var r := ResolvePath(m, parts, falsy); r.Some? ==> Declared(config, r.value)
    decreases |parts|
  {
    if parts != [] {
      var r := ReplaceStack(m, if falsy then Guarded(parts[0]) else NullSafe(parts[0]));
      if r.Some? {
        ResolveKeeps(config, r.value, parts[1..], falsy);
      }
    }
  }

  lemma {:induction false} FlushKeeps(config: Config, m: Machine, entries: seq<Entry>)
    requires Declared(config, m)
    ensures Declared(config, FlushEntries(config, m, entries))
    decreases |entries|
  {
    if entries != [] {
      if entries[0].Lit? {
        FlushKeeps(config, m.(compileStack := m.compileStack + [entries[0]]), entries[1..]);
      } else {
        var m1 := IncrStack(m);
        var m2 := PushSource(config, m1, Assign(m1.stackSlot, entries[0].expr));
        FlushKeeps(config, m2.(compileStack := m2.compileStack + [Code(Temp(m1.stackSlot))]), entries[1..]);
      }
    }
  }

  /** Popping leaves the source alone. */
  lemma {:induction false} SetupKeeps(config: Config, m: Machine, name: string, arity: nat)
    requires Declared(config, m)
    ensures var r := SetupParams(config, m, name, arity); r.Some? ==> Declared(config, r.value.rest)
  {
    SetupKeepsVars(config, m, name, arity);
    hide PopTracked, PopParams, Pop;
    TrackedKeepsVars(config, m);
    var h := PopTracked(config, m);
    if h.Some? {
      PopKeepsVars(h.value.rest);
      var i := Pop(h.value.rest);
      if i.Some? && Pop(i.value.1).Some? {
        PopKeepsVars(i.value.1);
        ParamsKeepVars(config, Pop(i.value.1).value.1, arity);
      }
    }
  }

  lemma {:induction false} CallKeeps(config: Config, m: Machine, op: Opcode)
    requires Declared(config, m) && CallOpcode(op)
    ensures var r := Step(config, m, op); r.Some? ==> Declared(config, r.value)
  {
    hide PopTracked, SetupParams, FlushEntries, ResolvePath, Pop, AppendOp, AssignToHashOp, PopHashOp;
    PopKeepsVars(m);
    match op
    case InvokeHelper(arity, name, _) =>
      if Pop(m).Some? {
        SetupKeeps(config, Pop(m).value.1, name, arity);
      }
    case InvokeKnownHelper(arity, name) => SetupKeeps(config, m, name, arity);
    case InvokeAmbiguous(name, _) =>
      if Pop(m).Some? {
        SetupKeeps(config, EmptyHashOp(config, Pop(m).value.1, false), name, 0);
      }
    case InvokePartial(_, name, _) =>
      SetupKeeps(config, m, name, 1);
      var s := SetupParams(config, m, name, 1);
      if s.Some? {
        PopKeepsVars(s.value.rest);
      }
    case RegisterDecorator(arity, name) => SetupKeeps(config, m, name, arity);
    case BlockValue(name) =>
      SetupKeeps(config, m, name, 0);
      var s := SetupParams(config, m, name, 0);
      if s.Some? {
        PopKeepsVars(s.value.rest);
      }
    case AmbiguousBlockValue =>
      SetupKeeps(config, m, "", 0);
      var s := SetupParams(config, m, "", 0);
      if s.Some? {
        FlushKeeps(config, s.value.rest.(inlineStack := []), s.value.rest.inlineStack);
      }
  }

  lemma {:induction false} StepKeeps(config: Config, m: Machine, op: Opcode)
    requires Declared(config, m)
    ensures var r := Step(config, m, op); r.Some? ==> Declared(config, r.value)
  {
    hide PopTracked, SetupParams, FlushEntries, ResolvePath, Pop, InvokeHelperOp, InvokePartialOp, InvokeAmbiguousOp, BlockValueOp, AmbiguousBlockValueOp;
    PopKeepsVars(m);
    if CallOpcode(op) {
      CallKeeps(config, m, op);
      return;
    }
    match op
    case LookupOnContext(parts, falsy, _, _) => ResolveKeeps(config, PushLit(m, ContextVar(config, m.lastContext)), parts, falsy);
    case LookupData(depth, parts, _) => ResolveKeeps(config, PushLit(m, DataVar(depth)), parts, true);
    case LookupBlockParam(depth, index, parts) =>
      if parts != [] {
        ResolveKeeps(config, PushCode(m, BlockParamVar(depth, index)), parts[1..], false);
      }
    case AssignToHash(_) => TrackedKeepsVars(config, m);
    case Append =>
      if m.inlineStack != [] {
        PopKeepsVars(ReplaceStack(m, OrEmpty).value);
      }
    case _ =>
  }
}
