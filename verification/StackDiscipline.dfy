/** Whole programs on the opcode machine: which lines they write, that no stack ever
    runs dry, and that both stacks are empty again at the end. */
module StackDiscipline {
  import opened Wrappers
  import opened HandlebarsAst
  import opened HandlebarsCompiler
  import opened JsCode
  import opened CodeMachine
  import opened DirectCode

  // ----- the slot counter

  function NonLiterals(entries: seq<Entry>): nat {
    if entries == [] then 0 else NonLiterals(Init(entries)) + (if Last(entries).Code? then 1 else 0)
  }

  /** `stackSlot` counts the named entries of the compile stack. */
  predicate SlotsCounted(m: Machine) {
    m.stackSlot == NonLiterals(m.compileStack)
  }

  lemma NonLiteralsSnoc(entries: seq<Entry>, e: Entry)
    ensures NonLiterals(entries + [e]) == NonLiterals(entries) + (if e.Code? then 1 else 0)
  {
    assert Init(entries + [e]) == entries;
  }

  lemma PopKeepsCount(m: Machine)
    requires SlotsCounted(m)
    ensures Pop(m).Some? ==> SlotsCounted(Pop(m).value.1)
    ensures PopEntry(m).None? <==> m.inlineStack == [] && m.compileStack == []
  {
  }

  lemma PopTrackedKeepsCount(config: Config, m: Machine)
    requires SlotsCounted(m)
    ensures var r := PopTracked(config, m); r.Some? ==> SlotsCounted(r.value.rest)
  {
    hide NonLiterals;
    PopKeepsCount(m);
    var r := Pop(m);
    if r.Some? {
      var m1 := r.value.1;
      PopKeepsCount(m1);
      var r2 := PopIf(m1, config.flags.trackIds);
      if r2.Some? {
        var m2 := r2.value.1;
        PopKeepsCount(m2);
        var r3 := PopIf(m2, config.flags.stringParams);
        if r3.Some? {
          PopKeepsCount(r3.value.1);
        }
      }
    }
  }

  lemma {:induction false} PopParamsKeepsCount(config: Config, m: Machine, n: nat)
    requires SlotsCounted(m)
    ensures var r := PopParams(config, m, n); r.Some? ==> SlotsCounted(r.value.rest)
    decreases n
  {
    hide NonLiterals, PopTracked;
    if n > 0 {
      PopTrackedKeepsCount(config, m);
      var t := PopTracked(config, m);
      if t.Some? {
        PopParamsKeepsCount(config, t.value.rest, n - 1);
      }
    }
  }

  lemma SetupKeepsCount(config: Config, m: Machine, name: string, arity: nat)
    requires SlotsCounted(m)
    ensures var r := SetupParams(config, m, name, arity); r.Some? ==> SlotsCounted(r.value.rest)
  {
    hide NonLiterals, PopTracked, Pop, PopParams;
    PopTrackedKeepsCount(config, m);
    var h := PopTracked(config, m);
    if h.Some? {
      PopKeepsCount(h.value.rest);
      var i := Pop(h.value.rest);
      if i.Some? {
        PopKeepsCount(i.value.1);
        var p := Pop(i.value.1);
        if p.Some? {
          PopParamsKeepsCount(config, p.value.1, arity);
        }
      }
    }
  }

  lemma {:induction false} ResolveKeepsCount(config: Config, m: Machine, parts: seq<string>, falsy: bool)
    requires SlotsCounted(m)
    ensures var r := ResolvePath(m, parts, falsy); r.Some? ==> SlotsCounted(r.value)
    decreases |parts|
  {
    if parts != [] {
      var r := ReplaceStack(m, if falsy then Guarded(parts[0]) else NullSafe(parts[0]));
      if r.Some? {
        ResolveKeepsCount(config, r.value, parts[1..], falsy);
      }
    }
  }

  lemma {:induction false} FlushKeepsCount(config: Config, m: Machine, entries: seq<Entry>)
    requires SlotsCounted(m)
    ensures SlotsCounted(FlushEntries(config, m, entries))
    decreases |entries|
  {
    if entries != [] {
      hide NonLiterals;
      if entries[0].Lit? {
        NonLiteralsSnoc(m.compileStack, entries[0]);
        FlushKeepsCount(config, m.(compileStack := m.compileStack + [entries[0]]), entries[1..]);
      } else {
        var m1 := IncrStack(m);
        var m2 := PushSource(config, m1, Assign(m1.stackSlot, entries[0].expr));
        NonLiteralsSnoc(m2.compileStack, Code(Temp(m1.stackSlot)));
        FlushKeepsCount(config, m2.(compileStack := m2.compileStack + [Code(Temp(m1.stackSlot))]), entries[1..]);
      }
    }
  }

  /** Every opcode, on every state, keeps the counter right, whatever the opcodes before it were. */
  lemma {:induction false} CallKeepsCount(config: Config, m: Machine, op: Opcode)
    requires SlotsCounted(m) && CallOpcode(op)
    ensures var r := Step(config, m, op); r.Some? ==> SlotsCounted(r.value)
  {
    hide NonLiterals, PopTracked, SetupParams, FlushEntries, ResolvePath, AppendOp, AssignToHashOp, PopHashOp;
    match op
    case InvokeHelper(arity, name, _) =>
      PopKeepsCount(m);
      if Pop(m).Some? {
        SetupKeepsCount(config, Pop(m).value.1, name, arity);
      }
    case InvokeKnownHelper(arity, name) => SetupKeepsCount(config, m, name, arity);
    case InvokeAmbiguous(name, _) =>
      PopKeepsCount(m);
      if Pop(m).Some? {
        SetupKeepsCount(config, EmptyHashOp(config, Pop(m).value.1, false), name, 0);
      }
    case InvokePartial(_, name, _) =>
      SetupKeepsCount(config, m, name, 1);
      var s := SetupParams(config, m, name, 1);
      if s.Some? {
        PopKeepsCount(s.value.rest);
      }
    case RegisterDecorator(arity, name) => SetupKeepsCount(config, m, name, arity);
    case BlockValue(name) =>
      SetupKeepsCount(config, m, name, 0);
      var s := SetupParams(config, m, name, 0);
      if s.Some? {
        PopKeepsCount(s.value.rest);
      }
    case AmbiguousBlockValue =>
      SetupKeepsCount(config, m, "", 0);
      var s := SetupParams(config, m, "", 0);
      if s.Some? {
        FlushKeepsCount(config, s.value.rest.(inlineStack := []), s.value.rest.inlineStack);
      }
  }

  lemma {:induction false} StepKeepsCount(config: Config, m: Machine, op: Opcode)
    requires SlotsCounted(m)
    ensures var r := Step(config, m, op); r.Some? ==> SlotsCounted(r.value)
  {
    hide NonLiterals, PopTracked, SetupParams, FlushEntries, ResolvePath, InvokeHelperOp, InvokePartialOp, InvokeAmbiguousOp, BlockValueOp, AmbiguousBlockValueOp;
    if CallOpcode(op) {
      CallKeepsCount(config, m, op);
      return;
    }
    match op
    case LookupOnContext(parts, falsy, _, _) => ResolveKeepsCount(config, PushLit(m, ContextVar(config, m.lastContext)), parts, falsy);
    case LookupData(depth, parts, _) => ResolveKeepsCount(config, PushLit(m, DataVar(depth)), parts, true);
    case LookupBlockParam(depth, index, parts) =>
      if parts != [] {
        ResolveKeepsCount(config, PushCode(m, BlockParamVar(depth, index)), parts[1..], false);
      }
    case AssignToHash(key) => PopTrackedKeepsCount(config, m);
    case ResolvePossibleLambda => PopKeepsCount(m);
    case Append =>
      if m.inlineStack == [] {
        PopKeepsCount(m);
      }
    case AppendEscaped => PopKeepsCount(m);
    case _ =>
  }

  lemma {:induction false} RunKeepsCount(config: Config, m: Machine, ops: seq<Opcode>)
    requires SlotsCounted(m)
    ensures var r := Run(config, m, ops); r.Some? ==> SlotsCounted(r.value)
    decreases |ops|
  {
    if ops != [] {
      StepKeepsCount(config, m, ops[0]);
      var r := Step(config, m, ops[0]);
      if r.Some? {
        RunKeepsCount(config, r.value, ops[1..]);
      }
    }
  }

  // ----- what a statement writes

  /** Text joins the pending content; a line first flushes it. */
  datatype Piece = TextPiece(text: string) | LinePiece(line: Line)

  function Write(config: Config, m: Machine, pieces: seq<Piece>): Machine
    decreases |pieces|
  {
    if pieces == [] then m
    else match pieces[0]
      case TextPiece(text) => Write(config, m.(pending := m.pending + text), pieces[1..])
      case LinePiece(line) => Write(config, PushSource(config, m, line), pieces[1..])
  }

  /** Appending the value of one inline expression. */
  function RawPieces(config: Config, value: JsExpr): seq<Piece> {
    [LinePiece(AppendLine(config, Wrapped(OrEmpty, SetTemp(1, value), Temp(1))))]
  }

  function BlockPieces(config: Config, scope: Scope, call: Call, p: Option<nat>, i: Option<nat>): seq<Piece> {
    var code := CallCode(config, scope, call, false, p, i);
    match Classify(scope, call, false)
    case HelperKind => RawPieces(config, code)
    case SimpleKind =>
      RawPieces(config, InvokeMissing(code, OptionsFor(config, call.path.original, [], NoHash(config), p, i)))
    case AmbiguousKind =>
      [LinePiece(Assign(1, code)),
       LinePiece(UnlessHelper(Helper(call.path.parts[0]), Temp(1), InvokeMissing(Temp(1), OptionsVar)))]
      + (if config.isSimple then [LinePiece(ReturnIf(Temp(1))), LinePiece(ElseReturnEmpty)] else [LinePiece(AppendIf(Temp(1)))])
  }

  /** What `invokePartial` takes for the context: the parameter, or what stands where the parameter should be. */
  function PartialContext(config: Config, scope: Scope, s: Statement): Slots
    requires s.PartialStatement? && |s.args.params| <= 1
  {
    if !NoContext(scope, s.args) then ParamsSlots(config, scope, PartialArgs(scope.flags, s.args).params)[0]
    else Slots([], [], [], if s.name.StaticName? then Lit(Constant(UndefinedLiteral)) else NameEntry(config, scope, s.name))
  }

  function NameEntry(config: Config, scope: Scope, name: PartialName): Entry {
    if name.StaticName? then Lit(NamedPartial(name.name)) else Code(CallCode(config, scope, name.expr, true, None, None))
  }

  /** What `invokePartial` takes for the partial. */
  function PartialCallee(config: Config, scope: Scope, s: Statement): JsExpr
    requires s.PartialStatement?
  {
    if s.name.DynamicName? && NoContext(scope, s.args) then Constant(UndefinedLiteral) else NameEntry(config, scope, s.name).expr
  }

  function PartialCode(config: Config, scope: Scope, s: Statement, block: Option<nat>): JsExpr
    requires s.PartialStatement? && |s.args.params| <= 1
  {
    var context := PartialContext(config, scope, s);
    var name := if s.name.StaticName? then s.name.name else "";
    PartialOf(PartialCallee(config, scope, s), context.value.expr,
              OptionsFor(config, name, [context], HashSlots(config, scope, s.args.hash, true), block, None), s.indent)
  }

  function StatementPieces(config: Config, scope: Scope, s: Statement, guid: nat): seq<Piece>
    requires Supported(s)
  {
    match s
    case ContentStatement(value) => if value == "" then [] else [TextPiece(value)]
    case CommentStatement => []
    case MustacheStatement(call, escaped) =>
      var code := CallCode(config, scope, call, false, None, None);
      if escaped && !scope.flags.noEscape then [LinePiece(AppendLine(config, Escape(code)))] else RawPieces(config, code)
    case BlockStatement(call, program, inverse) =>
      BlockPieces(config, scope, call, Guid(program, guid), Guid(inverse, guid + Count(program)))
    case PartialStatement(_, _, _, block) => RawPieces(config, PartialCode(config, scope, s, Guid(block, guid)))
    case DecoratorStatement(_, _) => []
  }

  function BodyPieces(config: Config, scope: Scope, body: seq<Statement>, guid: nat): seq<Piece>
    requires BodySupported(body)
  {
    if body == [] then []
    else
      StatementPieces(config, scope, body[0], guid)
      + BodyPieces(config, scope, body[1..], guid + |EmitStatement(scope, body[0], guid).children|)
  }

  /** Between statements no value is on a stack and no hash is open. */
  predicate AtStatement(config: Config, scope: Scope, m: Machine) {
    Flat(m) && Plain(config, scope) && m.inlineStack == [] && m.hash.None? && m.hashes == []
  }

  predicate Writes(config: Config, m: Machine, ops: seq<Opcode>, pieces: seq<Piece>) {
    var r := Run(config, m, ops);
    r.Some? && Settled(Write(config, m, pieces), r.value)
  }

  predicate Settled(m: Machine, m': Machine) {
    m' == m.(stackVars := m'.stackVars, lastContext := m'.lastContext, lastHelper := m'.lastHelper, decorators := m'.decorators)
  }

  lemma {:induction false} WriteAppend(config: Config, m: Machine, a: seq<Piece>, b: seq<Piece>)
    ensures Write(config, m, a + b) == Write(config, Write(config, m, a), b)
    decreases |a|
  {
    if a == [] {
      assert a + b == b;
    } else {
      assert (a + b)[1..] == a[1..] + b;
      var m1 := if a[0].TextPiece? then m.(pending := m.pending + a[0].text) else PushSource(config, m, a[0].line);
      WriteAppend(config, m1, a[1..], b);
    }
  }

  /** Writing touches the source and the pending text alone. */
  lemma {:induction false} WriteFrame(config: Config, m: Machine, m': Machine, pieces: seq<Piece>)
    requires Settled(m, m')
    ensures Settled(Write(config, m, pieces), Write(config, m', pieces))
    ensures var w := Write(config, m, pieces); w == m.(source := w.source, pending := w.pending)
    decreases |pieces|
  {
    if pieces != [] {
      match pieces[0]
      case TextPiece(text) => WriteFrame(config, m.(pending := m.pending + text), m'.(pending := m'.pending + text), pieces[1..]);
      case LinePiece(line) => WriteFrame(config, PushSource(config, m, line), PushSource(config, m', line), pieces[1..]);
    }
  }

  lemma {:induction false} WriteOne(config: Config, m: Machine, line: Line)
    ensures Write(config, m, [LinePiece(line)]) == PushSource(config, m, line)
  {
    var pieces := [LinePiece(line)];
    assert pieces[1..] == [];
    assert Write(config, PushSource(config, m, line), []) == PushSource(config, m, line);
  }

  lemma {:induction false} WritesAppend(config: Config, m: Machine, a: seq<Opcode>, x: seq<Piece>, b: seq<Opcode>, y: seq<Piece>)
    requires Writes(config, m, a, x)
    requires Writes(config, Run(config, m, a).value, b, y)
    ensures Writes(config, m, a + b, x + y)
  {
    RunAppend(config, m, a, b);
    WriteAppend(config, m, x, y);
    WriteFrame(config, Write(config, m, x), Run(config, m, a).value, y);
  }

  /** `append` on one inline value. */
  lemma {:induction false} AppendsCode(config: Config, m: Machine, value: JsExpr)
    requires Flat(m) && m.inlineStack == [Code(value)]
    ensures Writes(config, m.(inlineStack := []), [], []) && Step(config, m, Append).Some?
    ensures Settled(Write(config, m.(inlineStack := []), RawPieces(config, value)), Step(config, m, Append).value)
  {
    var wrapped := Wrapped(OrEmpty, SetTemp(1, value), Temp(1));
    assert Init(m.inlineStack) == [];
    var m1 := ReplaceStack(m, OrEmpty).value;
    assert m1.inlineStack == [Code(wrapped)];
    assert Init(m1.inlineStack) == [];
    var (line, flat) := (AppendLine(config, wrapped), m.(inlineStack := []));
    WriteOne(config, flat, line);
    PushesApart(config, flat, m1.stackVars, line);
    hide PushSource, Flushed, Write, AppendLine;
    assert AppendOp(config, m) == Some(PushSource(config, flat.(stackVars := m1.stackVars), line));
    assert Run(config, flat, []) == Some(flat) && Write(config, flat, []) == flat by { WritesNothing(config, flat); }
  }

  lemma {:induction false} PushesApart(config: Config, m: Machine, vars: nat, line: Line)
    ensures PushSource(config, m.(stackVars := vars), line) == PushSource(config, m, line).(stackVars := vars)
  {
  }

  lemma {:induction false} WritesNothing(config: Config, m: Machine)
    ensures Run(config, m, []) == Some(m) && Write(config, m, []) == m
  {
  }

  /** A call whose value is appended raw. */
  lemma {:induction false} AppendsCall(config: Config, m: Machine, ops: seq<Opcode>, value: JsExpr)
    requires Flat(m) && m.inlineStack == [] && Pushes(config, m, ops, [Code(value)])
    ensures Writes(config, m, ops + [Append], RawPieces(config, value))
  {
    var m1 := Run(config, m, ops).value;
    assert m1.inlineStack == [Code(value)];
    AppendsCode(config, m1, value);
    RunAppend(config, m, ops, [Append]);
    RunOne(config, m1, Append);
    WriteFrame(config, m, m1.(inlineStack := []), RawPieces(config, value));
  }

  lemma {:induction false} EscapesCode(config: Config, m: Machine, value: JsExpr)
    requires m.inlineStack == [Code(value)]
    ensures Step(config, m, AppendEscaped)
         == Some(Write(config, m.(inlineStack := []), [LinePiece(AppendLine(config, Escape(value)))]))
  {
    assert Init(m.inlineStack) == [];
    WriteOne(config, m.(inlineStack := []), AppendLine(config, Escape(value)));
    hide Write, PushSource, AppendLine;
  }

  lemma {:induction false} EscapesCall(config: Config, m: Machine, ops: seq<Opcode>, value: JsExpr)
    requires m.inlineStack == [] && Pushes(config, m, ops, [Code(value)])
    ensures Writes(config, m, ops + [AppendEscaped], [LinePiece(AppendLine(config, Escape(value)))])
  {
    var m1 := Run(config, m, ops).value;
    assert m1.inlineStack == [Code(value)];
    EscapesCode(config, m1, value);
    RunAppend(config, m, ops, [AppendEscaped]);
    RunOne(config, m1, AppendEscaped);
    hide Run, Step, Write;
    WriteFrame(config, m, m1.(inlineStack := []), [LinePiece(AppendLine(config, Escape(value)))]);
  }

  lemma {:induction false} MustacheWrites(config: Config, scope: Scope, m: Machine, s: Statement, guid: nat)
    requires AtStatement(config, scope, m) && s.MustacheStatement? && OwnFits(scope, s)
    ensures Writes(config, m, EmitStatement(scope, s, guid).opcodes, StatementPieces(config, scope, s, guid))
  {
    hide EmitCall, CallCode, Classify, Pushes, Writes;
    var ops := EmitCall(scope, s.call, false, None, None);
    var code := CallCode(config, scope, s.call, false, None, None);
    CallPushes(config, scope, m, s.call, false, None, None);
    if s.escaped && !scope.flags.noEscape {
      EscapesCall(config, m, ops, code);
    } else {
      AppendsCall(config, m, ops, code);
    }
  }

  /** The programs and an empty hash, pushed for a call without parameters. */
  lemma {:induction false} BlockPushes(config: Config, m: Machine, p: Option<nat>, i: Option<nat>)
    ensures Run(config, m, [PushProgram(p), PushProgram(i), EmptyHash(false)])
         == Some(m.(inlineStack := m.inlineStack + ([Lit(ProgramExpr(config, p)), Lit(ProgramExpr(config, i))] + Entries(NoHash(config)))))
  {
    var m1 := PushLit(PushLit(m, ProgramExpr(config, p)), ProgramExpr(config, i));
    var lead := [PushProgram(p), PushProgram(i)];
    EmptyHashPushes(config, m1, false);
    RunOne(config, m1, EmptyHash(false));
    RunAppend(config, m, lead, [EmptyHash(false)]);
    assert [PushProgram(p), PushProgram(i), EmptyHash(false)] == lead + [EmptyHash(false)];
    assert lead[1..] == [PushProgram(i)];
    RunOne(config, PushLit(m, ProgramExpr(config, p)), PushProgram(i));
    hide HashSlots;
    assert m1.inlineStack + Entries(NoHash(config))
        == m.inlineStack + ([Lit(ProgramExpr(config, p)), Lit(ProgramExpr(config, i))] + Entries(NoHash(config)));
  }

  lemma {:induction false} PopsBlock(config: Config, m: Machine, value: Entry, name: string, p: Option<nat>, i: Option<nat>)
    requires m.inlineStack == [value]
    ensures var r := Run(config, m, [PushProgram(p), PushProgram(i), EmptyHash(false)]);
            && r.Some? && SetupParams(config, r.value, name, 0)
                       == Some(Setup([], OptionsFor(config, name, [], NoHash(config), p, i), m))
  {
    BlockPushes(config, m, p, i);
    hide Run, SetupParams, HashSlots;
    var none: seq<Slots> := [];
    assert AllEntries(none) == [] && AllValues(none) == [];
    var pushed := [Lit(ProgramExpr(config, p)), Lit(ProgramExpr(config, i))] + Entries(NoHash(config));
    var m2 := m.(inlineStack := m.inlineStack + pushed);
    Inserted([value], AllEntries(none), [Lit(ProgramExpr(config, p)), Lit(ProgramExpr(config, i))], Entries(NoHash(config)));
    SetsUp(config, m2, m.inlineStack, name, none, NoHash(config), p, i);
    assert m2.(inlineStack := m.inlineStack) == m;
  }

  lemma {:induction false} Inserted(a: seq<Entry>, b: seq<Entry>, c: seq<Entry>, d: seq<Entry>)
    requires b == []
    ensures a + (c + d) == a + b + c + d
  {
  }

  lemma {:induction false} SimpleBlockWrites(config: Config, scope: Scope, m: Machine, call: Call, p: Option<nat>, i: Option<nat>)
    requires AtStatement(config, scope, m) && Classify(scope, call, false).SimpleKind?
    ensures Writes(config, m, EmitCall(scope, call, false, p, i) + BlockTail(scope, call, p, i) + [Append],
                   BlockPieces(config, scope, call, p, i))
  {
    hide EmitCall, CallCode, OptionsFor, SetupParams;
    var ops := EmitCall(scope, call, false, p, i);
    var code := CallCode(config, scope, call, false, p, i);
    CallPushes(config, scope, m, call, false, p, i);
    var m1 := Run(config, m, ops).value;
    assert m1.inlineStack == [Code(code)];
    var name := call.path.original;
    PopsBlock(config, m1, Code(code), name, p, i);
    var programs := [PushProgram(p), PushProgram(i), EmptyHash(false)];
    var m2 := Run(config, m1, programs).value;
    assert Init(m1.inlineStack) == [];
    RunOne(config, m2, BlockValue(name));
    RunAppend(config, m1, programs, [BlockValue(name)]);
    assert BlockTail(scope, call, p, i) == programs + [BlockValue(name)];
    RunAppend(config, m, ops, BlockTail(scope, call, p, i));
    var value := InvokeMissing(code, OptionsFor(config, name, [], NoHash(config), p, i));
    assert Pushes(config, m, ops + BlockTail(scope, call, p, i), [Code(value)]);
    AppendsCall(config, m, ops + BlockTail(scope, call, p, i), value);
  }

  /** The state after an ambiguous block whose value `code` was the one inline entry. */
  function AmbiguousResult(config: Config, m: Machine, code: JsExpr): Machine {
    var m1 := PushSource(config, m, Assign(1, code)).(inlineStack := [], compileStack := [], stackSlot := 0,
                                                      stackVars := Max(m.stackVars, 1));
    var m2 := PushSource(config, m1, UnlessHelper(m.lastHelper, Temp(1), InvokeMissing(Temp(1), OptionsVar)));
    if config.isSimple then PushSource(config, PushSource(config, m2, ReturnIf(Temp(1))), ElseReturnEmpty)
    else PushSource(config, m2, AppendIf(Temp(1)))
  }

  lemma {:induction false} AppendsTemp(config: Config, m: Machine)
    requires m.inlineStack == [] && m.compileStack == [Code(Temp(1))] && m.stackSlot == 1
    ensures var m1 := m.(compileStack := [], stackSlot := 0);
            AppendOp(config, m) == Some(
              if config.isSimple then PushSource(config, PushSource(config, m1, ReturnIf(Temp(1))), ElseReturnEmpty)
              else PushSource(config, m1, AppendIf(Temp(1))))
  {
    assert Init(m.compileStack) == [];
  }

  lemma {:induction false} AmbiguousTail(config: Config, m: Machine, code: JsExpr, p: Option<nat>, i: Option<nat>)
    requires Flat(m) && m.inlineStack == [Code(code)]
    ensures Run(config, m, [PushProgram(p), PushProgram(i), EmptyHash(false), AmbiguousBlockValue, Append])
         == Some(AmbiguousResult(config, m, code))
  {
    hide OptionsFor, Step, Run, SetupParams, AmbiguousResult;
    PopsBlock(config, m, Code(code), "", p, i);
    var programs := [PushProgram(p), PushProgram(i), EmptyHash(false)];
    var m2 := Run(config, m, programs).value;
    RunOne(config, m2, AmbiguousBlockValue);
    var m4 := FlushesBlock(config, m2, m, code);
    RunOne(config, m4, Append);
    RunAppend(config, m, programs, [AmbiguousBlockValue]);
    RunAppend(config, m, programs + [AmbiguousBlockValue], [Append]);
    assert programs + [AmbiguousBlockValue] + [Append] == [PushProgram(p), PushProgram(i), EmptyHash(false), AmbiguousBlockValue, Append];
  }

  lemma {:induction false} FlushesBlock(config: Config, m2: Machine, m: Machine, code: JsExpr) returns (m4: Machine)
    requires Flat(m) && m.inlineStack == [Code(code)]
    requires SetupParams(config, m2, "", 0).Some? && SetupParams(config, m2, "", 0).value.rest == m
    ensures Step(config, m2, AmbiguousBlockValue) == Some(m4)
    ensures Step(config, m4, Append) == Some(AmbiguousResult(config, m, code))
  {
    hide OptionsFor, SetupParams, FlushInline;
    FlushOne(config, m, code);
    var m3 := FlushInline(config, m);
    m4 := PushSource(config, m3, UnlessHelper(m.lastHelper, Temp(1), InvokeMissing(Temp(1), OptionsVar)));
    assert TopStack(m3) == Some(Temp(1));
    AppendsTemp(config, m4);
  }

  lemma {:induction false} AmbiguousBlockWrites(config: Config, scope: Scope, m: Machine, call: Call, p: Option<nat>, i: Option<nat>)
    requires AtStatement(config, scope, m) && Classify(scope, call, false).AmbiguousKind?
    ensures Writes(config, m, EmitCall(scope, call, false, p, i) + BlockTail(scope, call, p, i) + [Append],
                   BlockPieces(config, scope, call, p, i))
  {
    hide EmitCall, CallCode, Run, BlockPieces;
    var ops := EmitCall(scope, call, false, p, i);
    var code := CallCode(config, scope, call, false, p, i);
    CallPushes(config, scope, m, call, false, p, i);
    var m1 := Run(config, m, ops).value;
    assert m1.inlineStack == [Code(code)];
    var tail := [PushProgram(p), PushProgram(i), EmptyHash(false), AmbiguousBlockValue, Append];
    AmbiguousTail(config, m1, code, p, i);
    RunAppend(config, m, ops, tail);
    assert ops + BlockTail(scope, call, p, i) + [Append] == ops + tail;
    AmbiguousPiecesWritten(config, scope, m, m1, call, p, i);
  }

  lemma {:induction false} FlushOne(config: Config, m: Machine, code: JsExpr)
    requires Flat(m) && m.inlineStack == [Code(code)]
    ensures FlushInline(config, m)
         == PushSource(config, m, Assign(1, code)).(inlineStack := [], compileStack := [Code(Temp(1))], stackSlot := 1,
                                                    stackVars := Max(m.stackVars, 1))
  {
    var entries := m.inlineStack;
    var m1 := IncrStack(m.(inlineStack := []));
    var m2 := PushSource(config, m1, Assign(1, code));
    assert entries[1..] == [];
    assert FlushEntries(config, m2.(compileStack := m2.compileStack + [Code(Temp(1))]), [])
        == m2.(compileStack := [Code(Temp(1))]);
  }

  lemma {:induction false} AmbiguousPiecesWritten(config: Config, scope: Scope, m: Machine, m1: Machine, call: Call, p: Option<nat>, i: Option<nat>)
    requires Classify(scope, call, false).AmbiguousKind?
    requires Flat(m) && m.inlineStack == []
    requires Quiet(m, m1, [Code(CallCode(config, scope, call, false, p, i))]) && m1.lastHelper == Helper(call.path.parts[0])
    ensures Settled(Write(config, m, BlockPieces(config, scope, call, p, i)),
                    AmbiguousResult(config, m1, CallCode(config, scope, call, false, p, i)))
  {
    hide CallCode, OptionsFor;
    var code := CallCode(config, scope, call, false, p, i);
    var lead := [LinePiece(Assign(1, code)),
                 LinePiece(UnlessHelper(Helper(call.path.parts[0]), Temp(1), InvokeMissing(Temp(1), OptionsVar)))];
    var w1 := PushSource(config, m, lead[0].line);
    var w2 := PushSource(config, w1, lead[1].line);
    assert lead[1..] == [lead[1]];
    WriteOne(config, w1, lead[1].line);
    assert Write(config, m, lead) == w2;
    if config.isSimple {
      var tail := [LinePiece(ReturnIf(Temp(1))), LinePiece(ElseReturnEmpty)];
      assert tail[1..] == [LinePiece(ElseReturnEmpty)];
      WriteOne(config, PushSource(config, w2, ReturnIf(Temp(1))), ElseReturnEmpty);
      WriteAppend(config, m, lead, tail);
    } else {
      WriteOne(config, w2, AppendIf(Temp(1)));
      WriteAppend(config, m, lead, [LinePiece(AppendIf(Temp(1)))]);
    }
  }

  lemma {:induction false} BlockWrites(config: Config, scope: Scope, m: Machine, call: Call, p: Option<nat>, i: Option<nat>)
    requires AtStatement(config, scope, m) && CallFits(scope, call, false)
    ensures Writes(config, m, EmitCall(scope, call, false, p, i) + BlockTail(scope, call, p, i) + [Append],
                   BlockPieces(config, scope, call, p, i))
  {
    match Classify(scope, call, false)
    case SimpleKind => SimpleBlockWrites(config, scope, m, call, p, i);
    case AmbiguousKind => AmbiguousBlockWrites(config, scope, m, call, p, i);
    case HelperKind =>
      hide EmitCall, CallCode;
      CallPushes(config, scope, m, call, false, p, i);
      AppendsCall(config, m, EmitCall(scope, call, false, p, i), CallCode(config, scope, call, false, p, i));
      assert BlockTail(scope, call, p, i) == [];
      assert EmitCall(scope, call, false, p, i) + [] == EmitCall(scope, call, false, p, i);
  }

  lemma {:induction false} InvokesPartial(config: Config, m: Machine, base: seq<Entry>, op: Opcode, params: seq<Slots>, hash: Slots,
                                          block: Option<nat>)
    requires op.InvokePartial? && |params| == 1 && Sized(config, params[0]) && Sized(config, hash)
    requires if op.dynamic then |base| == 1 else base == []
    requires m.inlineStack == base + CallStack(config, params, hash, block, None)
    ensures Step(config, m, op)
         == Some(PushCode(m.(inlineStack := []),
                          PartialOf(if op.dynamic then base[0].expr else NamedPartial(op.name), params[0].value.expr,
                                    OptionsFor(config, op.name, params, hash, block, None), op.indent)))
  {
    hide SetupParams, AllEntries, OptionsFor, Entries;
    assert m.inlineStack == base + AllEntries(params) + [Lit(ProgramExpr(config, block)), Lit(ProgramExpr(config, None))] + Entries(hash);
    SetsUp(config, m, base, op.name, params, hash, block, None);
    assert AllValues(params)[0] == params[0].value.expr;
    if op.dynamic {
      assert Init(base) == [];
    }
  }

  function NameEntries(config: Config, scope: Scope, name: PartialName): seq<Entry> {
    if name.StaticName? then [] else [NameEntry(config, scope, name)]
  }

  lemma {:induction false} NamePushes(config: Config, scope: Scope, m: Machine, name: PartialName)
    requires Ready(config, scope, m) && (name.DynamicName? ==> CallFits(scope, name.expr, true))
    ensures Pushes(config, m, PartialNameCode(scope, name), NameEntries(config, scope, name))
  {
    if name.DynamicName? {
      CallPushes(config, scope, m, name.expr, true, None, None);
    } else {
      assert m.inlineStack + [] == m.inlineStack;
    }
  }

  function PrefixEntries(scope: Scope, args: Args): seq<Entry> {
    if NoContext(scope, args) then [Lit(Constant(UndefinedLiteral))] else []
  }

  lemma {:induction false} PrefixPushes(config: Config, scope: Scope, m: Machine, args: Args)
    ensures Pushes(config, m, PartialPrefix(scope, args), PrefixEntries(scope, args))
  {
    RunOne(config, m, PushLiteral(UndefinedLiteral));
    assert m.inlineStack + [] == m.inlineStack;
  }

  /** The opcodes of a partial up to its invocation. */
  function PartialSetup(scope: Scope, s: Statement, block: Option<nat>): seq<Opcode>
    requires s.PartialStatement?
  {
    PartialPrefix(scope, s.args) + PartialNameCode(scope, s.name) + EmitSetup(scope, PartialArgs(scope.flags, s.args), block, None, true)
  }

  /** What they leave on the stack. */
  function PartialStack(config: Config, scope: Scope, s: Statement, block: Option<nat>): seq<Entry>
    requires s.PartialStatement?
  {
    PrefixEntries(scope, s.args) + NameEntries(config, scope, s.name)
    + CallStack(config, ParamsSlots(config, scope, PartialArgs(scope.flags, s.args).params), HashSlots(config, scope, s.args.hash, true), block, None)
  }

  lemma {:induction false} PartialSetsUp(config: Config, scope: Scope, m: Machine, s: Statement, block: Option<nat>)
    requires AtStatement(config, scope, m) && s.PartialStatement?
    requires (s.name.DynamicName? ==> CallFits(scope, s.name.expr, true)) && ArgsFit(scope, PartialArgs(scope.flags, s.args))
    ensures Pushes(config, m, PartialSetup(scope, s, block), PartialStack(config, scope, s, block))
    ensures var params := PartialArgs(scope.flags, s.args).params;
            && Sized(config, HashSlots(config, scope, s.args.hash, true))
            && forall i :: 0 <= i < |params| ==> Sized(config, ParamsSlots(config, scope, params)[i])
  {
    hide EmitCall, CallCode, EmitSetup, HashSlots, ParamsSlots, AllEntries, Entries, Run, Step, PartialNameCode, PartialPrefix, Sized;
    var args, prefix, nameOps := PartialArgs(scope.flags, s.args), PartialPrefix(scope, s.args), PartialNameCode(scope, s.name);
    PrefixPushes(config, scope, m, s.args);
    NamePushes(config, scope, Run(config, m, prefix).value, s.name);
    PushesAppend(config, m, prefix, PrefixEntries(scope, s.args), nameOps, NameEntries(config, scope, s.name));
    SetupPushes(config, scope, Run(config, m, prefix + nameOps).value, args, block, None, true);
    PushesAppend(config, m, prefix + nameOps, PrefixEntries(scope, s.args) + NameEntries(config, scope, s.name),
                 EmitSetup(scope, args, block, None, true),
                 CallStack(config, ParamsSlots(config, scope, args.params), HashSlots(config, scope, args.hash, true), block, None));
  }

  /** The stack seen by the invocation: the name, if it is dynamic and not taken for the context, and one parameter. */
  lemma {:induction false} PartialStackIs(config: Config, scope: Scope, s: Statement, block: Option<nat>)
    requires s.PartialStatement? && PartialFits(scope, s) && Supported(s)
    ensures var base := if s.name.StaticName? then [] else if NoContext(scope, s.args) then PrefixEntries(scope, s.args) else NameEntries(config, scope, s.name);
            PartialStack(config, scope, s, block)
            == base + CallStack(config, [PartialContext(config, scope, s)], HashSlots(config, scope, s.args.hash, true), block, None)
  {
    var args := PartialArgs(scope.flags, s.args);
    var params := ParamsSlots(config, scope, args.params);
    var context := PartialContext(config, scope, s);
    assert !NoContext(scope, s.args) ==> |params| == 1 && params == [context];
    assert NoContext(scope, s.args) ==> params == [];
    hide CallCode, HashSlots, OptionsFor, ParamSlots, ParamsSlots, PartialFits, Supported, Fits, CallStack;
    if NoContext(scope, s.args) {
      ContextStack(config, context, HashSlots(config, scope, s.args.hash, true), block);
      assert s.name.StaticName? ==> NameEntries(config, scope, s.name) == [];
    } else {
      hide NameEntries;
      assert params == [context] && PrefixEntries(scope, s.args) == [];
    }
  }

  lemma {:induction false} ContextStack(config: Config, context: Slots, hash: Slots, block: Option<nat>)
    requires context.ids == [] && context.types == [] && context.contexts == []
    ensures CallStack(config, [context], hash, block, None) == [context.value] + CallStack(config, [], hash, block, None)
  {
    assert [context][1..] == [] && AllEntries([context]) == Entries(context) == [context.value];
  }

  lemma {:induction false} PartialPushes(config: Config, scope: Scope, m: Machine, s: Statement, block: Option<nat>)
    requires AtStatement(config, scope, m) && s.PartialStatement? && PartialFits(scope, s) && Supported(s)
    ensures Pushes(config, m, PartialSetup(scope, s, block) + [PartialInvocation(s)], [Code(PartialCode(config, scope, s, block))])
  {
    PartialSetsUp(config, scope, m, s, block);
    PartialStackIs(config, scope, s, block);
    ContextSized(config, scope, s);
    hide PartialSetup, PartialStack, CallCode, HashSlots, ParamsSlots, CallStack, OptionsFor, Run, Step, Sized;
    var op, context, hash := PartialInvocation(s), PartialContext(config, scope, s), HashSlots(config, scope, s.args.hash, true);
    var m1 := Run(config, m, PartialSetup(scope, s, block)).value;
    var base := if s.name.StaticName? then [] else if NoContext(scope, s.args) then PrefixEntries(scope, s.args) else NameEntries(config, scope, s.name);
    assert m1.inlineStack == base + CallStack(config, [context], hash, block, None);
    InvokesPartial(config, m1, base, op, [context], hash, block);
    RunOne(config, m1, op);
    RunAppend(config, m, PartialSetup(scope, s, block), [op]);
  }

  lemma {:induction false} ContextSized(config: Config, scope: Scope, s: Statement)
    requires s.PartialStatement? && PartialFits(scope, s) && Supported(s) && Plain(config, scope)
    requires var params := PartialArgs(scope.flags, s.args).params;
             forall i :: 0 <= i < |params| ==> Sized(config, ParamsSlots(config, scope, params)[i])
    ensures Sized(config, PartialContext(config, scope, s))
  {
    hide CallCode, ParamsSlots;
  }

  lemma {:induction false} PartialWrites(config: Config, scope: Scope, m: Machine, s: Statement, block: Option<nat>)
    requires AtStatement(config, scope, m) && s.PartialStatement? && PartialFits(scope, s) && Supported(s)
    ensures Writes(config, m, EmitPartial(scope, s, block), RawPieces(config, PartialCode(config, scope, s, block)))
  {
    hide EmitSetup, PartialCode, Run, PartialNameCode, PartialPrefix;
    var ops := PartialSetup(scope, s, block);
    PartialPushes(config, scope, m, s, block);
    AppendsCall(config, m, ops + [PartialInvocation(s)], PartialCode(config, scope, s, block));
    assert EmitPartial(scope, s, block) == ops + [PartialInvocation(s)] + [Append];
  }

  lemma {:induction false} DecoratorWrites(config: Config, scope: Scope, m: Machine, call: Call, block: Option<nat>)
    requires AtStatement(config, scope, m) && ArgsFit(scope, call.args)
    ensures Writes(config, m, EmitSetup(scope, call.args, block, None, false)
                              + [RegisterDecorator(|call.args.params|, call.path.original)], [])
  {
    hide EmitSetup, HashSlots, SetupParams, AllEntries, OptionsFor, Entries;
    var setup := EmitSetup(scope, call.args, block, None, false);
    SetupPushes(config, scope, m, call.args, block, None, false);
    var m1 := Run(config, m, setup).value;
    var op := RegisterDecorator(|call.args.params|, call.path.original);
    SetsUp(config, m1, [], call.path.original, ParamsSlots(config, scope, call.args.params),
           HashSlots(config, scope, call.args.hash, false), block, None);
    RunAppend(config, m, setup, [op]);
    RunOne(config, m1, op);
  }

  lemma {:induction false} StatementWrites(config: Config, scope: Scope, m: Machine, s: Statement, guid: nat)
    requires AtStatement(config, scope, m) && OwnFits(scope, s) && Supported(s)
    ensures Writes(config, m, EmitStatement(scope, s, guid).opcodes, StatementPieces(config, scope, s, guid))
  {
    match s
    case ContentStatement(value) =>
      if value != "" {
        RunOne(config, m, AppendContent(value));
        var pieces := [TextPiece(value)];
        assert pieces[1..] == [];
        assert Write(config, m.(pending := m.pending + value), []) == m.(pending := m.pending + value);
      }
    case CommentStatement =>
    case MustacheStatement(_, _) => MustacheWrites(config, scope, m, s, guid);
    case BlockStatement(call, program, inverse) =>
      BlockWrites(config, scope, m, call, Guid(program, guid), Guid(inverse, guid + Count(program)));
    case PartialStatement(_, _, _, block) => PartialWrites(config, scope, m, s, Guid(block, guid));
    case DecoratorStatement(call, block) => DecoratorWrites(config, scope, m, call, Guid(block, guid));
  }

  lemma {:induction false} BodyWrites(config: Config, scope: Scope, m: Machine, body: seq<Statement>, guid: nat)
    requires AtStatement(config, scope, m) && BodyOwnFits(scope, body) && BodySupported(body)
    ensures Writes(config, m, EmitBody(scope, body, guid).opcodes, BodyPieces(config, scope, body, guid))
    decreases |body|
  {
    if body != [] {
      hide EmitStatement, StatementPieces;
      var first := EmitStatement(scope, body[0], guid);
      var next := guid + |first.children|;
      StatementWrites(config, scope, m, body[0], guid);
      var m1 := Run(config, m, first.opcodes).value;
      WriteFrame(config, m, m, StatementPieces(config, scope, body[0], guid));
      BodyWrites(config, scope, m1, body[1..], next);
      WritesAppend(config, m, first.opcodes, StatementPieces(config, scope, body[0], guid),
                   EmitBody(scope, body[1..], next).opcodes, BodyPieces(config, scope, body[1..], next));
    }
  }

  /** The lines of a program, written directly. */
  function ProgramLines(config: Config, scope: Scope, body: seq<Statement>): seq<Line>
    requires BodySupported(body)
  {
    Flushed(config, Write(config, Start, BodyPieces(config, scope, body, 0))).source
  }

  /** Stack discipline: code generation for any template whose own calls fit succeeds, with both stacks empty and the
      counter back at 0, and its lines are the direct ones. */
  lemma {:induction false} GenerationSucceeds(config: Config, scope: Scope, program: Program)
    requires config.flags == scope.flags
    requires BodySupported(program.body)
    requires BodyOwnFits(scope.(blockParams := [program.blockParams] + scope.blockParams), program.body)
    ensures var inner := scope.(blockParams := [program.blockParams] + scope.blockParams);
            var r := Generate(config, CompileProgram(scope, program).opcodes);
            && r.Some?
            && r.value.source == ProgramLines(config, inner, program.body)
            && r.value.inlineStack == [] && r.value.compileStack == [] && r.value.stackSlot == 0
            && r.value.hash.None? && r.value.hashes == []
  {
    var inner := scope.(blockParams := [program.blockParams] + scope.blockParams);
    BodyWrites(config, inner, Start, program.body, 0);
    WriteFrame(config, Start, Start, BodyPieces(config, inner, program.body, 0));
  }
}
