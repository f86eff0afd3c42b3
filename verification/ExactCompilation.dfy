/** Exactly which templates compile: what code generation can get through is what fits. */
module ExactCompilation {
  import opened Wrappers
  import opened HandlebarsAst
  import opened HandlebarsCompiler
  import opened JsCode
  import opened CodeMachine
  import opened DirectCode
  import opened StackDiscipline
  import opened StackHeights
  import opened TemplateMeaning

  predicate Runs(config: Config, m: Machine, ops: seq<Opcode>) {
    Run(config, m, ops).Some?
  }

  function After(config: Config, m: Machine, ops: seq<Opcode>): Machine
    requires Runs(config, m, ops)
  {
    Run(config, m, ops).value
  }

  lemma {:induction false} RunsBoth(config: Config, m: Machine, a: seq<Opcode>, b: seq<Opcode>)
    requires Runs(config, m, a + b)
    ensures Runs(config, m, a) && Runs(config, After(config, m, a), b)
  {
    RunAppend(config, m, a, b);
  }

  // ----- expressions that run fit

  lemma {:induction false} RanExprFits(config: Config, scope: Scope, m: Machine, e: Expr)
    requires Ready(config, scope, m) && !BothTracked(scope.flags) && Runs(config, m, EmitExpr(scope, e))
    ensures ExprFits(scope, e)
    decreases e, 0
  {
    if e.SubExpression? {
      RanCallFits(config, scope, m, e.call, true, None, None);
    }
  }

  lemma {:induction false} RanParamFits(config: Config, scope: Scope, m: Machine, e: Expr)
    requires Ready(config, scope, m) && !BothTracked(scope.flags) && Runs(config, m, EmitParam(scope, e))
    ensures ExprFits(scope, e)
    decreases e, 1
  {
    if e.SubExpression? {
      var lead := if scope.flags.stringParams then [GetContext(0), PushStringParam(None, "SubExpression")]
                  else if scope.flags.trackIds then [PushId(SubExpressionId)] else [];
      assert EmitParam(scope, e) == lead + EmitExpr(scope, e);
      RunsBoth(config, m, lead, EmitExpr(scope, e));
      LeadReady(config, scope, m, lead);
      RanExprFits(config, scope, After(config, m, lead), e);
    }
  }

  lemma {:induction false} LeadReady(config: Config, scope: Scope, m: Machine, lead: seq<Opcode>)
    requires Ready(config, scope, m) && Runs(config, m, lead)
    requires lead == [GetContext(0), PushStringParam(None, "SubExpression")] || lead == [PushId(SubExpressionId)] || lead == []
    ensures Ready(config, scope, After(config, m, lead))
  {
    if lead == [GetContext(0), PushStringParam(None, "SubExpression")] {
      var m1 := m.(lastContext := 0);
      assert lead[1..] == [PushStringParam(None, "SubExpression")];
      RunOne(config, m1, PushStringParam(None, "SubExpression"));
    } else if lead != [] {
      RunOne(config, m, lead[0]);
    }
  }

  lemma {:induction false} RanParamsFit(config: Config, scope: Scope, m: Machine, params: seq<Expr>)
    requires Ready(config, scope, m) && !BothTracked(scope.flags) && Runs(config, m, EmitParams(scope, params))
    ensures ParamsFit(scope, params)
    decreases params, 2
  {
    if params != [] {
      var first := EmitParam(scope, params[0]);
      RunsBoth(config, m, first, EmitParams(scope, params[1..]));
      RanParamFits(config, scope, m, params[0]);
      ParamPushes(config, scope, m, params[0]);
      RanParamsFit(config, scope, After(config, m, first), params[1..]);
    }
  }

  lemma {:induction false} RanValuesFit(config: Config, scope: Scope, m: Machine, pairs: seq<Pair>)
    requires Ready(config, scope, m) && !BothTracked(scope.flags) && Runs(config, m, EmitPairs(scope, pairs))
    ensures ValuesFit(scope, pairs)
    decreases pairs, 2
  {
    if pairs != [] {
      var first := EmitParam(scope, pairs[0].value);
      RunsBoth(config, m, first, EmitPairs(scope, pairs[1..]));
      RanParamFits(config, scope, m, pairs[0].value);
      ParamPushes(config, scope, m, pairs[0].value);
      RanValuesFit(config, scope, After(config, m, first), pairs[1..]);
    }
  }

  lemma {:induction false} RanKeysTake(config: Config, m: Machine, base: seq<Entry>, pairs: seq<Pair>, slots: seq<Slots>)
    requires |slots| == |pairs| && Runs(config, m, EmitAssigns(pairs))
    requires forall i :: 0 <= i < |slots| ==> Sized(config, slots[i])
    requires m.inlineStack == base + AllEntries(slots)
    requires m.hash == Some(HashRegister([], [], [], []))
    ensures KeysTake(pairs, slots)
    decreases |pairs|
  {
    if pairs != [] {
      var (first, op) := (slots[0], AssignToHash(pairs[0].key));
      assert base + AllEntries(slots) == base + Entries(first) + AllEntries(slots[1..]);
      RunsBoth(config, m, EmitAssigns(pairs[1..]), [op]);
      RanKeysTake(config, m, base + Entries(first), pairs[1..], slots[1..]);
      AssignsKeys(config, m, base + Entries(first), pairs[1..], slots[1..]);
      var m1 := After(config, m, EmitAssigns(pairs[1..]));
      RunOne(config, m1, op);
      PopsSlots(config, m1, base, first);
      assert KeyTakes(pairs[0].key, first) by {
        hide PopTracked, AllEntries, Entries;
        assert AssignToHashOp(config, m1, pairs[0].key).Some?;
        assert |Exprs(first.ids)| == |first.ids| && |Exprs(first.types)| == |first.types| && |Exprs(first.contexts)| == |first.contexts|;
      }
      forall i | 0 <= i < |pairs| ensures KeyTakes(pairs[i].key, slots[i]) {
        if i > 0 {
          assert KeyTakes(pairs[1..][i - 1].key, slots[1..][i - 1]);
        }
      }
    }
  }

  lemma {:induction false} AssignedKeeps(fields: seq<Field>, key: string, value: JsExpr)
    requires !Printable(fields) || key == "hasOwnProperty"
    ensures !Printable(AssignedField(fields, key, value))
  {
    if key == "length" {
      if LengthOf(value).Some? {
        TruncateKeeps(fields, LengthOf(value).value);
      }
    } else if key != "__proto__" {
      SetKeeps(fields, key, value);
    }
  }

  lemma {:induction false} TruncateKeeps(fields: seq<Field>, length: nat)
    requires !Printable(fields)
    ensures !Printable(Truncate(fields, length))
    decreases |fields|
  {
    var index := ArrayIndex(fields[0].key);
    var head := if index.Some? && index.value >= length then [] else [fields[0]];
    if fields[0].key == "hasOwnProperty" {
      assert !JsValues.IsDigit("hasOwnProperty"[0]);
      assert (head + Truncate(fields[1..], length))[0].key == "hasOwnProperty";
    } else {
      var i :| 0 <= i < |fields| && fields[i].key == "hasOwnProperty";
      assert fields[1..][i - 1] == fields[i];
      TruncateKeeps(fields[1..], length);
      var rest := Truncate(fields[1..], length);
      var j :| 0 <= j < |rest| && rest[j].key == "hasOwnProperty";
      assert (head + rest)[|head| + j] == rest[j];
    }
  }

  lemma {:induction false} SetKeeps(fields: seq<Field>, key: string, value: JsExpr)
    requires !Printable(fields) || key == "hasOwnProperty"
    ensures !Printable(SetField(fields, key, value))
    decreases |fields|
  {
    var r := SetField(fields, key, value);
    if fields == [] || fields[0].key == key {
      if key == "hasOwnProperty" {
        assert r[0].key == key;
      } else {
        var i :| 0 <= i < |fields| && fields[i].key == "hasOwnProperty";
        assert r[i] == fields[i];
      }
    } else if fields[0].key == "hasOwnProperty" {
      assert r[0] == fields[0];
    } else {
      if key != "hasOwnProperty" {
        var i :| 0 <= i < |fields| && fields[i].key == "hasOwnProperty";
        assert fields[1..][i - 1] == fields[i];
      }
      SetKeeps(fields[1..], key, value);
      var rest := SetField(fields[1..], key, value);
      var j :| 0 <= j < |rest| && rest[j].key == "hasOwnProperty";
      assert r[1 + j] == rest[j];
    }
  }

  /** A pair with the key `hasOwnProperty` stays in the register whatever is assigned after it. */
  lemma {:induction false} RegisterKeeps(pairs: seq<Pair>, slots: seq<Slots>, i: nat)
    requires |slots| == |pairs| && i < |pairs| && pairs[i].key == "hasOwnProperty"
    ensures !Printable(Register(pairs, slots).values)
    decreases |pairs|
  {
    var rest := Register(pairs[1..], slots[1..]).values;
    if i > 0 {
      assert pairs[1..][i - 1] == pairs[i];
      RegisterKeeps(pairs[1..], slots[1..], i - 1);
    }
    AssignedKeeps(rest, pairs[0].key, slots[0].value.expr);
  }

  lemma {:induction false} KeysTakenFit(config: Config, scope: Scope, pairs: seq<Pair>)
    requires Plain(config, scope) && !BothTracked(scope.flags)
    requires ValuesFit(scope, pairs) && KeysTake(pairs, PairsSlots(config, scope, pairs))
    requires forall i :: 0 <= i < |pairs| ==> pairs[i].key != "hasOwnProperty"
    ensures PairsFit(scope, pairs)
    decreases |pairs|
  {
    if pairs != [] {
      var slots := PairsSlots(config, scope, pairs);
      assert slots[0] == ParamSlots(config, scope, pairs[0].value) && slots[1..] == PairsSlots(config, scope, pairs[1..]);
      assert KeyTakes(pairs[0].key, slots[0]);
      KeyFitsExactly(config, scope, pairs[0]);
      forall i | 0 <= i < |pairs[1..]| ensures KeyTakes(pairs[1..][i].key, slots[1..][i]) {
        assert KeyTakes(pairs[i + 1].key, slots[i + 1]);
      }
      KeysTakenFit(config, scope, pairs[1..]);
    }
  }

  lemma {:induction false} RanHashFits(config: Config, scope: Scope, m: Machine, hash: seq<Pair>, omitEmpty: bool)
    requires Ready(config, scope, m) && !BothTracked(scope.flags) && Runs(config, m, EmitHash(scope, hash, omitEmpty))
    ensures PairsFit(scope, hash)
    decreases hash, 3
  {
    if hash != [] {
      hide Run, PopHashOp, PairsSlots, EmitPairs, EmitAssigns, Entries, Register, AllEntries, Sized;
      var (open, pairs, assigns) := ([PushHash], EmitPairs(scope, hash), EmitAssigns(hash));
      RunsBoth(config, m, open + pairs + assigns, [PopHash]);
      RunsBoth(config, m, open + pairs, assigns);
      RunsBoth(config, m, open, pairs);
      RunOne(config, m, PushHash);
      var m1 := After(config, m, open);
      RanValuesFit(config, scope, m1, hash);
      PairsPush(config, scope, m1, hash);
      var m2 := After(config, m1, pairs);
      RunAppend(config, m, open, pairs);
      var slots := PairsSlots(config, scope, hash);
      RanKeysTake(config, m2, m.inlineStack, hash, slots);
      AssignsKeys(config, m2, m.inlineStack, hash, slots);
      var m3 := After(config, m2, assigns);
      RunAppend(config, m, open + pairs, assigns);
      RunOne(config, m3, PopHash);
      PoppedPrintable(config, m3);
      if i :| 0 <= i < |hash| && hash[i].key == "hasOwnProperty" {
        RegisterKeeps(hash, slots, i);
        assert false;
      }
      KeysTakenFit(config, scope, hash);
    }
  }

  lemma {:induction false} PoppedPrintable(config: Config, m: Machine)
    requires Step(config, m, PopHash).Some?
    ensures m.hash.Some? && Printable(m.hash.value.values)
  {
  }

  lemma {:induction false} RanSetupFits(config: Config, scope: Scope, m: Machine, args: Args, program: Option<nat>, inverse: Option<nat>,
                                        omitEmpty: bool)
    requires Ready(config, scope, m) && !BothTracked(scope.flags) && Runs(config, m, EmitSetup(scope, args, program, inverse, omitEmpty))
    ensures ArgsFit(scope, args)
    decreases args, 4
  {
    hide Run, EmitHash, EmitParams, ParamsSlots;
    var (params, programs) := (EmitParams(scope, args.params), [PushProgram(program), PushProgram(inverse)]);
    RunsBoth(config, m, params + programs, EmitHash(scope, args.hash, omitEmpty));
    RunsBoth(config, m, params, programs);
    RanParamsFit(config, scope, m, args.params);
    ParamsPush(config, scope, m, args.params);
    var m1 := After(config, m, params);
    ProgramsPush(config, m1, program, inverse);
    RunAppend(config, m, params, programs);
    RanHashFits(config, scope, After(config, m1, programs), args.hash, omitEmpty);
  }

  lemma {:induction false} RanCallFits(config: Config, scope: Scope, m: Machine, call: Call, isSubExpression: bool,
                                       program: Option<nat>, inverse: Option<nat>)
    requires Ready(config, scope, m) && !BothTracked(scope.flags)
    requires Runs(config, m, EmitCall(scope, call, isSubExpression, program, inverse))
    ensures CallFits(scope, call, isSubExpression)
    decreases call, 5
  {
    if Classify(scope, call, isSubExpression).HelperKind? {
      hide EmitSetup, EmitPath;
      var setup := EmitSetup(scope, call.args, program, inverse, false);
      if KnownHelper(scope, call.path) {
        RunsBoth(config, m, setup, [InvokeKnownHelper(|call.args.params|, call.path.parts[0])]);
      } else {
        RunsBoth(config, m, setup, EmitPath(scope, call.path, true, true) + [InvokeHelper(|call.args.params|, call.path.original, SimpleId(call.path))]);
      }
      RanSetupFits(config, scope, m, call.args, program, inverse, false);
    }
  }

  // ----- partials

  /** Setting a call up takes the hash and the programs, and then the parameters from below them. */
  lemma {:induction false} SetupPops(config: Config, m: Machine, below: seq<Entry>, name: string, arity: nat, hash: Slots, p: Entry, i: Entry)
    requires Sized(config, hash) && m.inlineStack == below + [p, i] + Entries(hash)
    ensures var r := SetupParams(config, m, name, arity);
            var popped := PopParams(config, m.(inlineStack := below), arity);
            r.Some? ==> popped.Some? && r.value.rest == popped.value.rest
  {
    PopsSlots(config, m, below + [p, i], hash);
    assert Init(below + [p, i]) == below + [p];
    assert Init(below + [p]) == below;
    hide PopTracked, PopParams, Entries, Sized;
  }

  /** The undefined context has no tracking entries: what is popped for them is not there. */
  lemma {:induction false} NoContextThrows(config: Config, scope: Scope, m: Machine, s: Statement, block: Option<nat>)
    requires AtStatement(config, scope, m) && s.PartialStatement? && NoContext(scope, s.args)
    requires scope.flags.stringParams || scope.flags.trackIds
    requires (s.name.DynamicName? ==> CallFits(scope, s.name.expr, true)) && ArgsFit(scope, s.args)
    ensures Runs(config, m, PartialSetup(scope, s, block))
    ensures Step(config, After(config, m, PartialSetup(scope, s, block)), PartialInvocation(s)).None?
  {
    PartialSetsUp(config, scope, m, s, block);
    var m1 := After(config, m, PartialSetup(scope, s, block));
    var below := PrefixEntries(scope, s.args) + NameEntries(config, scope, s.name);
    var hash := HashSlots(config, scope, s.args.hash, true);
    BelowCall(config, scope, s, block);
    hide *;
    var pair := [Lit(ProgramExpr(config, block)), Lit(ProgramExpr(config, None))];
    assert m1.inlineStack == below + pair + Entries(hash) && m1.compileStack == [] by {
      hide PartialStack, PartialSetup, NameEntries, PrefixEntries, Run;
      assert m.inlineStack == [] && m.compileStack == [];
      assert Quiet(m, m1, PartialStack(config, scope, s, block));
    }
    InvocationThrows(config, m1, below, PartialInvocation(s), hash, pair[0], pair[1]);
  }

  lemma {:induction false} InvocationThrows(config: Config, m: Machine, below: seq<Entry>, op: Opcode, hash: Slots, p: Entry, i: Entry)
    requires config.flags.stringParams || config.flags.trackIds
    requires op.InvokePartial? && |below| == (if op.dynamic then 2 else 1)
    requires Sized(config, hash) && m.inlineStack == below + [p, i] + Entries(hash) && m.compileStack == []
    ensures Step(config, m, op).None?
  {
    SetupPops(config, m, below, op.name, 1, hash, p, i);
    FewEntries(config, m.(inlineStack := below));
    hide SetupParams, PopParams;
  }

  lemma {:induction false} BelowCall(config: Config, scope: Scope, s: Statement, block: Option<nat>)
    requires s.PartialStatement? && NoContext(scope, s.args)
    ensures var below := PrefixEntries(scope, s.args) + NameEntries(config, scope, s.name);
            && |below| == (if s.name.DynamicName? then 2 else 1)
            && PartialStack(config, scope, s, block)
            == below + [Lit(ProgramExpr(config, block)), Lit(ProgramExpr(config, None))] + Entries(HashSlots(config, scope, s.args.hash, true))
  {
    hide HashSlots, NameEntry, Entries;
    assert AllEntries(ParamsSlots(config, scope, [])) == [];
  }

  /** With tracking, a parameter takes at least two entries, so that nothing is left of one or two. */
  lemma {:induction false} FewEntries(config: Config, m: Machine)
    requires config.flags.stringParams || config.flags.trackIds
    requires m.compileStack == []
    ensures |m.inlineStack| == 1 ==> PopParams(config, m, 1).None?
    ensures |m.inlineStack| == 2 ==>
              PopParams(config, m, 1).None? || (PopParams(config, m, 1).value.rest.inlineStack == [] && PopParams(config, m, 1).value.rest.compileStack == [])
  {
    var t := PopTracked(config, m);
    if t.Some? {
      assert PopParams(config, t.value.rest, 0) == Some(Popped([], [], [], [], t.value.rest));
    }
  }

  lemma {:induction false} RanPartialFits(config: Config, scope: Scope, m: Machine, s: Statement, block: Option<nat>)
    requires AtStatement(config, scope, m) && s.PartialStatement? && !BothTracked(scope.flags) && Runs(config, m, EmitPartial(scope, s, block))
    ensures PartialFits(scope, s)
  {
    hide EmitSetup, Run, Step, EmitCall;
    var (prefix, name, args) := (PartialPrefix(scope, s.args), PartialNameCode(scope, s.name), PartialArgs(scope.flags, s.args));
    var setup := EmitSetup(scope, args, block, None, true);
    var (ops, op) := (PartialSetup(scope, s, block), PartialInvocation(s));
    assert EmitPartial(scope, s, block) == prefix + name + setup + [op] + [Append];
    RunsBoth(config, m, prefix + name + setup + [op], [Append]);
    RunsBoth(config, m, prefix + name + setup, [op]);
    RunsBoth(config, m, prefix + name, setup);
    RunsBoth(config, m, prefix, name);
    PrefixPushes(config, scope, m, s.args);
    var m1 := After(config, m, prefix);
    if s.name.DynamicName? {
      RanCallFits(config, scope, m1, s.name.expr, true, None, None);
    }
    NamePushes(config, scope, m1, s.name);
    RunAppend(config, m, prefix, name);
    RanSetupFits(config, scope, After(config, m1, name), args, block, None, true);
    if NoContext(scope, s.args) && (scope.flags.stringParams || scope.flags.trackIds) {
      NoContextThrows(config, scope, m, s, block);
      RunOne(config, After(config, m, ops), op);
      assert false;
    }
  }

  // ----- programs

  lemma {:induction false} RanStatementFits(config: Config, scope: Scope, m: Machine, s: Statement, guid: nat)
    requires AtStatement(config, scope, m) && !BothTracked(scope.flags) && Runs(config, m, EmitStatement(scope, s, guid).opcodes)
    ensures OwnFits(scope, s)
  {
    hide EmitCall, EmitSetup, EmitPartial, BlockTail, Run;
    match s
    case ContentStatement(_) =>
    case CommentStatement =>
    case MustacheStatement(call, escaped) =>
      RunsBoth(config, m, EmitCall(scope, call, false, None, None), [if escaped && !scope.flags.noEscape then AppendEscaped else Append]);
      RanCallFits(config, scope, m, call, false, None, None);
    case BlockStatement(call, program, inverse) =>
      var (p, i) := (Guid(program, guid), Guid(inverse, guid + Count(program)));
      RunsBoth(config, m, EmitCall(scope, call, false, p, i) + BlockTail(scope, call, p, i), [Append]);
      RunsBoth(config, m, EmitCall(scope, call, false, p, i), BlockTail(scope, call, p, i));
      RanCallFits(config, scope, m, call, false, p, i);
    case PartialStatement(_, _, _, block) => RanPartialFits(config, scope, m, s, Guid(block, guid));
    case DecoratorStatement(call, block) =>
      RunsBoth(config, m, EmitSetup(scope, call.args, Guid(block, guid), None, false), [RegisterDecorator(|call.args.params|, call.path.original)]);
      RanSetupFits(config, scope, m, call.args, Guid(block, guid), None, false);
  }

  lemma {:induction false} RanBodyFits(config: Config, scope: Scope, m: Machine, body: seq<Statement>, guid: nat)
    requires AtStatement(config, scope, m) && !BothTracked(scope.flags) && BodySupported(body) && Runs(config, m, EmitBody(scope, body, guid).opcodes)
    ensures BodyOwnFits(scope, body)
    decreases |body|
  {
    if body != [] {
      hide EmitStatement, StatementPieces, OwnFits;
      var first := EmitStatement(scope, body[0], guid);
      var next := guid + |first.children|;
      RunsBoth(config, m, first.opcodes, EmitBody(scope, body[1..], next).opcodes);
      RanStatementFits(config, scope, m, body[0], guid);
      StatementWrites(config, scope, m, body[0], guid);
      WriteFrame(config, m, m, StatementPieces(config, scope, body[0], guid));
      RanBodyFits(config, scope, After(config, m, first.opcodes), body[1..], next);
    }
  }

  lemma {:induction false} NothingLost(scope: Scope, args: Args)
    requires BothTracked(scope.flags)
    ensures Lost(scope, args) == 0 <==> ArgsFit(scope, args)
  {
  }

  lemma {:induction false} StatementLoses(scope: Scope, s: Statement)
    requires BothTracked(scope.flags)
    ensures LostStatement(scope, s) == 0 ==> OwnFits(scope, s)
  {
    hide Lost, ArgsFit;
    match s
    case ContentStatement(_) =>
    case CommentStatement =>
    case MustacheStatement(call, _) => NothingLost(scope, call.args);
    case BlockStatement(call, program, inverse) => NothingLost(scope, call.args);
    case PartialStatement(name, args, _, block) =>
      NothingLost(scope, PartialArgs(scope.flags, args));
      if name.DynamicName? {
        NothingLost(scope, name.expr.args);
      }
    case DecoratorStatement(call, block) => NothingLost(scope, call.args);
  }

  lemma {:induction false} BodyLoses(scope: Scope, body: seq<Statement>)
    requires BothTracked(scope.flags)
    ensures LostBody(scope, body) == 0 ==> BodyOwnFits(scope, body)
    decreases |body|
  {
    if body != [] {
      StatementLoses(scope, body[0]);
      BodyLoses(scope, body[1..]);
    }
  }

  /** Code generation for one program succeeds exactly if its own calls fit: for all options. */
  lemma {:induction false} GeneratesExactly(config: Config, scope: Scope, program: Program)
    requires config.flags == scope.flags && BodySupported(program.body)
    ensures Generate(config, CompileProgram(scope, program).opcodes).Some? <==> BodyOwnFits(Inner(scope, program), program.body)
  {
    var (inner, ops) := (Inner(scope, program), CompileProgram(scope, program).opcodes);
    if BodyOwnFits(inner, program.body) {
      GenerationSucceeds(config, scope, program);
    } else if Generate(config, ops).Some? {
      if BothTracked(scope.flags) {
        RunHeight(config, Start, ops);
        BodySum(inner, program.body, 0);
        BodyLoses(inner, program.body);
        hide Run, Raised, LostBody, EmitBody;
      } else {
        RanBodyFits(config, inner, Start, program.body, 0);
      }
      assert false;
    }
  }

  // ----- templates with their nested programs

  lemma {:induction false} BuildAllSplit(flags: Flags, a: seq<Environment>, b: seq<Environment>)
    requires BuildAll(flags, a + b).Some?
    ensures BuildAll(flags, a).Some? && BuildAll(flags, b).Some?
    decreases |a|
  {
    hide Build;
    if a == [] {
      assert a + b == b;
    } else {
      assert (a + b)[1..] == a[1..] + b;
      BuildAllSplit(flags, a[1..], b);
    }
  }

  lemma {:induction false} BuiltStatementFits(flags: Flags, scope: Scope, s: Statement, guid: nat)
    requires scope.flags == flags && Supported(s) && OwnFits(scope, s)
    requires BuildAll(flags, EmitStatement(scope, s, guid).children).Some?
    ensures Fits(scope, s)
    decreases s, 0
  {
    hide Build, EmitCall, EmitSetup, EmitPartial, BlockTail, CompileProgram, OwnFits;
    match s
    case BlockStatement(_, program, inverse) =>
      BuildAllSplit(flags, CompileChild(scope, program), CompileChild(scope, inverse));
      BuiltChildFits(flags, scope, program);
      BuiltChildFits(flags, scope, inverse);
    case PartialStatement(_, _, _, block) => BuiltChildFits(flags, scope, block);
    case DecoratorStatement(_, block) => BuiltChildFits(flags, scope, block);
    case _ =>
  }

  lemma {:induction false} BuiltChildFits(flags: Flags, scope: Scope, child: Child)
    requires scope.flags == flags && ChildSupported(child) && BuildAll(flags, CompileChild(scope, child)).Some?
    ensures ChildFits(scope, child)
    decreases child, 3
  {
    if child.Present? {
      var es := [CompileProgram(scope, child.program)];
      assert es[0] == CompileProgram(scope, child.program);
      assert Build(flags, es[0]).Some?;
      BuiltFits(flags, scope, child.program);
    }
  }

  lemma {:induction false} BuiltBodyFits(flags: Flags, scope: Scope, body: seq<Statement>, guid: nat)
    requires scope.flags == flags && BodySupported(body) && BodyOwnFits(scope, body)
    requires BuildAll(flags, EmitBody(scope, body, guid).children).Some?
    ensures BodyFits(scope, body)
    decreases body, 1
  {
    hide BuildAll, EmitStatement;
    if body != [] {
      var first := EmitStatement(scope, body[0], guid).children;
      BuildAllSplit(flags, first, EmitBody(scope, body[1..], guid + |first|).children);
      BuiltStatementFits(flags, scope, body[0], guid);
      BuiltBodyFits(flags, scope, body[1..], guid + |first|);
    }
  }

  lemma {:induction false} BuiltFits(flags: Flags, scope: Scope, program: Program)
    requires scope.flags == flags && BodySupported(program.body) && Build(flags, CompileProgram(scope, program)).Some?
    ensures BodyFits(Inner(scope, program), program.body)
    decreases program, 2
  {
    var e := CompileProgram(scope, program);
    GeneratesExactly(Config(flags, e.isSimple, EnvDepths(e)), scope, program);
    hide BuildAll, Generate, EmitBody;
    BuiltBodyFits(flags, Inner(scope, program), program.body, 0);
  }

  /** Under all options a template compiles exactly if every call in it fits, in nested programs too. */
  lemma {:induction false} CompilesExactly(flags: Flags, scope: Scope, program: Program)
    requires scope.flags == flags && BodySupported(program.body)
    ensures Build(flags, CompileProgram(scope, program)).Some? <==> BodyFits(Inner(scope, program), program.body)
  {
    if BodyFits(Inner(scope, program), program.body) {
      BuildSucceeds(flags, scope, program);
    } else if Build(flags, CompileProgram(scope, program)).Some? {
      BuiltFits(flags, scope, program);
    }
  }
}
