/** Compiler correctness: running the compiled template gives the text that the tree means. */
module TemplateMeaning {
  import opened Wrappers
  import opened HandlebarsAst
  import opened HandlebarsCompiler
  import opened JsCode
  import opened JsValues
  import opened CodeMachine
  import opened DirectCode
  import opened StackDiscipline
  import opened TemplateSemantics
  import opened Execution
  import opened ExpressionMeaning
  import opened BufferMerging
  import opened ProgramTable

  // ----- building templates

  /** Whether the code generator turns the depths on for an environment. */
  predicate EnvDepths(e: Environment) {
    e.useDepths || e.useDecorators || exists i :: 0 <= i < |e.children| && EnvDepths(e.children[i])
  }

  function Build(flags: Flags, e: Environment): Option<Template>
    decreases e, 0
  {
    var children :- BuildAll(flags, e.children);
    var m :- Generate(Config(flags, e.isSimple, EnvDepths(e)), e.opcodes);
    Some(Template(Merge(m.source, e.isSimple), children))
  }

  function BuildAll(flags: Flags, es: seq<Environment>): Option<seq<Template>>
    decreases es, 0
  {
    if es == [] then Some([])
    else
      var first :- Build(flags, es[0]);
      var rest :- BuildAll(flags, es[1..]);
      Some([first] + rest)
  }

  lemma {:induction false} BuildAllAt(flags: Flags, es: seq<Environment>, i: nat)
    requires BuildAll(flags, es).Some? && i < |es|
    ensures |BuildAll(flags, es).value| == |es|
    ensures Build(flags, es[i]) == Some(BuildAll(flags, es).value[i])
    decreases |es|
  {
    var first, rest := Build(flags, es[0]).value, BuildAll(flags, es[1..]).value;
    if es[1..] == [] {
      assert rest == [];
    } else {
      BuildAllAt(flags, es[1..], if i == 0 then 0 else i - 1);
      assert i > 0 ==> es[1..][i - 1] == es[i];
    }
  }

  function Inner(scope: Scope, program: Program): Scope {
    scope.(blockParams := [program.blockParams] + scope.blockParams)
  }

  lemma {:induction false} BasicSupported(body: seq<Statement>)
    requires BasicBody(body)
    ensures BodySupported(body)
    decreases body, 1
  {
    if body != [] {
      BasicStatementSupported(body[0]);
      BasicSupported(body[1..]);
    }
  }

  lemma {:induction false} BasicStatementSupported(s: Statement)
    requires Basic(s)
    ensures Supported(s)
    decreases s, 0
  {
    if MainOf(s).Present? {
      BasicSupported(MainOf(s).program.body);
    }
    if InverseOf(s).Present? {
      BasicSupported(InverseOf(s).program.body);
    }
  }

  lemma {:induction false} FitOwn(scope: Scope, body: seq<Statement>)
    requires BodyFits(scope, body)
    ensures BodyOwnFits(scope, body)
    decreases |body|
  {
    if body != [] {
      FitOwn(scope, body[1..]);
    }
  }

  /** The depth flag of an environment already covers its nested programs. */
  lemma {:induction false} DepthsCovered(scope: Scope, program: Program)
    requires BasicBody(program.body)
    ensures var e := CompileProgram(scope, program);
            EnvDepths(e) == e.useDepths
    decreases program, 2
  {
    var inner := Inner(scope, program);
    var e := CompileProgram(scope, program);
    NoDecorator(program.body);
    forall i | 0 <= i < |e.children| && EnvDepths(e.children[i]) ensures e.useDepths {
      BodyCovered(inner, program.body, 0, i);
    }
  }

  lemma {:induction false} NoDecorator(body: seq<Statement>)
    requires BasicBody(body)
    ensures !HasDecorator(body)
    decreases |body|
  {
    if body != [] {
      NoDecorator(body[1..]);
    }
  }

  lemma {:induction false} BodyCovered(scope: Scope, body: seq<Statement>, guid: nat, i: nat)
    requires BasicBody(body)
    requires i < |EmitBody(scope, body, guid).children| && EnvDepths(EmitBody(scope, body, guid).children[i])
    ensures BodyUsesDepths(scope, body)
    decreases body, 1
  {
    var first := EmitStatement(scope, body[0], guid).children;
    if i < |first| {
      StatementCovered(scope, body[0], guid, i);
    } else {
      BodyCovered(scope, body[1..], guid + |first|, i - |first|);
    }
  }

  lemma {:induction false} StatementCovered(scope: Scope, s: Statement, guid: nat, i: nat)
    requires Basic(s)
    requires i < |EmitStatement(scope, s, guid).children| && EnvDepths(EmitStatement(scope, s, guid).children[i])
    ensures StatementUsesDepths(scope, s)
    decreases s, 1
  {
    match s
    case BlockStatement(_, program, inverse) =>
      if i == 0 && program.Present? {
        ChildCovered(scope, program);
      } else {
        ChildCovered(scope, inverse);
      }
    case PartialStatement(_, _, _, block) => ChildCovered(scope, block);
    case _ =>
  }

  lemma {:induction false} ChildCovered(scope: Scope, child: Child)
    requires BasicChild(child)
    ensures child.Present? ==> |CompileChild(scope, child)| == 1
    ensures child.Absent? ==> CompileChild(scope, child) == []
    ensures child.Present? && EnvDepths(CompileChild(scope, child)[0]) ==> ChildUsesDepths(scope, child)
    decreases child, 1
  {
    if child.Present? {
      DepthsCovered(scope, child.program);
    }
  }

  // ----- in-order running of several lines

  lemma {:induction false} InOrderAppend(w: World, t: Template, env: Env, f: Frame, text: string, a: seq<Line>, b: seq<Line>)
    requires RunInOrder(w, t, env, f, text, a).clean
    ensures var x := RunInOrder(w, t, env, f, text, a);
            RunInOrder(w, t, env, f, text, a + b) == RunInOrder(w, t, env, x.frame, x.text, b)
    decreases |a|
  {
    if a == [] {
      assert a + b == b;
    } else {
      assert (a + b)[1..] == a[1..] + b;
      if a[0].Appended? {
        var r := Eval(w, t, env, f, a[0].value);
        InOrderAppend(w, t, env, r.frame, text + TextOf(w, AsValue(r.item)), a[1..], b);
      } else {
        var flow := RunStatement(w, t, env, f, Str(text), a[0]);
        InOrderAppend(w, t, env, flow.frame, flow.buffer.text, a[1..], b);
      }
    }
  }

  /** What the lines and the pending content of `m` have written. */
  function Progress(w: World, t: Template, env: Env, m: Machine): Written {
    var x := RunInOrder(w, t, env, EmptyFrame, "", m.source);
    x.(text := x.text + m.pending)
  }

  lemma {:induction false} FlushKeepsProgress(w: World, t: Template, env: Env, config: Config, m: Machine)
    requires !config.isSimple && Progress(w, t, env, m).clean
    ensures Progress(w, t, env, Flushed(config, m)) == Progress(w, t, env, m)
    ensures Flushed(config, m).pending == ""
  {
    if m.pending != "" {
      var x := RunInOrder(w, t, env, EmptyFrame, "", m.source);
      var line := Appended(Constant(TextLiteral(m.pending)));
      InOrderAppend(w, t, env, EmptyFrame, "", m.source, [line]);
      InOrderOne(w, t, env, x.frame, x.text, line);
      assert x.text + m.pending + "" == x.text + m.pending;
    }
  }

  lemma {:induction false} InOrderOne(w: World, t: Template, env: Env, f: Frame, text: string, line: Line)
    ensures var r := RunInOrder(w, t, env, f, text, [line]);
            if line.Appended? then
              var x := Eval(w, t, env, f, line.value);
              r == Written(x.frame, text + TextOf(w, AsValue(x.item)), AsValue(x.item).Str?)
            else
              var flow := RunStatement(w, t, env, f, Str(text), line);
              r == if flow.Running? && flow.buffer.Str? then Written(flow.frame, flow.buffer.text, true) else Written(f, text, false)
  {
    assert [line][1..] == [];
  }

  /** One more line goes on from the progress made. */
  lemma {:induction false} LineProgress(w: World, t: Template, env: Env, config: Config, m: Machine, line: Line)
    requires !config.isSimple && Progress(w, t, env, m).clean
    ensures var x := Progress(w, t, env, m);
            Progress(w, t, env, PushSource(config, m, line)) == RunInOrder(w, t, env, x.frame, x.text, [line])
  {
    FlushKeepsProgress(w, t, env, config, m);
    var m1 := Flushed(config, m);
    var x1 := RunInOrder(w, t, env, EmptyFrame, "", m1.source);
    assert x1.text + "" == x1.text;
    InOrderAppend(w, t, env, EmptyFrame, "", m1.source, [line]);
    var r := RunInOrder(w, t, env, x1.frame, x1.text, [line]);
    assert r.text + "" == r.text;
  }

  // ----- programs handed to helpers and partials

  /** Blocks and partials hand their programs on. */
  predicate HandsOn(s: Statement) {
    s.BlockStatement? || s.PartialStatement?
  }

  /** The handles of a statement lead to the templates of its programs. */
  predicate Linked(flags: Flags, scope: Scope, s: Statement, guid: nat, t: Template) {
    && (MainOf(s).Present? ==>
          guid < |t.children| && Serves(flags, CompileProgram(scope, MainOf(s).program), t.children[guid]))
    && (InverseOf(s).Present? ==>
          var i := guid + Count(MainOf(s));
          i < |t.children| && Serves(flags, CompileProgram(scope, InverseOf(s).program), t.children[i]))
  }

  /** All that is asked of such a statement: known keys, no block parameters, calls that fit, and enough depths. */
  ghost predicate GoodCaller(config: Config, scope: Scope, s: Statement, guid: nat, t: Template, env: Env, tree: Env) {
    && HandsOn(s) && Default(config, scope) && Matches(config, env, tree)
    && Basic(s) && Fits(scope, s) && (StatementUsesDepths(scope, s) ==> config.useDepths) && Linked(config.flags, scope, s, guid, t)
  }

  lemma {:induction false} HelperMatches(w: World, t: Template, env: Env, tree: Env, config: Config, scope: Scope, s: Statement, guid: nat,
                                         callee: Value, self: Value, args: seq<Value>, o: Options, outputs: seq<Value>)
    requires GoodCaller(config, scope, s, guid, t, env, tree)
    requires var (p, i) := Programs(s, guid); o.program == HandleOf(config, p) && o.inverse == HandleOf(config, i)
    ensures var r := ProgramRun(w, tree, scope, s, callee, self, args, InfoOf(o), outputs);
            r.clean ==> RunHelper(w, t, env, callee, self, args, o, outputs) == r.value
    decreases s, 1, w.limit - |outputs|
  {
    if |outputs| < w.limit {
      match w.action(callee, self, args, InfoOf(o), outputs)
      case Finish(_) =>
      case Render(inverse, context, data) =>
        var r := RenderedChild(w, ChildEnv(tree, context, data), scope, if inverse then InverseOf(s) else MainOf(s));
        if r.clean {
          ChildMatches(w, t, env, tree, config, scope, s, guid, inverse, context, data);
          HelperMatches(w, t, env, tree, config, scope, s, guid, callee, self, args, o, outputs + [Str(r.text)]);
        }
    }
  }

  /** What a program gives when a helper renders it; a missing one renders nothing. */
  function RenderedChild(w: World, env: Env, scope: Scope, child: Child): Rendered {
    if child.Absent? then Rendered("", true) else ChildText(w, env, scope, child.program)
  }

  lemma {:induction false} ChildMatches(w: World, t: Template, env: Env, tree: Env, config: Config, scope: Scope, s: Statement, guid: nat,
                                        inverse: bool, context: Value, data: Value)
    requires GoodCaller(config, scope, s, guid, t, env, tree)
    ensures var (p, i) := Programs(s, guid);
            var r := RenderedChild(w, ChildEnv(tree, context, data), scope, if inverse then InverseOf(s) else MainOf(s));
            r.clean ==> RunChild(w, t, env, HandleOf(config, if inverse then i else p), context, data) == Str(r.text)
    decreases s, 0
  {
    var child := if inverse then InverseOf(s) else MainOf(s);
    if child.Present? {
      var i := if inverse then guid + Count(MainOf(s)) else guid;
      RunsChild(w, t, env, i, config.useDepths, context, data);
      Smaller(s, inverse);
      hide RunChild, RunTemplate, Serves, CompileProgram, BasicBody, BodyFits, GoodCaller, Default, BodyUsesDepths, ChildText;
      GoodChild(config, scope, s, guid, t, env, tree, inverse);
      hide *;
      ProgramMatches(w, t.children[i], HandedOn(env, config.useDepths, context, data), ChildEnv(tree, context, data),
                     config.flags, scope, child.program);
    }
  }

  lemma {:induction false} Smaller(s: Statement, inverse: bool)
    ensures var child := if inverse then InverseOf(s) else MainOf(s);
            child.Present? ==> (s decreases to child.program)
  {
  }

  function HandedOn(env: Env, depths: bool, context: Value, data: Value): Env {
    ChildEnv(if depths then env else env.(depths := []), context, data)
  }

  lemma {:induction false} RunsChild(w: World, t: Template, env: Env, i: nat, depths: bool, context: Value, data: Value)
    requires i < |t.children|
    ensures RunChild(w, t, env, Some(Handle(i, depths)), context, data) == RunTemplate(w, t.children[i], HandedOn(env, depths, context, data))
  {
  }

  lemma {:induction false} GoodChild(config: Config, scope: Scope, s: Statement, guid: nat, t: Template, env: Env, tree: Env, inverse: bool)
    requires GoodCaller(config, scope, s, guid, t, env, tree)
    ensures var child := if inverse then InverseOf(s) else MainOf(s);
            var i := if inverse then guid + Count(MainOf(s)) else guid;
            child.Present? ==>
              && child.program.blockParams == [] && BasicBody(child.program.body) && BodyFits(Inner(scope, child.program), child.program.body)
              && i < |t.children| && Serves(config.flags, CompileProgram(scope, child.program), t.children[i])
              && (BodyUsesDepths(Inner(scope, child.program), child.program.body) ==> config.useDepths && env.depths == tree.depths)
    ensures Default(config, scope) && Default(Config(config.flags, true, true), scope)
    ensures forall context, data ::
              var (x, y) := (HandedOn(env, config.useDepths, context, data), ChildEnv(tree, context, data));
              && x.context == y.context && x.data == y.data
              && (config.useDepths ==> x.depths == y.depths)
  {
    hide Serves, CompileProgram, CallUsesDepths, CallFits, PartialFits, PartialUsesDepths;
    var child := if inverse then InverseOf(s) else MainOf(s);
    assert BasicChild(child) && ChildFits(scope, child);
    assert ChildUsesDepths(scope, child) ==> StatementUsesDepths(scope, s);
  }

  // ----- blocks

  function Programs(s: Statement, guid: nat): (Option<nat>, Option<nat>) {
    (Guid(MainOf(s), guid), Guid(InverseOf(s), guid + Count(MainOf(s))))
  }

  /** What the tree gives for the call of a block, before `blockHelperMissing`. */
  function FirstResult(w: World, tree: Env, scope: Scope, s: Statement): Walked
    requires s.BlockStatement?
  {
    match Prepare(w, tree, scope, s.call, false)
    case Ready(v) => Walked(v, true)
    case Pending(callee, args, name, hash, tracking) =>
      ProgramRun(w, tree, scope, s, callee, SelfOf(w, tree), args, CallInfo(name, Some(hash), HasPrograms(s), tree.data, tracking), [])
  }

  function SecondResult(w: World, tree: Env, scope: Scope, s: Statement, name: string, v: Value): Walked
    requires s.BlockStatement?
  {
    ProgramRun(w, tree, scope, s, w.helper("blockHelperMissing"), tree.context, [v], CallInfo(name, Some(map[]), HasPrograms(s), tree.data, Untracked), [])
  }

  lemma {:induction false} FirstMatches(w: World, t: Template, env: Env, tree: Env, config: Config, scope: Scope, s: Statement, guid: nat)
    requires s.BlockStatement? && GoodCaller(config, scope, s, guid, t, env, tree)
    ensures var (p, i) := Programs(s, guid);
            var first := FirstResult(w, tree, scope, s);
            first.clean ==> Evals(w, t, env, CallCode(config, scope, s.call, false, p, i), V(first.value))
    decreases s, 2
  {
    var (p, i) := Programs(s, guid);
    CallEvals(w, t, env, tree, config, scope, s.call, false, p, i);
    match Prepare(w, tree, scope, s.call, false)
    case Ready(_) =>
    case Pending(callee, args, name, hash, tracking) =>
      HelperMatches(w, t, env, tree, config, scope, s, guid, callee, SelfOf(w, tree), args,
                    OptionsValue(config, tree, name, Some(hash), tracking, p, i), []);
  }

  lemma {:induction false} SecondMatches(w: World, t: Template, env: Env, tree: Env, config: Config, scope: Scope, s: Statement, guid: nat,
                                         name: string, v: Value)
    requires s.BlockStatement? && GoodCaller(config, scope, s, guid, t, env, tree)
    ensures var (p, i) := Programs(s, guid);
            var second := SecondResult(w, tree, scope, s, name, v);
            var o := BareOptions(config, tree, name, p, i);
            second.clean ==> RunHelper(w, t, env, w.helper("blockHelperMissing"), env.context, [v], o, []) == second.value
    decreases s, 2
  {
    var (p, i) := Programs(s, guid);
    HelperMatches(w, t, env, tree, config, scope, s, guid, w.helper("blockHelperMissing"), tree.context, [v],
                  BareOptions(config, tree, name, p, i), []);
  }

  /** The code whose value a helper block or a simple block appends. */
  function BlockCode(config: Config, scope: Scope, s: Statement, guid: nat): JsExpr
    requires s.BlockStatement?
  {
    var (p, i) := Programs(s, guid);
    var code := CallCode(config, scope, s.call, false, p, i);
    if Classify(scope, s.call, false).SimpleKind? then
      InvokeMissing(code, OptionsFor(config, s.call.path.original, [], NoHash(config), p, i))
    else code
  }

  lemma {:induction false} BlockEvals(w: World, t: Template, env: Env, tree: Env, config: Config, scope: Scope, s: Statement, guid: nat)
    requires s.BlockStatement? && GoodCaller(config, scope, s, guid, t, env, tree) && !Classify(scope, s.call, false).AmbiguousKind?
    ensures var r := BlockResult(w, tree, scope, s);
            r.clean ==> Evals(w, t, env, BlockCode(config, scope, s, guid), V(r.value))
    decreases s, 4
  {
    FirstMatches(w, t, env, tree, config, scope, s, guid);
    if Classify(scope, s.call, false).SimpleKind? {
      SimpleBlockEvals(w, t, env, tree, config, scope, s, guid);
    } else {
      hide CallCode, FirstResult, GoodCaller;
    }
  }

  /** The value of a name that cannot be a helper is handed to `blockHelperMissing`. */
  lemma {:induction false} SimpleBlockEvals(w: World, t: Template, env: Env, tree: Env, config: Config, scope: Scope, s: Statement, guid: nat)
    requires s.BlockStatement? && GoodCaller(config, scope, s, guid, t, env, tree) && Classify(scope, s.call, false).SimpleKind?
    requires var (p, i) := Programs(s, guid);
             var r := FirstResult(w, tree, scope, s);
             r.clean ==> Evals(w, t, env, CallCode(config, scope, s.call, false, p, i), V(r.value))
    ensures var r := BlockResult(w, tree, scope, s);
            r.clean ==> Evals(w, t, env, BlockCode(config, scope, s, guid), V(r.value))
    decreases s, 3
  {
    var (p, i) := Programs(s, guid);
    var code := CallCode(config, scope, s.call, false, p, i);
    var name := s.call.path.original;
    var options := OptionsFor(config, name, [], NoHash(config), p, i);
    var v, r := FirstResult(w, tree, scope, s).value, BlockResult(w, tree, scope, s);
    SecondMatches(w, t, env, tree, config, scope, s, guid, name, v);
    BareOptionsEval(w, t, env, tree, config, name, p, i);
    if r.clean {
      var o := BareOptions(config, tree, name, p, i);
      assert RunHelper(w, t, env, w.helper("blockHelperMissing"), env.context, [v], o, []) == r.value;
      hide *;
      MissingEvals(w, t, env, code, options, v, o);
    }
  }

  lemma {:induction false} MissingEvals(w: World, t: Template, env: Env, code: JsExpr, options: JsExpr, v: Value, o: Options)
    requires Evals(w, t, env, code, V(v)) && Evals(w, t, env, options, O(o))
    ensures Evals(w, t, env, InvokeMissing(code, options), V(RunHelper(w, t, env, w.helper("blockHelperMissing"), env.context, [v], o, [])))
  {
    hide RunHelper, RunTemplate, RunLines, EvalAll, EvalOr, EvalFields;
    forall f: Frame
      ensures Eval(w, t, env, f, InvokeMissing(code, options)).item
           == V(RunHelper(w, t, env, w.helper("blockHelperMissing"), env.context, [v], o, []))
    {
      var x := Eval(w, t, env, f, code);
      assert Eval(w, t, env, x.frame, options).item == O(o);
    }
  }

  lemma {:induction false} PlainBlock(config: Config, scope: Scope, s: Statement, guid: nat)
    requires s.BlockStatement? && Supported(s)
    requires !Classify(scope, s.call, false).AmbiguousKind?
    ensures StatementPieces(config, scope, s, guid) == RawPieces(config, BlockCode(config, scope, s, guid))
  {
    hide CallCode, Classify, OptionsFor;
  }

  lemma {:induction false} AmbiguousIsCall(config: Config, scope: Scope, call: Call, p: Option<nat>, i: Option<nat>)
    requires Classify(scope, call, false).AmbiguousKind?
    ensures CallCode(config, scope, call, false, p, i) == AmbiguousCallCode(config, scope, call, p, i)
  {
  }

  /** After its two lines an ambiguous block has its value in the first temporary. */
  lemma {:induction false} AmbiguousBlockRuns(w: World, t: Template, env: Env, tree: Env, config: Config, scope: Scope, s: Statement, guid: nat,
                                              f: Frame, buffer: Value)
    requires s.BlockStatement? && GoodCaller(config, scope, s, guid, t, env, tree) && Classify(scope, s.call, false).AmbiguousKind?
    ensures var (p, i) := Programs(s, guid);
            var r := BlockResult(w, tree, scope, s);
            var stored := RunStatement(w, t, env, f, buffer, Assign(1, CallCode(config, scope, s.call, false, p, i)));
            && stored.Running? && stored.buffer == buffer
            && var decided := RunStatement(w, t, env, stored.frame, buffer,
                                           UnlessHelper(Helper(s.call.path.parts[0]), Temp(1), InvokeMissing(Temp(1), OptionsVar)));
               && decided.Running? && decided.buffer == buffer
               && (r.clean ==> TempValue(decided.frame, 1) == r.value)
    decreases s, 3
  {
    hide RunHelper, ProgramRun, Prepare, CallCode, AmbiguousCallCode, Eval, RunStatement;
    var (p, i) := Programs(s, guid);
    var name := s.call.path.parts[0];
    var code := CallCode(config, scope, s.call, false, p, i);
    AmbiguousIsCall(config, scope, s.call, p, i);
    FirstMatches(w, t, env, tree, config, scope, s, guid);
    GoodCall(config, scope, s, guid, t, env, tree);
    AmbiguousEvals(w, t, env, tree, config, scope, s.call, false, p, i);
    var o := BareOptions(config, tree, name, p, i);
    var f1 := AssignRuns(w, t, env, f, buffer, code);
    assert f1.options == o;
    SecondMatches(w, t, env, tree, config, scope, s, guid, name, TempValue(f1, 1));
    UnlessRuns(w, t, env, f1, buffer, name);
  }

  lemma {:induction false} GoodCall(config: Config, scope: Scope, s: Statement, guid: nat, t: Template, env: Env, tree: Env)
    requires s.BlockStatement? && GoodCaller(config, scope, s, guid, t, env, tree)
    ensures CallUsesDepths(scope, s.call, false) ==> config.useDepths
    ensures HasPrograms(s)
  {
  }

  lemma {:induction false} AssignRuns(w: World, t: Template, env: Env, f: Frame, buffer: Value, code: JsExpr) returns (f1: Frame)
    ensures RunStatement(w, t, env, f, buffer, Assign(1, code)) == Running(f1, buffer)
    ensures TempValue(f1, 1) == AsValue(Eval(w, t, env, f, code).item)
    ensures f1.options == Eval(w, t, env, f, code).frame.options
  {
    f1 := RunStatement(w, t, env, f, buffer, Assign(1, code)).frame;
  }

  lemma {:induction false} UnlessRuns(w: World, t: Template, env: Env, f: Frame, buffer: Value, name: string)
    ensures var r := RunStatement(w, t, env, f, buffer, UnlessHelper(Helper(name), Temp(1), InvokeMissing(Temp(1), OptionsVar)));
            && r.Running? && r.buffer == buffer
            && TempValue(r.frame, 1)
            == if Truthy(w.helper(name)) then TempValue(f, 1)
               else RunHelper(w, t, env, w.helper("blockHelperMissing"), env.context, [TempValue(f, 1)], f.options, [])
  {
    hide RunHelper, RunTemplate, RunLines, EvalAll, EvalOr, EvalFields;
    assert Eval(w, t, env, f, Helper(name)) == Result(V(w.helper(name)), f);
    assert Eval(w, t, env, f, Temp(1)) == Result(V(TempValue(f, 1)), f);
    assert Eval(w, t, env, f, OptionsVar) == Result(O(f.options), f);
  }

  // ----- partials

  /** What is known about the name and the arguments of a partial. */
  lemma {:induction false} PartialParts(config: Config, scope: Scope, s: Statement, guid: nat, t: Template, env: Env, tree: Env)
    requires s.PartialStatement? && GoodCaller(config, scope, s, guid, t, env, tree)
    ensures var args := PartialArgs(scope.flags, s.args);
            && BasicArgs(args) && ArgsFit(scope, args) && (ArgsUseDepths(scope, args) ==> config.useDepths)
            && (s.name.DynamicName? ==>
                  BasicArgs(s.name.expr.args) && CallFits(scope, s.name.expr, true)
                  && (CallUsesDepths(scope, s.name.expr, true) ==> config.useDepths))
            && (args.params != [] ==>
                  && |args.params| == 1 && BasicExpr(args.params[0]) && ExprFits(scope, args.params[0])
                  && (ExprUsesDepths(scope, args.params[0]) ==> config.useDepths))
            && Default(config, scope) && Matches(config, env, tree)
  {
    assert Basic(s) && PartialFits(scope, s);
    assert BasicExpr(CurrentContext) && BasicParams([CurrentContext]) by {
      assert [CurrentContext][1..] == [];
    }
    assert PartialUsesDepths(scope, s) ==> StatementUsesDepths(scope, s);
    var args := PartialArgs(scope.flags, s.args);
    assert BasicParams(s.args.params) && ParamsFit(scope, args.params) && |args.params| <= 1;
    assert args.params != [] && ExprUsesDepths(scope, args.params[0]) ==> ParamsUseDepths(scope, args.params);
    hide Linked, Matches, CallFits, CallUsesDepths, BasicPairs, PairsFit;
  }

  /** What the name of a partial evaluates to. */
  lemma {:induction false} NameEvals(w: World, t: Template, env: Env, tree: Env, config: Config, scope: Scope, s: Statement, guid: nat)
    requires s.PartialStatement? && GoodCaller(config, scope, s, guid, t, env, tree)
    ensures Evals(w, t, env, NameEntry(config, scope, s.name).expr, V(PartialValue(w, tree, scope, s.name)))
  {
    PartialParts(config, scope, s, guid, t, env, tree);
    if s.name.DynamicName? {
      hide GoodCaller;
      PlainCallEvals(w, t, env, tree, config, scope, s.name.expr, true);
    }
  }

  lemma {:induction false} ContextEvals(w: World, t: Template, env: Env, tree: Env, config: Config, scope: Scope, s: Statement, guid: nat)
    requires s.PartialStatement? && Supported(s) && GoodCaller(config, scope, s, guid, t, env, tree)
    requires s.name.DynamicName? ==> !NoContext(scope, s.args)
    ensures Evals(w, t, env, PartialContext(config, scope, s).value.expr, V(PartialContextValue(w, tree, scope, s.args)))
  {
    PartialParts(config, scope, s, guid, t, env, tree);
    hide GoodCaller;
    if !NoContext(scope, s.args) {
      var params := PartialArgs(scope.flags, s.args).params;
      assert ParamsSlots(config, scope, params)[0] == ParamSlots(config, scope, params[0]);
      ParamEvals(w, t, env, tree, config, scope, params[0]);
    }
  }

  lemma {:induction false} PartialOptionsEval(w: World, t: Template, env: Env, tree: Env, config: Config, scope: Scope, s: Statement, guid: nat)
    requires s.PartialStatement? && Supported(s) && GoodCaller(config, scope, s, guid, t, env, tree)
    requires s.name.DynamicName? ==> !NoContext(scope, s.args)
    ensures var (context, hash) := (PartialContext(config, scope, s), HashSlots(config, scope, s.args.hash, true));
            var info := PartialInfo(w, tree, scope, s);
            Evals(w, t, env, OptionsFor(config, NameOf(s.name), [context], hash, Guid(s.block, guid), None),
                  O(OptionsValue(config, tree, NameOf(s.name), info.hash, info.tracking, Guid(s.block, guid), None)))
  {
    var (context, hash) := (PartialContext(config, scope, s), HashSlots(config, scope, s.args.hash, true));
    var (args, info) := (PartialArgs(scope.flags, s.args), PartialInfo(w, tree, scope, s));
    PartialParts(config, scope, s, guid, t, env, tree);
    hide GoodCaller;
    HashSlotEvals(w, t, env, tree, config, scope, args.hash, true);
    ArgsTracked(w, t, env, tree, config, scope, args, true);
    var slots := ParamsSlots(config, scope, args.params);
    hide HashSlots, ParamsSlots, HashValue, Default, Fits, Serves, Basic;
    if NoContext(scope, s.args) {
      assert slots == [] && ExtrasOf([context], hash) == ExtrasOf([], hash) by {
        NoContextExtras(context, hash);
      }
    } else {
      assert slots == [context];
    }
    OptionsEval(w, t, env, tree, config, NameOf(s.name), [context], hash, info.hash, info.tracking, Guid(s.block, guid), None);
  }

  lemma {:induction false} NoContextExtras(context: Slots, hash: Slots)
    requires context.ids == [] && context.types == [] && context.contexts == []
    ensures ExtrasOf([context], hash) == ExtrasOf([], hash)
  {
    assert [context][1..] == [];
  }

  /** A partial is invoked on what its tree names, and leaves what the tree gives. */
  lemma {:induction false} PartialEvals(w: World, t: Template, env: Env, tree: Env, config: Config, scope: Scope, s: Statement, guid: nat)
    requires s.PartialStatement? && Supported(s) && GoodCaller(config, scope, s, guid, t, env, tree)
    ensures var r := PartialResult(w, tree, scope, s);
            r.clean ==> Evals(w, t, env, PartialCode(config, scope, s, Guid(s.block, guid)), V(r.value))
    decreases s, 2
  {
    var r := PartialResult(w, tree, scope, s);
    if r.clean {
      NameEvals(w, t, env, tree, config, scope, s, guid);
      ContextEvals(w, t, env, tree, config, scope, s, guid);
      PartialOptionsEval(w, t, env, tree, config, scope, s, guid);
      var info := PartialInfo(w, tree, scope, s);
      var o := OptionsValue(config, tree, NameOf(s.name), info.hash, info.tracking, Guid(s.block, guid), None);
      var (v, x) := (PartialValue(w, tree, scope, s.name), PartialContextValue(w, tree, scope, s.args));
      var args := [v, x, IndentValue(s.indent)];
      assert InfoOf(o) == info;
      HelperMatches(w, t, env, tree, config, scope, s, guid, w.invokePartial, Undefined, args, o, []);
      var code := PartialCode(config, scope, s, Guid(s.block, guid));
      assert code == PartialOf(NameEntry(config, scope, s.name).expr, code.context, code.options, s.indent);
      hide *;
      InvokedPartialEvals(w, t, env, code, v, x, o);
    }
  }

  lemma {:induction false} InvokedPartialEvals(w: World, t: Template, env: Env, code: JsExpr, v: Value, x: Value, o: Options)
    requires code.PartialOf?
    requires Evals(w, t, env, code.callee, V(v)) && Evals(w, t, env, code.context, V(x)) && Evals(w, t, env, code.options, O(o))
    ensures Evals(w, t, env, code, V(RunHelper(w, t, env, w.invokePartial, Undefined, [v, x, IndentValue(code.indent)], o, [])))
  {
    hide RunHelper, RunTemplate, RunLines, EvalAll, EvalOr, EvalFields;
    forall f: Frame
      ensures Eval(w, t, env, f, code).item == V(RunHelper(w, t, env, w.invokePartial, Undefined, [v, x, IndentValue(code.indent)], o, []))
    {
      var a := Eval(w, t, env, f, code.callee);
      var b := Eval(w, t, env, a.frame, code.context);
      assert Eval(w, t, env, b.frame, code.options).item == O(o);
    }
  }

  // ----- statements of a program with several of them

  lemma {:induction false} RawEvals(w: World, t: Template, env: Env, code: JsExpr, v: Value, f: Frame)
    requires Evals(w, t, env, code, V(v))
    ensures var r := Eval(w, t, env, f, Wrapped(OrEmpty, SetTemp(1, code), Temp(1)));
            r.item == V(if IsNull(v) then Str("") else v)
  {
    var r := Eval(w, t, env, f, code);
    var f1 := r.frame.(temps := r.frame.temps[1 := v]);
    assert Eval(w, t, env, f, SetTemp(1, code)) == Result(V(v), f1);
    assert Eval(w, t, env, f1, Temp(1)) == Result(V(v), f1);
    assert Eval(w, t, env, f1, Constant(TextLiteral(""))).item == V(Str(""));
  }

  lemma {:induction false} RawProgress(w: World, t: Template, env: Env, config: Config, m: Machine, code: JsExpr, v: Value)
    requires !config.isSimple && Progress(w, t, env, m).clean && Evals(w, t, env, code, V(v))
    ensures var after := Progress(w, t, env, Write(config, m, RawPieces(config, code)));
            var raw := RawText(w, v);
            raw.clean ==> after.clean && after.text == Progress(w, t, env, m).text + raw.text
  {
    var line := AppendLine(config, Wrapped(OrEmpty, SetTemp(1, code), Temp(1)));
    WriteOne(config, m, line);
    LineProgress(w, t, env, config, m, line);
    var x := Progress(w, t, env, m);
    InOrderOne(w, t, env, x.frame, x.text, line);
    RawEvals(w, t, env, code, v, x.frame);
  }

  lemma {:induction false} AmbiguousProgress(w: World, t: Template, env: Env, tree: Env, config: Config, scope: Scope, m: Machine,
                                             s: Statement, guid: nat)
    requires s.BlockStatement? && GoodCaller(config, scope, s, guid, t, env, tree) && Classify(scope, s.call, false).AmbiguousKind?
    requires !config.isSimple && Progress(w, t, env, m).clean
    ensures var (p, i) := Programs(s, guid);
            var after := Progress(w, t, env, Write(config, m, BlockPieces(config, scope, s.call, p, i)));
            var r := BlockResult(w, tree, scope, s);
            r.clean ==> after.clean && after.text == Progress(w, t, env, m).text + RawText(w, r.value).text
    decreases s, 4
  {
    hide CallCode, Eval, RunStatement, BlockResult, Progress;
    var (p, i) := Programs(s, guid);
    var x := Progress(w, t, env, m);
    AmbiguousBlockRuns(w, t, env, tree, config, scope, s, guid, x.frame, Str(x.text));
    var assign := Assign(1, CallCode(config, scope, s.call, false, p, i));
    var unless := UnlessHelper(Helper(s.call.path.parts[0]), Temp(1), InvokeMissing(Temp(1), OptionsVar));
    var m1 := PushSource(config, m, assign);
    var m2 := PushSource(config, m1, unless);
    LineProgress(w, t, env, config, m, assign);
    InOrderOne(w, t, env, x.frame, x.text, assign);
    var x1 := Progress(w, t, env, m1);
    LineProgress(w, t, env, config, m1, unless);
    InOrderOne(w, t, env, x1.frame, x1.text, unless);
    var x2 := Progress(w, t, env, m2);
    LineProgress(w, t, env, config, m2, AppendIf(Temp(1)));
    InOrderOne(w, t, env, x2.frame, x2.text, AppendIf(Temp(1)));
    AppendIfRuns(w, t, env, x2.frame, x2.text);
    ThreePieces(config, m, assign, unless, AppendIf(Temp(1)));
    assert x2.text == x.text;
  }

  lemma {:induction false} AppendIfRuns(w: World, t: Template, env: Env, f: Frame, text: string)
    ensures RunStatement(w, t, env, f, Str(text), AppendIf(Temp(1))) == Running(f, Str(text + RawText(w, TempValue(f, 1)).text))
  {
    assert Eval(w, t, env, f, Temp(1)) == Result(V(TempValue(f, 1)), f);
    assert text + "" == text;
  }

  lemma {:induction false} ThreePieces(config: Config, m: Machine, a: Line, b: Line, c: Line)
    ensures Write(config, m, [LinePiece(a), LinePiece(b)] + [LinePiece(c)])
         == PushSource(config, PushSource(config, PushSource(config, m, a), b), c)
  {
    var pieces := [LinePiece(a), LinePiece(b)];
    assert pieces[1..] == [LinePiece(b)];
    WriteOne(config, PushSource(config, m, a), b);
    WriteAppend(config, m, pieces, [LinePiece(c)]);
    WriteOne(config, PushSource(config, PushSource(config, m, a), b), c);
  }

  predicate LinkedAt(flags: Flags, kid: Environment, t: Template, guid: nat) {
    guid < |t.children| && Serves(flags, kid, t.children[guid])
  }

  predicate LinkedBody(flags: Flags, scope: Scope, body: seq<Statement>, guid: nat, t: Template) {
    var kids := EmitBody(scope, body, guid).children;
    forall i :: 0 <= i < |kids| ==> LinkedAt(flags, kids[i], t, guid + i)
  }

  ghost predicate GoodBody(config: Config, scope: Scope, body: seq<Statement>, guid: nat, t: Template, env: Env, tree: Env) {
    && Default(config, scope) && Matches(config, env, tree)
    && BasicBody(body) && BodyFits(scope, body) && (BodyUsesDepths(scope, body) ==> config.useDepths)
    && LinkedBody(config.flags, scope, body, guid, t)
  }

  lemma {:induction false} BodyHead(config: Config, scope: Scope, body: seq<Statement>, guid: nat, t: Template, env: Env, tree: Env)
    requires GoodBody(config, scope, body, guid, t, env, tree) && body != []
    ensures HandsOn(body[0]) ==> GoodCaller(config, scope, body[0], guid, t, env, tree)
    ensures GoodBody(config, scope, body[1..], guid + |EmitStatement(scope, body[0], guid).children|, t, env, tree)
  {
    var first := EmitStatement(scope, body[0], guid).children;
    LinkedSplit(config.flags, scope, body, guid, t);
    hide LinkedBody, EmitBody, EmitStatement, LinkedAt, Serves, CallFits, CallUsesDepths, CompileProgram;
    if HandsOn(body[0]) {
      CallerKids(scope, body[0], guid);
      CallerLinked(config, scope, body[0], guid, t, first);
    }
  }

  lemma {:induction false} CallerKids(scope: Scope, s: Statement, guid: nat)
    requires HandsOn(s)
    ensures EmitStatement(scope, s, guid).children == CompileChild(scope, MainOf(s)) + CompileChild(scope, InverseOf(s))
  {
    assert CompileChild(scope, Absent) == [];
  }

  lemma {:induction false} LinkedSplit(flags: Flags, scope: Scope, body: seq<Statement>, guid: nat, t: Template)
    requires body != [] && LinkedBody(flags, scope, body, guid, t)
    ensures var first := EmitStatement(scope, body[0], guid).children;
            && (forall k :: 0 <= k < |first| ==> LinkedAt(flags, first[k], t, guid + k))
            && LinkedBody(flags, scope, body[1..], guid + |first|, t)
  {
    hide EmitStatement, LinkedAt;
    var first := EmitStatement(scope, body[0], guid).children;
    var rest := EmitBody(scope, body[1..], guid + |first|).children;
    var kids := EmitBody(scope, body, guid).children;
    assert kids == first + rest;
    forall i | 0 <= i < |rest| ensures LinkedAt(flags, rest[i], t, guid + |first| + i) {
      assert rest[i] == kids[|first| + i];
    }
    forall k | 0 <= k < |first| ensures LinkedAt(flags, first[k], t, guid + k) {
      assert kids[k] == first[k];
    }
  }

  lemma {:induction false} CallerLinked(config: Config, scope: Scope, s: Statement, guid: nat, t: Template, kids: seq<Environment>)
    requires kids == CompileChild(scope, MainOf(s)) + CompileChild(scope, InverseOf(s))
    requires forall k :: 0 <= k < |kids| ==> LinkedAt(config.flags, kids[k], t, guid + k)
    ensures Linked(config.flags, scope, s, guid, t)
  {
    hide CompileProgram, Serves;
    var x := CompileChild(scope, MainOf(s));
    assert |x| == Count(MainOf(s));
    if MainOf(s).Present? {
      assert kids[0] == CompileProgram(scope, MainOf(s).program) && LinkedAt(config.flags, kids[0], t, guid + 0);
    }
    if InverseOf(s).Present? {
      var i := Count(MainOf(s));
      assert kids[i] == CompileProgram(scope, InverseOf(s).program) && LinkedAt(config.flags, kids[i], t, guid + i);
    }
  }

  lemma {:induction false} MustacheEvals(w: World, t: Template, env: Env, tree: Env, config: Config, scope: Scope, s: Statement)
    requires Default(config, scope) && Matches(config, env, tree) && s.MustacheStatement? && Basic(s) && Fits(scope, s)
    requires StatementUsesDepths(scope, s) ==> config.useDepths
    ensures Evals(w, t, env, CallCode(config, scope, s.call, false, None, None),
                  V(PlainValue(w, tree, Prepare(w, tree, scope, s.call, false))))
  {
    PlainCallEvals(w, t, env, tree, config, scope, s.call, false);
  }

  lemma {:induction false} PendingProgress(w: World, t: Template, env: Env, m: Machine, text: string)
    ensures var after := Progress(w, t, env, m.(pending := m.pending + text));
            after.clean == Progress(w, t, env, m).clean && after.text == Progress(w, t, env, m).text + text
  {
    hide RunInOrder;
    var x := RunInOrder(w, t, env, EmptyFrame, "", m.source);
    assert x.text + (m.pending + text) == x.text + m.pending + text;
  }

  lemma {:induction false} StatementProgress(w: World, t: Template, env: Env, tree: Env, config: Config, scope: Scope, m: Machine,
                                             body: seq<Statement>, guid: nat)
    requires GoodBody(config, scope, body, guid, t, env, tree) && body != [] && Supported(body[0])
    requires !config.isSimple && Progress(w, t, env, m).clean
    ensures var after := Progress(w, t, env, Write(config, m, StatementPieces(config, scope, body[0], guid)));
            var r := StatementText(w, tree, scope, body[0]);
            r.clean ==> after.clean && after.text == Progress(w, t, env, m).text + r.text
    decreases body, 0
  {
    var s := body[0];
    BodyHead(config, scope, body, guid, t, env, tree);
    assert Basic(s);
    hide CallCode, BlockResult, PartialResult, PartialCode, PlainValue, Prepare, Progress, RunInOrder, EmitStatement, Classify, BlockCode, GoodBody, GoodCaller;
    match s
    case ContentStatement(value) =>
      if value != "" {
        var pieces := [TextPiece(value)];
        assert pieces[1..] == [];
        assert Write(config, m, pieces) == m.(pending := m.pending + value);
        PendingProgress(w, t, env, m, value);
      } else {
        assert Progress(w, t, env, m).text + "" == Progress(w, t, env, m).text;
      }
    case MustacheStatement(call, escaped) =>
      MustacheEvals(w, t, env, tree, config, scope, s);
      var code := CallCode(config, scope, call, false, None, None);
      var v := PlainValue(w, tree, Prepare(w, tree, scope, call, false));
      if escaped && !scope.flags.noEscape {
        EscapedProgress(w, t, env, config, m, code, v);
      } else {
        RawProgress(w, t, env, config, m, code, v);
      }
    case BlockStatement(call, _, _) =>
      if Classify(scope, call, false).AmbiguousKind? {
        AmbiguousProgress(w, t, env, tree, config, scope, m, s, guid);
      } else if BlockResult(w, tree, scope, s).clean {
        BlockEvals(w, t, env, tree, config, scope, s, guid);
        PlainBlock(config, scope, s, guid);
        RawProgress(w, t, env, config, m, BlockCode(config, scope, s, guid), BlockResult(w, tree, scope, s).value);
      }
    case PartialStatement(_, _, _, block) =>
      PartialProgress(w, t, env, tree, config, scope, m, s, guid);
    case CommentStatement =>
      assert Write(config, m, []) == m;
      assert Progress(w, t, env, m).text + "" == Progress(w, t, env, m).text;
    case _ =>
  }

  lemma {:induction false} EscapedProgress(w: World, t: Template, env: Env, config: Config, m: Machine, code: JsExpr, v: Value)
    requires !config.isSimple && Progress(w, t, env, m).clean && Evals(w, t, env, code, V(v))
    ensures var after := Progress(w, t, env, Write(config, m, [LinePiece(AppendLine(config, Escape(code)))]));
            after.clean && after.text == Progress(w, t, env, m).text + w.escape(v)
  {
    var line := AppendLine(config, Escape(code));
    WriteOne(config, m, line);
    LineProgress(w, t, env, config, m, line);
    var x := Progress(w, t, env, m);
    InOrderOne(w, t, env, x.frame, x.text, line);
    assert Eval(w, t, env, x.frame, Escape(code)).item == V(Str(w.escape(v)));
  }

  lemma {:induction false} PartialProgress(w: World, t: Template, env: Env, tree: Env, config: Config, scope: Scope, m: Machine,
                                           s: Statement, guid: nat)
    requires s.PartialStatement? && Supported(s) && GoodCaller(config, scope, s, guid, t, env, tree)
    requires !config.isSimple && Progress(w, t, env, m).clean
    ensures var after := Progress(w, t, env, Write(config, m, RawPieces(config, PartialCode(config, scope, s, Guid(s.block, guid)))));
            var r := PartialResult(w, tree, scope, s);
            r.clean && RawText(w, r.value).clean ==> after.clean && after.text == Progress(w, t, env, m).text + RawText(w, r.value).text
    decreases s, 3
  {
    var r := PartialResult(w, tree, scope, s);
    if r.clean {
      PartialEvals(w, t, env, tree, config, scope, s, guid);
      hide *;
      RawProgress(w, t, env, config, m, PartialCode(config, scope, s, Guid(s.block, guid)), r.value);
    }
  }

  lemma {:induction false} BodyProgress(w: World, t: Template, env: Env, tree: Env, config: Config, scope: Scope, m: Machine,
                                        body: seq<Statement>, guid: nat)
    requires GoodBody(config, scope, body, guid, t, env, tree) && BodySupported(body)
    requires !config.isSimple && Progress(w, t, env, m).clean
    ensures var after := Progress(w, t, env, Write(config, m, BodyPieces(config, scope, body, guid)));
            var r := BodyText(w, tree, scope, body);
            r.clean ==> after.clean && after.text == Progress(w, t, env, m).text + r.text
    decreases body, 1
  {
    hide *;
    if body == [] {
      NoProgress(w, t, env, tree, config, scope, m, guid);
    } else {
      var first, rest := StatementText(w, tree, scope, body[0]), BodyText(w, tree, scope, body[1..]);
      UnfoldBody(w, tree, config, scope, body, guid);
      BodyHead(config, scope, body, guid, t, env, tree);
      StatementProgress(w, t, env, tree, config, scope, m, body, guid);
      if first.clean && rest.clean {
        var pieces := StatementPieces(config, scope, body[0], guid);
        var next := guid + |EmitStatement(scope, body[0], guid).children|;
        BodyProgress(w, t, env, tree, config, scope, Write(config, m, pieces), body[1..], next);
        WriteAppend(config, m, pieces, BodyPieces(config, scope, body[1..], next));
        var text := Progress(w, t, env, m).text;
        assert text + first.text + rest.text == text + (first.text + rest.text);
      }
    }
  }

  lemma {:induction false} NoProgress(w: World, t: Template, env: Env, tree: Env, config: Config, scope: Scope, m: Machine, guid: nat)
    ensures BodySupported([]) && Write(config, m, BodyPieces(config, scope, [], guid)) == m
    ensures BodyText(w, tree, scope, []) == Rendered("", true)
    ensures Progress(w, t, env, m).text + "" == Progress(w, t, env, m).text
  {
  }

  lemma {:induction false} UnfoldBody(w: World, tree: Env, config: Config, scope: Scope, body: seq<Statement>, guid: nat)
    requires body != [] && BodySupported(body)
    ensures Supported(body[0]) && BodySupported(body[1..])
    ensures var next := guid + |EmitStatement(scope, body[0], guid).children|;
            var rest := BodyPieces(config, scope, body[1..], next);
            BodyPieces(config, scope, body, guid) == StatementPieces(config, scope, body[0], guid) + rest
    ensures var first, rest := StatementText(w, tree, scope, body[0]), BodyText(w, tree, scope, body[1..]);
            BodyText(w, tree, scope, body) == Rendered(first.text + rest.text, first.clean && rest.clean)
  {
    hide StatementText, StatementPieces, EmitStatement;
  }

  // ----- only buffered lines are written

  predicate AllBuffered(lines: seq<Line>) {
    forall i :: 0 <= i < |lines| ==> Buffered(lines[i])
  }

  predicate BufferedPieces(pieces: seq<Piece>) {
    forall i :: 0 <= i < |pieces| ==> pieces[i].LinePiece? ==> Buffered(pieces[i].line)
  }

  lemma {:induction false} WriteBuffered(config: Config, m: Machine, pieces: seq<Piece>)
    requires !config.isSimple && AllBuffered(m.source) && BufferedPieces(pieces)
    ensures AllBuffered(Flushed(config, Write(config, m, pieces)).source)
    decreases |pieces|
  {
    if pieces != [] {
      match pieces[0]
      case TextPiece(text) => WriteBuffered(config, m.(pending := m.pending + text), pieces[1..]);
      case LinePiece(line) => WriteBuffered(config, PushSource(config, m, line), pieces[1..]);
    }
  }

  lemma {:induction false} PiecesBuffered(config: Config, scope: Scope, body: seq<Statement>, guid: nat)
    requires !config.isSimple && BodySupported(body)
    ensures BufferedPieces(BodyPieces(config, scope, body, guid))
    decreases |body|
  {
    hide StatementPieces, EmitStatement;
    if body != [] {
      var next := guid + |EmitStatement(scope, body[0], guid).children|;
      PiecesBuffered(config, scope, body[1..], next);
      StatementBuffered(config, scope, body[0], guid);
      hide BufferedPieces;
      BufferedJoin(StatementPieces(config, scope, body[0], guid), BodyPieces(config, scope, body[1..], next));
    }
  }

  lemma {:induction false} BufferedJoin(a: seq<Piece>, b: seq<Piece>)
    requires BufferedPieces(a) && BufferedPieces(b)
    ensures BufferedPieces(a + b)
  {
  }

  lemma {:induction false} StatementBuffered(config: Config, scope: Scope, s: Statement, guid: nat)
    requires !config.isSimple && Supported(s)
    ensures BufferedPieces(StatementPieces(config, scope, s, guid))
  {
    hide CallCode, BlockCode, PartialCode, OptionsFor, EmitStatement;
  }

  // ----- programs

  /** Every template that serves a program returns the text of the tree, whichever equal program it was compiled for. */
  lemma {:induction false} ProgramMatches(w: World, t: Template, env: Env, tree: Env, flags: Flags, scope: Scope, program: Program)
    requires Default(Config(flags, true, true), scope)
    requires Serves(flags, CompileProgram(scope, program), t)
    requires program.blockParams == [] && BasicBody(program.body) && BodyFits(Inner(scope, program), program.body)
    requires env.context == tree.context && env.data == tree.data
    requires BodyUsesDepths(Inner(scope, program), program.body) ==> env.depths == tree.depths
    ensures var r := BodyText(w, tree, Inner(scope, program), program.body);
            r.clean ==> RunTemplate(w, t, env) == Str(r.text)
    decreases program, 2
  {
    var inner := Inner(scope, program);
    var e := CompileProgram(scope, program);
    DeepExactly(scope, program);
    BasicSupported(program.body);
    FitOwn(inner, program.body);
    var isSimple := !BodyOf(flags, e, t.body, false);
    var config := Config(flags, isSimple, BodyUsesDepths(inner, program.body));
    GenerationSucceeds(config, scope, program);
    ServedLinked(flags, inner, program.body, t);
    assert t.body == Merge(ProgramLines(config, inner, program.body), isSimple);
    assert GoodBody(config, inner, program.body, 0, t, env, tree);
    assert isSimple ==> Writings(EmitBody(inner, program.body, 0).opcodes) <= 1;
    hide *;
    if isSimple {
      OneWritingProgram(w, t, env, tree, config, inner, program.body);
    } else {
      SequenceProgram(w, t, env, tree, config, inner, program.body);
    }
  }

  lemma {:induction false} ServedLinked(flags: Flags, scope: Scope, body: seq<Statement>, t: Template)
    requires |t.children| == |EmitBody(scope, body, 0).children|
    requires forall i :: 0 <= i < |t.children| ==> Serves(flags, EmitBody(scope, body, 0).children[i], t.children[i])
    ensures LinkedBody(flags, scope, body, 0, t)
  {
  }

  // ----- programs that write once

  function NotBlank(body: seq<Statement>): seq<Statement> {
    if body == [] then [] else (if Blank(body[0]) then [] else [body[0]]) + NotBlank(body[1..])
  }

  /** `rest` has the opcodes, the lines and the text of `body`, and is no harder. */
  ghost predicate LikeBody(w: World, tree: Env, config: Config, scope: Scope, body: seq<Statement>, rest: seq<Statement>, guid: nat) {
    && BasicBody(rest) && BodySupported(rest) && BodySupported(body)
    && EmitBody(scope, rest, guid) == EmitBody(scope, body, guid)
    && BodyPieces(config, scope, rest, guid) == BodyPieces(config, scope, body, guid)
    && BodyText(w, tree, scope, rest) == BodyText(w, tree, scope, body)
    && (BodyFits(scope, body) ==> BodyFits(scope, rest))
    && (BodyUsesDepths(scope, rest) ==> BodyUsesDepths(scope, body))
  }

  /** Blank statements leave no trace in the opcodes, the lines or the text. */
  lemma {:induction false} BlanksDrop(w: World, tree: Env, config: Config, scope: Scope, body: seq<Statement>, guid: nat)
    requires BasicBody(body) && BodySupported(body)
    ensures LikeBody(w, tree, config, scope, body, NotBlank(body), guid)
    ensures |NotBlank(body)| == Writings(EmitBody(scope, body, guid).opcodes)
    decreases |body|
  {
    hide *;
    if body == [] {
      EmptyLike(w, tree, config, scope, guid);
    } else {
      var (s, tail) := (body[0], body[1..]);
      var next := guid + |EmitStatement(scope, s, guid).children|;
      assert body == [s] + tail;
      NotBlankCons(s, tail);
      Unfolded(w, tree, config, scope, s, tail, guid);
      NoDecorators(s);
      WritesOnce(scope, s, guid);
      BlanksDrop(w, tree, config, scope, tail, next);
      WritingsBoth(EmitStatement(scope, s, guid).opcodes, EmitBody(scope, tail, next).opcodes);
      if Blank(s) {
        BlankIs(w, tree, config, scope, s, guid);
        BlankBefore(w, tree, config, scope, s, tail, guid);
      } else {
        OneBefore(w, tree, config, scope, s, tail, NotBlank(tail), guid);
      }
    }
  }

  lemma {:induction false} EmptyLike(w: World, tree: Env, config: Config, scope: Scope, guid: nat)
    ensures LikeBody(w, tree, config, scope, [], NotBlank([]), guid)
    ensures |NotBlank([])| == Writings(EmitBody(scope, [], guid).opcodes)
  {
  }

  lemma {:induction false} NotBlankCons(s: Statement, tail: seq<Statement>)
    ensures NotBlank([s] + tail) == if Blank(s) then NotBlank(tail) else [s] + NotBlank(tail)
  {
    hide Blank;
    assert ([s] + tail)[1..] == tail && [] + NotBlank(tail) == NotBlank(tail);
  }

  lemma {:induction false} BlankBefore(w: World, tree: Env, config: Config, scope: Scope, s: Statement, tail: seq<Statement>, guid: nat)
    requires Blank(s) && BodySupported([s] + tail) && LikeBody(w, tree, config, scope, tail, NotBlank(tail), guid)
    ensures LikeBody(w, tree, config, scope, [s] + tail, NotBlank(tail), guid)
  {
    Unfolded(w, tree, config, scope, s, tail, guid);
    BlankIs(w, tree, config, scope, s, guid);
    hide EmitBody, BodyPieces, BodyText, BodyFits, BodyUsesDepths, BasicBody, BodySupported, NotBlank, EmitStatement, StatementPieces, StatementText;
    NothingAdded(EmitBody(scope, tail, guid), BodyPieces(config, scope, tail, guid), BodyText(w, tree, scope, tail));
  }

  lemma {:induction false} OneBefore(w: World, tree: Env, config: Config, scope: Scope, s: Statement, tail: seq<Statement>,
                                     rest: seq<Statement>, guid: nat)
    requires Basic(s) && BodySupported([s] + tail)
    requires LikeBody(w, tree, config, scope, tail, rest, guid + |EmitStatement(scope, s, guid).children|)
    ensures LikeBody(w, tree, config, scope, [s] + tail, [s] + rest, guid)
  {
    Unfolded(w, tree, config, scope, s, tail, guid);
    Unfolded(w, tree, config, scope, s, rest, guid);
    hide EmitBody, BodyPieces, BodyText, BodyFits, BodyUsesDepths, BasicBody, BodySupported, NotBlank, EmitStatement, StatementPieces, StatementText;
  }

  lemma {:induction false} NoDecorators(s: Statement)
    requires Basic(s)
    ensures !s.DecoratorStatement?
  {
  }

  lemma {:induction false} NothingAdded(e: Emission, pieces: seq<Piece>, r: Rendered)
    ensures Emission([] + e.opcodes, [] + e.children) == e && [] + pieces == pieces
    ensures Rendered("" + r.text, true && r.clean) == r
  {
    assert [] + e.opcodes == e.opcodes && [] + e.children == e.children;
    assert "" + r.text == r.text;
  }

  lemma {:induction false} BlankIs(w: World, tree: Env, config: Config, scope: Scope, s: Statement, guid: nat)
    requires Blank(s)
    ensures Supported(s) && StatementPieces(config, scope, s, guid) == [] && EmitStatement(scope, s, guid) == Emission([], [])
    ensures StatementText(w, tree, scope, s) == Rendered("", true)
  {
  }

  /** One statement in front of others. */
  lemma {:induction false} Unfolded(w: World, tree: Env, config: Config, scope: Scope, s: Statement, rest: seq<Statement>, guid: nat)
    ensures var body := [s] + rest;
            var first := EmitStatement(scope, s, guid);
            var next := guid + |first.children|;
            var (e, x, y) := (EmitBody(scope, rest, next), StatementText(w, tree, scope, s), BodyText(w, tree, scope, rest));
            && EmitBody(scope, body, guid) == Emission(first.opcodes + e.opcodes, first.children + e.children)
            && BodyText(w, tree, scope, body) == Rendered(x.text + y.text, x.clean && y.clean)
            && (BasicBody(body) <==> Basic(s) && BasicBody(rest))
            && (BodySupported(body) <==> Supported(s) && BodySupported(rest))
            && (BodyFits(scope, body) <==> Fits(scope, s) && BodyFits(scope, rest))
            && (BodyUsesDepths(scope, body) <==> StatementUsesDepths(scope, s) || BodyUsesDepths(scope, rest))
            && (BodySupported(body) ==>
                  BodyPieces(config, scope, body, guid) == StatementPieces(config, scope, s, guid) + BodyPieces(config, scope, rest, next))
  {
    hide EmitStatement, StatementText, StatementPieces, Basic, Supported, Fits, StatementUsesDepths;
    var body := [s] + rest;
    assert body[0] == s && body[1..] == rest;
  }

  /** A program that was compiled as one of a single statement, although only its opcodes are. */
  lemma {:induction false} OneWritingProgram(w: World, t: Template, env: Env, tree: Env, config: Config, scope: Scope, body: seq<Statement>)
    requires GoodBody(config, scope, body, 0, t, env, tree) && BodySupported(body) && config.isSimple
    requires Writings(EmitBody(scope, body, 0).opcodes) <= 1
    requires t.body == Merge(ProgramLines(config, scope, body), true)
    ensures var r := BodyText(w, tree, scope, body);
            r.clean ==> RunTemplate(w, t, env) == Str(r.text)
    decreases body, 3
  {
    LeftOver(w, t, env, tree, config, scope, body);
    var rest := NotBlank(body);
    hide *;
    if rest == [] {
      SilentProgram(w, t, env, tree, config, scope);
    } else {
      var i := TheOne(body);
      // a slice of the body, cut so that it is seen to be no larger
      var from := if i == 0 then body else body[i..];
      var one := if |from| == 1 then from else from[..1];
      assert one == rest;
      SimpleProgram(w, t, env, tree, config, scope, one);
    }
  }

  lemma {:induction false} LeftOver(w: World, t: Template, env: Env, tree: Env, config: Config, scope: Scope, body: seq<Statement>)
    requires GoodBody(config, scope, body, 0, t, env, tree) && BodySupported(body)
    requires Writings(EmitBody(scope, body, 0).opcodes) <= 1
    ensures var rest := NotBlank(body);
            && |rest| <= 1 && BodySupported(rest) && GoodBody(config, scope, rest, 0, t, env, tree)
            && ProgramLines(config, scope, rest) == ProgramLines(config, scope, body)
            && BodyText(w, tree, scope, rest) == BodyText(w, tree, scope, body)
  {
    BlanksDrop(w, tree, config, scope, body, 0);
    hide EmitBody, BodyPieces, BodyText, NotBlank, Writings, Write;
  }

  lemma {:induction false} TheOne(body: seq<Statement>) returns (i: nat)
    requires |NotBlank(body)| == 1
    ensures i < |body| && NotBlank(body) == body[i..i + 1]
    decreases |body|
  {
    if Blank(body[0]) {
      i := TheOne(body[1..]);
      i := i + 1;
    } else {
      i := 0;
      assert NotBlank(body) == [body[0]] + NotBlank(body[1..]);
      assert NotBlank(body[1..]) == [];
    }
  }

  lemma {:induction false} SilentProgram(w: World, t: Template, env: Env, tree: Env, config: Config, scope: Scope)
    requires t.body == Merge(ProgramLines(config, scope, []), true)
    ensures RunTemplate(w, t, env) == Str("") && BodyText(w, tree, scope, []) == Rendered("", true)
  {
    assert ProgramLines(config, scope, []) == [];
    ReturnsNothing(w, t, env);
  }

  lemma {:induction false} SequenceProgram(w: World, t: Template, env: Env, tree: Env, config: Config, scope: Scope, body: seq<Statement>)
    requires GoodBody(config, scope, body, 0, t, env, tree) && BodySupported(body) && !config.isSimple
    requires t.body == Merge(ProgramLines(config, scope, body), false)
    ensures var r := BodyText(w, tree, scope, body);
            r.clean ==> RunTemplate(w, t, env) == Str(r.text)
    decreases body, 2
  {
    if BodyText(w, tree, scope, body).clean {
      assert Progress(w, t, env, Start) == Written(EmptyFrame, "", true);
      hide GoodBody, BodyText, BodyPieces, RunTemplate, Merge, Write;
      BodyProgress(w, t, env, tree, config, scope, Start, body, 0);
      var m := Write(config, Start, BodyPieces(config, scope, body, 0));
      FlushKeepsProgress(w, t, env, config, m);
      PiecesBuffered(config, scope, body, 0);
      WriteBuffered(config, Start, BodyPieces(config, scope, body, 0));
      var lines := ProgramLines(config, scope, body);
      var x := RunInOrder(w, t, env, EmptyFrame, "", lines);
      assert x.text + "" == x.text;
      MergeRefinesAppend(w, t, env, lines);
    }
  }

  // ----- programs of a single statement

  /** Lines without append marks run one by one. */
  lemma {:induction false} PlainLines(w: World, t: Template, env: Env, f: Frame, lines: seq<Line>, rest: seq<SourceLine>)
    requires lines != [] && !lines[0].Appended?
    ensures RunLines(w, t, env, f, Undefined, Unmarked(lines) + rest, false)
         == (var flow := RunStatement(w, t, env, f, Undefined, lines[0]);
             if flow.Running? then RunLines(w, t, env, flow.frame, flow.buffer, Unmarked(lines[1..]) + rest, false) else flow)
  {
    var marked := Unmarked(lines) + rest;
    assert marked[0] == SourceLine(lines[0], NoPrefix, false);
    assert marked[1..] == Unmarked(lines[1..]) + rest;
  }

  lemma {:induction false} PlainMerge(lines: seq<Line>)
    requires lines != [] && forall i :: 0 <= i < |lines| ==> !lines[i].Appended?
    ensures Merge(lines, true) == Body(NoBuffer, Unmarked(lines) + [])
  {
    assert Marks(lines, true) == Unmarked(lines);
  }

  lemma {:induction false} ReturnsValue(w: World, t: Template, env: Env, e: JsExpr)
    requires t.body == Merge([Return(e)], true)
    ensures RunTemplate(w, t, env) == AsValue(Eval(w, t, env, EmptyFrame, e).item)
  {
    PlainMerge([Return(e)]);
    PlainLines(w, t, env, EmptyFrame, [Return(e)], []);
  }

  lemma {:induction false} ReturnsNothing(w: World, t: Template, env: Env)
    requires t.body == Merge([], true)
    ensures RunTemplate(w, t, env) == Str("")
  {
    var line := Return(Constant(TextLiteral("")));
    assert Merge([], true).lines == [SourceLine(line, NoPrefix, false)];
    assert Unmarked([line]) + [] == [SourceLine(line, NoPrefix, false)];
    PlainLines(w, t, env, EmptyFrame, [line], []);
    assert Eval(w, t, env, EmptyFrame, Constant(TextLiteral(""))).item == V(Str(""));
  }

  lemma {:induction false} OnePiece(config: Config, scope: Scope, body: seq<Statement>)
    requires |body| == 1 && BodySupported(body)
    ensures ProgramLines(config, scope, body) == Flushed(config, Write(config, Start, StatementPieces(config, scope, body[0], 0))).source
  {
    var pieces := StatementPieces(config, scope, body[0], 0);
    var next := |EmitStatement(scope, body[0], 0).children|;
    assert BodyPieces(config, scope, body[1..], next) == [];
    assert pieces + [] == pieces;
  }

  lemma {:induction false} SimpleProgram(w: World, t: Template, env: Env, tree: Env, config: Config, scope: Scope, body: seq<Statement>)
    requires GoodBody(config, scope, body, 0, t, env, tree) && BodySupported(body) && config.isSimple && |body| == 1
    requires t.body == Merge(ProgramLines(config, scope, body), true)
    ensures var r := BodyText(w, tree, scope, body);
            r.clean ==> RunTemplate(w, t, env) == Str(r.text)
    decreases body, 2
  {
    var s := body[0];
    BodyHead(config, scope, body, 0, t, env, tree);
    assert Basic(s);
    OnePiece(config, scope, body);
    var r := StatementText(w, tree, scope, s);
    assert BodyText(w, tree, scope, body) == Rendered(r.text, r.clean) by {
      assert BodyText(w, tree, scope, body[1..]) == Rendered("", true);
      assert r.text + "" == r.text;
    }
    hide CallCode, BlockResult, PartialResult, PartialCode, PlainValue, Prepare, EmitStatement, Classify, BlockCode, GoodBody, GoodCaller, RunTemplate, Merge, Write;
    match s
    case ContentStatement(value) =>
      ReturnsText(w, t, env, config, value);
    case MustacheStatement(call, escaped) =>
      MustacheEvals(w, t, env, tree, config, scope, s);
      var code := CallCode(config, scope, call, false, None, None);
      var v := PlainValue(w, tree, Prepare(w, tree, scope, call, false));
      if escaped && !scope.flags.noEscape {
        ReturnsEscaped(w, t, env, config, code, v);
      } else {
        ReturnsRaw(w, t, env, config, code, v);
      }
    case BlockStatement(call, _, _) =>
      if r.clean {
        if Classify(scope, call, false).AmbiguousKind? {
          SimpleAmbiguous(w, t, env, tree, config, scope, s);
        } else {
          BlockEvals(w, t, env, tree, config, scope, s, 0);
          PlainBlock(config, scope, s, 0);
          ReturnsRaw(w, t, env, config, BlockCode(config, scope, s, 0), BlockResult(w, tree, scope, s).value);
        }
      }
    case PartialStatement(_, _, _, block) =>
      if r.clean {
        PartialEvals(w, t, env, tree, config, scope, s, 0);
        ReturnsRaw(w, t, env, config, PartialCode(config, scope, s, Guid(block, 0)), PartialResult(w, tree, scope, s).value);
      }
    case CommentStatement =>
      assert Flushed(config, Write(config, Start, [])).source == [];
      ReturnsNothing(w, t, env);
    case _ =>
  }

  lemma {:induction false} ReturnsText(w: World, t: Template, env: Env, config: Config, text: string)
    requires config.isSimple
    requires t.body == Merge(Flushed(config, Write(config, Start, if text == "" then [] else [TextPiece(text)])).source, true)
    ensures RunTemplate(w, t, env) == Str(text)
  {
    if text == "" {
      ReturnsNothing(w, t, env);
    } else {
      var e := Constant(TextLiteral(text));
      assert [TextPiece(text)][1..] == [];
      assert Write(config, Start, [TextPiece(text)]) == Start.(pending := text);
      ReturnsValue(w, t, env, e);
      assert Eval(w, t, env, EmptyFrame, e).item == V(Str(text));
    }
  }

  lemma {:induction false} ReturnsEscaped(w: World, t: Template, env: Env, config: Config, code: JsExpr, v: Value)
    requires config.isSimple && Evals(w, t, env, code, V(v))
    requires t.body == Merge(Flushed(config, Write(config, Start, [LinePiece(Return(Escape(code)))])).source, true)
    ensures RunTemplate(w, t, env) == Str(w.escape(v))
  {
    WriteOne(config, Start, Return(Escape(code)));
    ReturnsValue(w, t, env, Escape(code));
    assert Eval(w, t, env, EmptyFrame, Escape(code)).item == V(Str(w.escape(v)));
  }

  lemma {:induction false} ReturnsRaw(w: World, t: Template, env: Env, config: Config, code: JsExpr, v: Value)
    requires config.isSimple && Evals(w, t, env, code, V(v))
    requires t.body == Merge(Flushed(config, Write(config, Start, RawPieces(config, code))).source, true)
    ensures RawText(w, v).clean ==> RunTemplate(w, t, env) == Str(RawText(w, v).text)
  {
    var e := Wrapped(OrEmpty, SetTemp(1, code), Temp(1));
    WriteOne(config, Start, Return(e));
    ReturnsValue(w, t, env, e);
    RawEvals(w, t, env, code, v, EmptyFrame);
  }

  lemma {:induction false} SimpleAmbiguous(w: World, t: Template, env: Env, tree: Env, config: Config, scope: Scope, s: Statement)
    requires s.BlockStatement? && GoodCaller(config, scope, s, 0, t, env, tree) && Classify(scope, s.call, false).AmbiguousKind? && config.isSimple
    requires var (p, i) := Programs(s, 0);
             t.body == Merge(Flushed(config, Write(config, Start, BlockPieces(config, scope, s.call, p, i))).source, true)
    ensures var r := BlockResult(w, tree, scope, s);
            r.clean && RawText(w, r.value).clean ==> RunTemplate(w, t, env) == Str(RawText(w, r.value).text)
    decreases s, 4
  {
    hide CallCode, BlockResult;
    var (p, i) := Programs(s, 0);
    var assign := Assign(1, CallCode(config, scope, s.call, false, p, i));
    var unless := UnlessHelper(Helper(s.call.path.parts[0]), Temp(1), InvokeMissing(Temp(1), OptionsVar));
    var lines := [assign, unless, ReturnIf(Temp(1)), ElseReturnEmpty];
    FourPieces(config, assign, unless);
    PlainMerge(lines);
    AmbiguousBlockRuns(w, t, env, tree, config, scope, s, 0, EmptyFrame, Undefined);
    var f1 := RunStatement(w, t, env, EmptyFrame, Undefined, assign).frame;
    var f2 := RunStatement(w, t, env, f1, Undefined, unless).frame;
    FourLines(w, t, env, assign, unless, f1, f2);
  }

  lemma {:induction false} FourPieces(config: Config, a: Line, b: Line)
    requires config.isSimple
    ensures Flushed(config, Write(config, Start, [LinePiece(a), LinePiece(b)] + [LinePiece(ReturnIf(Temp(1))), LinePiece(ElseReturnEmpty)])).source
         == [a, b, ReturnIf(Temp(1)), ElseReturnEmpty]
  {
    var (c, d) := (ReturnIf(Temp(1)), ElseReturnEmpty);
    ThreePieces(config, Start, a, b, c);
    var pieces := [LinePiece(a), LinePiece(b)] + [LinePiece(c), LinePiece(d)];
    assert pieces == [LinePiece(a), LinePiece(b)] + [LinePiece(c)] + [LinePiece(d)];
    WriteAppend(config, Start, [LinePiece(a), LinePiece(b)] + [LinePiece(c)], [LinePiece(d)]);
    WriteOne(config, Write(config, Start, [LinePiece(a), LinePiece(b)] + [LinePiece(c)]), d);
  }

  lemma {:induction false} FourLines(w: World, t: Template, env: Env, a: Line, b: Line, f1: Frame, f2: Frame)
    requires !a.Appended? && !b.Appended?
    requires t.body == Body(NoBuffer, Unmarked([a, b, ReturnIf(Temp(1)), ElseReturnEmpty]) + [])
    requires RunStatement(w, t, env, EmptyFrame, Undefined, a) == Running(f1, Undefined)
    requires RunStatement(w, t, env, f1, Undefined, b) == Running(f2, Undefined)
    ensures RunTemplate(w, t, env) == if IsNull(TempValue(f2, 1)) then Str("") else TempValue(f2, 1)
  {
    hide RunLines, RunStatement;
    var (c, d) := (ReturnIf(Temp(1)), ElseReturnEmpty);
    PlainLines(w, t, env, EmptyFrame, [a, b, c, d], []);
    assert [a, b, c, d][1..] == [b, c, d] && [b, c, d][1..] == [c, d] && [c, d][1..] == [d];
    PlainLines(w, t, env, f1, [b, c, d], []);
    PlainLines(w, t, env, f2, [c, d], []);
    PlainLines(w, t, env, f2, [d], []);
    LastTwo(w, t, env, f2);
  }

  lemma {:induction false} LastTwo(w: World, t: Template, env: Env, f: Frame)
    ensures RunStatement(w, t, env, f, Undefined, ReturnIf(Temp(1)))
         == if IsNull(TempValue(f, 1)) then Running(f, Undefined) else Returned(TempValue(f, 1))
    ensures RunStatement(w, t, env, f, Undefined, ElseReturnEmpty) == Returned(Str(""))
  {
    assert Eval(w, t, env, f, Temp(1)) == Result(V(TempValue(f, 1)), f);
  }

  // ----- the theorem

  /** Every template of supported statements with usable hash keys compiles, nested programs included. */
  lemma {:induction false} BuildSucceeds(flags: Flags, scope: Scope, program: Program)
    requires scope.flags == flags
    requires BodySupported(program.body) && BodyFits(Inner(scope, program), program.body)
    ensures Build(flags, CompileProgram(scope, program)).Some?
    decreases program, 2
  {
    var e := CompileProgram(scope, program);
    FitOwn(Inner(scope, program), program.body);
    GenerationSucceeds(Config(flags, e.isSimple, EnvDepths(e)), scope, program);
    BodyBuilds(flags, Inner(scope, program), program.body, 0);
  }

  lemma {:induction false} BuildAllAppend(flags: Flags, a: seq<Environment>, b: seq<Environment>)
    requires BuildAll(flags, a).Some? && BuildAll(flags, b).Some?
    ensures BuildAll(flags, a + b).Some?
    decreases |a|
  {
    if a == [] {
      assert a + b == b;
    } else {
      assert (a + b)[1..] == a[1..] + b;
      BuildAllAppend(flags, a[1..], b);
    }
  }

  lemma {:induction false} BodyBuilds(flags: Flags, scope: Scope, body: seq<Statement>, guid: nat)
    requires scope.flags == flags
    requires BodySupported(body) && BodyFits(scope, body)
    ensures BuildAll(flags, EmitBody(scope, body, guid).children).Some?
    decreases body, 1
  {
    hide EmitStatement, Build, Fits, Supported;
    if body != [] {
      var first := EmitStatement(scope, body[0], guid).children;
      StatementBuilds(flags, scope, body[0], guid);
      BodyBuilds(flags, scope, body[1..], guid + |first|);
      BuildAllAppend(flags, first, EmitBody(scope, body[1..], guid + |first|).children);
      hide BuildAll;
    }
  }

  lemma {:induction false} StatementBuilds(flags: Flags, scope: Scope, s: Statement, guid: nat)
    requires scope.flags == flags
    requires Supported(s) && Fits(scope, s)
    ensures BuildAll(flags, EmitStatement(scope, s, guid).children).Some?
    decreases s, 1
  {
    match s
    case BlockStatement(_, program, inverse) =>
      ChildBuilds(flags, scope, program);
      ChildBuilds(flags, scope, inverse);
      BuildAllAppend(flags, CompileChild(scope, program), CompileChild(scope, inverse));
    case PartialStatement(_, _, _, block) => ChildBuilds(flags, scope, block);
    case DecoratorStatement(_, block) => ChildBuilds(flags, scope, block);
    case _ =>
  }

  lemma {:induction false} ChildBuilds(flags: Flags, scope: Scope, child: Child)
    requires scope.flags == flags
    requires ChildSupported(child) && ChildFits(scope, child)
    ensures BuildAll(flags, CompileChild(scope, child)).Some?
    decreases child, 1
  {
    if child.Present? {
      BuildSucceeds(flags, scope, child.program);
      var es := [CompileProgram(scope, child.program)];
      assert es[1..] == [] && BuildAll(flags, es[1..]) == Some([]);
    }
  }

  /** A compiled program serves the program it was compiled for. */
  lemma {:induction false} BuiltServes(flags: Flags, scope: Scope, program: Program, t: Template)
    requires scope.flags == flags && BasicBody(program.body) && Build(flags, CompileProgram(scope, program)) == Some(t)
    ensures Serves(flags, CompileProgram(scope, program), t)
    decreases program, 2
  {
    var e := CompileProgram(scope, program);
    DepthsCovered(scope, program);
    DeepExactly(scope, program);
    OneStatementWrites(Inner(scope, program), program.body);
    hide Generate, Merge, Deep, EnvDepths, Writings, EmitBody;
    assert BuildAll(flags, e.children) == Some(t.children) && BodyOf(flags, e, t.body, e.isSimple);
    hide Build, BodyOf;
    forall i | 0 <= i < |e.children| ensures |t.children| == |e.children| && Serves(flags, e.children[i], t.children[i]) {
      BuildAllAt(flags, e.children, i);
      BodyServes(flags, Inner(scope, program), program.body, 0, i, t.children[i]);
    }
    if e.children == [] {
      assert t.children == [];
    }
  }

  lemma {:induction false} OneStatementWrites(scope: Scope, body: seq<Statement>)
    ensures |body| == 1 ==> Writings(EmitBody(scope, body, 0).opcodes) <= 1
  {
    if |body| == 1 {
      var e := EmitStatement(scope, body[0], 0);
      WritesOnce(scope, body[0], 0);
      hide EmitStatement, Writings;
      assert EmitBody(scope, body[1..], |e.children|) == Emission([], []);
      assert e.opcodes + [] == e.opcodes;
    }
  }

  lemma {:induction false} BodyServes(flags: Flags, scope: Scope, body: seq<Statement>, guid: nat, i: nat, t: Template)
    requires scope.flags == flags && BasicBody(body) && i < |EmitBody(scope, body, guid).children|
    requires Build(flags, EmitBody(scope, body, guid).children[i]) == Some(t)
    ensures Serves(flags, EmitBody(scope, body, guid).children[i], t)
    decreases body, 1
  {
    hide Serves, Build;
    var first := EmitStatement(scope, body[0], guid).children;
    if i < |first| {
      StatementServes(flags, scope, body[0], guid, i, t);
    } else {
      BodyServes(flags, scope, body[1..], guid + |first|, i - |first|, t);
    }
  }

  lemma {:induction false} StatementServes(flags: Flags, scope: Scope, s: Statement, guid: nat, i: nat, t: Template)
    requires scope.flags == flags && Basic(s) && i < |EmitStatement(scope, s, guid).children|
    requires Build(flags, EmitStatement(scope, s, guid).children[i]) == Some(t)
    ensures Serves(flags, EmitStatement(scope, s, guid).children[i], t)
    decreases s, 0
  {
    hide Serves, Build, EmitCall, BlockTail;
    if s.BlockStatement? {
      if i == 0 && s.program.Present? {
        BuiltServes(flags, scope, s.program.program, t);
      } else {
        BuiltServes(flags, scope, s.inverse.program, t);
      }
    } else if s.PartialStatement? {
      BuiltServes(flags, scope, s.block.program, t);
    }
  }

  /** The environment of a top-level call: the depths exist only if the compiled template asked for them. */
  function RootEnv(context: Value, data: Value, useDepths: bool): Env {
    Env(context, if useDepths then [context] else [], data)
  }

  /** Compiler correctness. Under all options a template of content, comments, mustaches, blocks and partials, with calls,
      parameters, hashes and sub-expressions nested to any depth, compiles if its calls fit; and in every world, if its raw
      output consists of strings and nulls and no partial it calls has lost its name to an explicit context, the compiled
      template returns exactly the text that the tree means. */
  lemma {:induction false} CompilerCorrect(w: World, flags: Flags, program: Program, context: Value, data: Value)
    requires program.blockParams == [] && BasicBody(program.body) && BodyFits(Inner(Scope(flags, []), program), program.body)
    ensures var scope := Scope(flags, []);
            var e := CompileProgram(scope, program);
            var t := Build(flags, e);
            var r := BodyText(w, Env(context, [context], data), Inner(scope, program), program.body);
            && t.Some?
            && (r.clean ==> RunTemplate(w, t.value, RootEnv(context, data, e.useDepths)) == Str(r.text))
  {
    var scope := Scope(flags, []);
    var e := CompileProgram(scope, program);
    BasicSupported(program.body);
    BuildSucceeds(flags, scope, program);
    BuiltServes(flags, scope, program, Build(flags, e).value);
    hide Build, Serves, BodyText, RunTemplate;
    ProgramMatches(w, Build(flags, e).value, RootEnv(context, data, e.useDepths), Env(context, [context], data), flags, scope, program);
  }
}
