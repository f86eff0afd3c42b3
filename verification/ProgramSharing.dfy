/** Compilation with the table of the functions compiled so far: an environment equal to one in the table gets the
    function that is there. */
module ProgramSharing {
  import opened Wrappers
  import opened HandlebarsAst
  import opened HandlebarsCompiler
  import opened JsCode
  import opened JsValues
  import opened CodeMachine
  import opened BufferMerging
  import opened ProgramTable
  import opened TemplateSemantics
  import opened Execution
  import opened TemplateMeaning
  import opened ExactCompilation

  datatype Compiled = Compiled(environment: Environment, template: Template)

  /** What compiling leaves: the template, whether it turned the depths on, and the table. */
  datatype Shared = Shared(template: Template, depths: bool, table: seq<Compiled>)

  datatype SharedAll = SharedAll(templates: seq<Template>, depths: bool, table: seq<Compiled>)

  /** The first entry that is equal. */
  function Match(table: seq<Compiled>, e: Environment): (i: Option<nat>)
    ensures i.Some? ==> i.value < |table| && Equals(table[i.value].environment, e)
  {
    if table == [] then None
    else if Equals(table[0].environment, e) then Some(0)
    else
      var i :- Match(table[1..], e);
      Some(i + 1)
  }

  function Share(flags: Flags, e: Environment, table: seq<Compiled>): Option<Shared>
    decreases e, 0
  {
    var all :- ShareAll(flags, e.children, table);
    var depths := all.depths || e.useDepths || e.useDecorators;
    var m :- Generate(Config(flags, e.isSimple, depths), e.opcodes);
    Some(Shared(Template(Merge(m.source, e.isSimple), all.templates), depths, all.table))
  }

  /** The nested programs in order, each finding what was compiled before it. */
  function ShareAll(flags: Flags, es: seq<Environment>, table: seq<Compiled>): Option<SharedAll>
    decreases es, 0
  {
    if es == [] then Some(SharedAll([], false, table))
    else
      var first :- ShareOne(flags, es[0], table);
      var rest :- ShareAll(flags, es[1..], first.table);
      Some(SharedAll([first.template] + rest.templates, first.depths || rest.depths, rest.table))
  }

  function ShareOne(flags: Flags, e: Environment, table: seq<Compiled>): Option<Shared>
    decreases e, 1
  {
    var i := Match(table, e);
    if i.Some? then Some(Shared(table[i.value].template, e.useDepths, table))
    else
      var r :- Share(flags, e, table);
      Some(r.(table := r.table + [Compiled(e, r.template)]))
  }

  // ----- environments of programs

  /** `e` was made by the first pass, and from a template of content, comments, mustaches, blocks and partials if `basic`. */
  ghost predicate FromProgram(flags: Flags, e: Environment, basic: bool) {
    exists scope: Scope, program: Program ::
      && scope.flags == flags && e == CompileProgram(scope, program) && BodySupported(program.body)
      && (basic ==> BasicBody(program.body))
  }

  ghost predicate AllFrom(flags: Flags, es: seq<Environment>, basic: bool) {
    forall i :: 0 <= i < |es| ==> FromProgram(flags, es[i], basic)
  }

  lemma {:induction false} FromBoth(flags: Flags, a: seq<Environment>, b: seq<Environment>, basic: bool)
    requires AllFrom(flags, a, basic) && AllFrom(flags, b, basic)
    ensures AllFrom(flags, a + b, basic)
  {
  }

  lemma {:induction false} ChildFrom(flags: Flags, scope: Scope, child: Child, basic: bool)
    requires scope.flags == flags && ChildSupported(child) && (basic && child.Present? ==> BasicBody(child.program.body))
    ensures AllFrom(flags, CompileChild(scope, child), basic)
  {
    if child.Present? {
      assert FromProgram(flags, CompileProgram(scope, child.program), basic);
    }
  }

  lemma {:induction false} StatementFrom(flags: Flags, scope: Scope, s: Statement, guid: nat, basic: bool)
    requires scope.flags == flags && Supported(s) && (basic ==> Basic(s))
    ensures AllFrom(flags, EmitStatement(scope, s, guid).children, basic)
  {
    hide CompileChild, EmitCall, EmitSetup, EmitPartial, BlockTail, FromProgram;
    match s
    case BlockStatement(_, program, inverse) =>
      ChildFrom(flags, scope, program, basic);
      ChildFrom(flags, scope, inverse, basic);
      FromBoth(flags, CompileChild(scope, program), CompileChild(scope, inverse), basic);
    case PartialStatement(_, _, _, block) => ChildFrom(flags, scope, block, basic);
    case DecoratorStatement(_, block) => ChildFrom(flags, scope, block, basic);
    case _ =>
  }

  lemma {:induction false} BodyFrom(flags: Flags, scope: Scope, body: seq<Statement>, guid: nat, basic: bool)
    requires scope.flags == flags && BodySupported(body) && (basic ==> BasicBody(body))
    ensures AllFrom(flags, EmitBody(scope, body, guid).children, basic)
    decreases |body|
  {
    if body != [] {
      hide EmitStatement, FromProgram;
      var first := EmitStatement(scope, body[0], guid).children;
      StatementFrom(flags, scope, body[0], guid, basic);
      BodyFrom(flags, scope, body[1..], guid + |first|, basic);
      FromBoth(flags, first, EmitBody(scope, body[1..], guid + |first|).children, basic);
    }
  }

  lemma {:induction false} ChildrenFrom(flags: Flags, e: Environment, basic: bool)
    requires FromProgram(flags, e, basic)
    ensures AllFrom(flags, e.children, basic)
  {
    var scope: Scope, program: Program :| scope.flags == flags && e == CompileProgram(scope, program)
      && BodySupported(program.body) && (basic ==> BasicBody(program.body));
    BodyFrom(flags, Inner(scope, program), program.body, 0, basic);
  }

  // ----- which templates compile

  /** Whether the opcodes of a program can be generated depends neither on the depths nor on the number of statements. */
  lemma {:induction false} GeneratesAlike(flags: Flags, e: Environment, c: Config, d: Config)
    requires FromProgram(flags, e, false) && c.flags == d.flags == flags
    ensures Generate(c, e.opcodes).Some? <==> Generate(d, e.opcodes).Some?
  {
    var scope: Scope, program: Program :| scope.flags == flags && e == CompileProgram(scope, program) && BodySupported(program.body);
    GeneratesExactly(c, scope, program);
    GeneratesExactly(d, scope, program);
    hide Generate, CompileProgram;
  }

  /** Everything in the table is from a program and could be compiled. */
  ghost predicate Sound(flags: Flags, table: seq<Compiled>) {
    forall i :: 0 <= i < |table| ==> FromProgram(flags, table[i].environment, false) && Build(flags, table[i].environment).Some?
  }

  lemma {:induction false} BuildsAll(flags: Flags, es: seq<Environment>)
    ensures BuildAll(flags, es).Some? <==> forall i :: 0 <= i < |es| ==> Build(flags, es[i]).Some?
    decreases |es|
  {
    hide Build;
    if es != [] {
      BuildsAll(flags, es[1..]);
      if BuildAll(flags, es[1..]).Some? && Build(flags, es[0]).Some? {
        forall i | 0 <= i < |es| ensures Build(flags, es[i]).Some? {
          assert i > 0 ==> es[i] == es[1..][i - 1];
        }
      } else if Build(flags, es[0]).Some? {
        var i :| 0 <= i < |es[1..]| && Build(flags, es[1..][i]).None?;
        assert es[i + 1] == es[1..][i];
      }
    }
  }

  lemma {:induction false} EqualBuilds(flags: Flags, a: Environment, b: Environment)
    requires Equals(a, b) && FromProgram(flags, a, false) && FromProgram(flags, b, false)
    ensures Build(flags, a).Some? <==> Build(flags, b).Some?
    decreases a
  {
    ChildrenFrom(flags, a, false);
    ChildrenFrom(flags, b, false);
    forall i | 0 <= i < |a.children| ensures Build(flags, a.children[i]).Some? <==> Build(flags, b.children[i]).Some? {
      EqualBuilds(flags, a.children[i], b.children[i]);
    }
    BuildsAll(flags, a.children);
    BuildsAll(flags, b.children);
    GeneratesAlike(flags, a, Config(flags, a.isSimple, EnvDepths(a)), Config(flags, b.isSimple, EnvDepths(b)));
    hide Generate, BuildAll, EnvDepths, Merge, FromProgram;
  }

  /** Sharing makes no difference to whether a template compiles. */
  lemma {:induction false} ShareExactly(flags: Flags, e: Environment, table: seq<Compiled>)
    requires FromProgram(flags, e, false) && Sound(flags, table)
    ensures Share(flags, e, table).Some? <==> Build(flags, e).Some?
    ensures Share(flags, e, table).Some? ==> Sound(flags, Share(flags, e, table).value.table)
    decreases e, 0
  {
    ChildrenFrom(flags, e, false);
    ShareAllExactly(flags, e.children, table);
    BuildsAll(flags, e.children);
    hide BuildAll, ShareAll, Generate, Merge, EnvDepths, Sound, FromProgram;
    var all := ShareAll(flags, e.children, table);
    if all.Some? {
      GeneratesAlike(flags, e, Config(flags, e.isSimple, EnvDepths(e)), Config(flags, e.isSimple, all.value.depths || e.useDepths || e.useDecorators));
    }
  }

  lemma {:induction false} ShareAllExactly(flags: Flags, es: seq<Environment>, table: seq<Compiled>)
    requires AllFrom(flags, es, false) && Sound(flags, table)
    ensures ShareAll(flags, es, table).Some? <==> forall i :: 0 <= i < |es| ==> Build(flags, es[i]).Some?
    ensures ShareAll(flags, es, table).Some? ==> Sound(flags, ShareAll(flags, es, table).value.table)
    decreases es, 0
  {
    hide Build, Sound, FromProgram, ShareOne;
    if es != [] {
      ShareOneExactly(flags, es[0], table);
      if ShareOne(flags, es[0], table).Some? {
        ShareAllExactly(flags, es[1..], ShareOne(flags, es[0], table).value.table);
        if i :| 0 <= i < |es[1..]| && Build(flags, es[1..][i]).None? {
          assert es[i + 1] == es[1..][i];
        } else {
          forall i | 0 <= i < |es| ensures Build(flags, es[i]).Some? {
            assert i > 0 ==> es[i] == es[1..][i - 1];
          }
        }
      }
    }
  }

  lemma {:induction false} ShareOneExactly(flags: Flags, e: Environment, table: seq<Compiled>)
    requires FromProgram(flags, e, false) && Sound(flags, table)
    ensures ShareOne(flags, e, table).Some? <==> Build(flags, e).Some?
    ensures ShareOne(flags, e, table).Some? ==> Sound(flags, ShareOne(flags, e, table).value.table)
    decreases e, 1
  {
    hide Build, Share, FromProgram;
    var i := Match(table, e);
    if i.Some? {
      EqualBuilds(flags, table[i.value].environment, e);
    } else {
      ShareExactly(flags, e, table);
    }
  }

  // ----- what shared templates return

  ghost predicate Serving(flags: Flags, table: seq<Compiled>) {
    forall i :: 0 <= i < |table| ==> Serves(flags, table[i].environment, table[i].template)
  }

  lemma {:induction false} FromDeep(flags: Flags, e: Environment)
    requires FromProgram(flags, e, true)
    ensures e.useDepths == Deep(e) && !e.useDecorators && (e.isSimple ==> Writings(e.opcodes) <= 1)
  {
    var scope: Scope, program: Program :| scope.flags == flags && e == CompileProgram(scope, program) && BasicBody(program.body);
    DeepExactly(scope, program);
    NoDecorator(program.body);
    OneStatementWrites(Inner(scope, program), program.body);
    hide Deep, Writings, EmitBody;
  }

  /** Whatever is shared, a template serves the program it was compiled for. */
  lemma {:induction false} ShareServes(flags: Flags, e: Environment, table: seq<Compiled>)
    requires FromProgram(flags, e, true) && Serving(flags, table) && Share(flags, e, table).Some?
    ensures var r := Share(flags, e, table).value;
            Serves(flags, e, r.template) && r.depths == Deep(e) && Serving(flags, r.table)
    decreases e, 0
  {
    ChildrenFrom(flags, e, true);
    FromDeep(flags, e);
    ShareAllServes(flags, e.children, table);
    hide ShareAll, Generate, Merge, Serving, FromProgram, Writings;
    var (r, all) := (Share(flags, e, table).value, ShareAll(flags, e.children, table).value);
    assert Deep(e) ==> e.useDepths;
    assert AnyDeep(e.children) ==> Deep(e);
    assert r.depths == Deep(e);
    assert BodyOf(flags, e, r.template.body, e.isSimple);
  }

  lemma {:induction false} ShareAllServes(flags: Flags, es: seq<Environment>, table: seq<Compiled>)
    requires AllFrom(flags, es, true) && Serving(flags, table) && ShareAll(flags, es, table).Some?
    ensures var all := ShareAll(flags, es, table).value;
            && |all.templates| == |es| && (forall i :: 0 <= i < |es| ==> Serves(flags, es[i], all.templates[i]))
            && all.depths == AnyDeep(es) && Serving(flags, all.table)
    decreases es, 0
  {
    if es != [] {
      hide Serving, FromProgram, ShareOne, Serves, Deep, Share;
      var first := ShareOne(flags, es[0], table).value;
      ShareOneServes(flags, es[0], table);
      ShareAllServes(flags, es[1..], first.table);
      var (rest, all) := (ShareAll(flags, es[1..], first.table).value, ShareAll(flags, es, table).value);
      assert all == SharedAll([first.template] + rest.templates, first.depths || rest.depths, rest.table);
      hide ShareAll, AnyDeep;
      assert es == [es[0]] + es[1..];
      ServesCons(flags, es[0], es[1..], first.template, rest.templates);
      DeepCons(es[0], es[1..]);
    }
  }

  lemma {:induction false} ServesCons(flags: Flags, e: Environment, es: seq<Environment>, t: Template, ts: seq<Template>)
    requires |es| == |ts| && Serves(flags, e, t) && forall i :: 0 <= i < |es| ==> Serves(flags, es[i], ts[i])
    ensures |[e] + es| == |[t] + ts| && forall i :: 0 <= i < |[e] + es| ==> Serves(flags, ([e] + es)[i], ([t] + ts)[i])
  {
    hide Serves;
  }

  lemma {:induction false} DeepCons(e: Environment, rest: seq<Environment>)
    ensures AnyDeep([e] + rest) <==> Deep(e) || AnyDeep(rest)
  {
    hide Deep;
    DeepBoth([e], rest);
    assert AnyDeep([e]) <==> Deep([e][0]);
  }

  lemma {:induction false} ShareOneServes(flags: Flags, e: Environment, table: seq<Compiled>)
    requires FromProgram(flags, e, true) && Serving(flags, table) && ShareOne(flags, e, table).Some?
    ensures var r := ShareOne(flags, e, table).value;
            Serves(flags, e, r.template) && r.depths == Deep(e) && Serving(flags, r.table)
    decreases e, 1
  {
    hide Share, FromProgram, Serves, Deep;
    var i := Match(table, e);
    if i.Some? {
      EqualServes(flags, table[i.value].environment, e, table[i.value].template);
      FromDeep(flags, e);
    } else {
      ShareServes(flags, e, table);
    }
  }

  /** Sharing equal programs changes no output: where the template that shares nothing returns the text of the tree, so
      does the one that shares; and one compiles exactly if the other does. */
  lemma {:induction false} SharingInvisible(w: World, flags: Flags, program: Program, context: Value, data: Value)
    requires program.blockParams == [] && BasicBody(program.body)
    ensures var scope := Scope(flags, []);
            var e := CompileProgram(scope, program);
            var (shared, alone) := (Share(flags, e, []), Build(flags, e));
            var r := BodyText(w, Env(context, [context], data), Inner(scope, program), program.body);
            && (shared.Some? <==> BodyFits(Inner(scope, program), program.body)) && (alone.Some? <==> shared.Some?)
            && (shared.Some? && r.clean ==>
                  && RunTemplate(w, shared.value.template, RootEnv(context, data, shared.value.depths)) == Str(r.text)
                  && RunTemplate(w, alone.value, RootEnv(context, data, e.useDepths)) == Str(r.text))
  {
    var scope := Scope(flags, []);
    var e := CompileProgram(scope, program);
    BasicSupported(program.body);
    CompilesExactly(flags, scope, program);
    assert FromProgram(flags, e, true) && FromProgram(flags, e, false);
    ShareExactly(flags, e, []);
    if Share(flags, e, []).Some? {
      ShareServes(flags, e, []);
      DeepExactly(scope, program);
      CompilerCorrect(w, flags, program, context, data);
      var r := Share(flags, e, []).value;
      hide Share, Build, RunTemplate, BodyText, Serves, Deep;
      ProgramMatches(w, r.template, RootEnv(context, data, r.depths), Env(context, [context], data), flags, scope, program);
    }
  }
}
