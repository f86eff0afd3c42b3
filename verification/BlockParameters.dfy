/** Who is handed the block parameters. The second pass turns a flag on at the first lookup of a block parameter, takes it
    over from the programs it compiles, and puts the parameters into a reference to a program if the flag is on by then.
    A program that is found in the table brings no flag along. */
module BlockParameters {
  import opened Wrappers
  import opened HandlebarsAst
  import opened HandlebarsCompiler
  import opened ProgramTable
  import opened ProgramSharing

  predicate LooksUp(ops: seq<Opcode>) {
    exists i :: 0 <= i < |ops| && ops[i].LookupBlockParam?
  }

  /** The program, or one nested in it, looks a block parameter up. */
  predicate Needs(e: Environment) {
    LooksUp(e.opcodes) || AnyNeeds(e.children)
  }

  predicate AnyNeeds(es: seq<Environment>) {
    exists i :: 0 <= i < |es| && Needs(es[i])
  }

  /** What compiling leaves: the two flags, and the programs in the table. */
  datatype Turned = Turned(params: bool, depths: bool, table: seq<Environment>)

  predicate Known(table: seq<Environment>, e: Environment) {
    exists i :: 0 <= i < |table| && Equals(table[i], e)
  }

  function Turn(e: Environment, table: seq<Environment>): Turned
    decreases e, 0
  {
    var children := TurnAll(e.children, table);
    Turned(children.params || LooksUp(e.opcodes), DepthsOf(e, children), children.table)
  }

  function TurnAll(es: seq<Environment>, table: seq<Environment>): Turned
    decreases es, 0
  {
    if es == [] then Turned(false, false, table)
    else
      var first := TurnOne(es[0], table);
      var rest := TurnAll(es[1..], first.table);
      Turned(first.params || rest.params, first.depths || rest.depths, rest.table)
  }

  function TurnOne(e: Environment, table: seq<Environment>): Turned
    decreases e, 1
  {
    if Known(table, e) then Turned(false, e.useDepths, table)
    else
      var r := Turn(e, table);
      r.(table := r.table + [e])
  }

  predicate DepthsOf(e: Environment, children: Turned) {
    children.depths || e.useDepths || e.useDecorators
  }

  /** The opcode refers to a program that needs block parameters. */
  predicate RefersToNeed(e: Environment, k: nat) {
    && k < |e.opcodes| && e.opcodes[k].PushProgram? && e.opcodes[k].guid.Some?
    && e.opcodes[k].guid.value < |e.children| && Needs(e.children[e.opcodes[k].guid.value])
  }

  /** The reference that opcode `k` pushes is given the block parameters. */
  predicate Handed(e: Environment, table: seq<Environment>, k: nat)
    requires k < |e.opcodes|
  {
    var children := TurnAll(e.children, table);
    children.params || LooksUp(e.opcodes[..k]) || DepthsOf(e, children)
  }

  ghost predicate HandsOn(e: Environment, table: seq<Environment>) {
    forall k: nat :: RefersToNeed(e, k) ==> Handed(e, table, k)
  }

  // ----- the same compiler

  function Environments(table: seq<Compiled>): seq<Environment> {
    seq(|table|, i requires 0 <= i < |table| => table[i].environment)
  }

  lemma {:induction false} KnownIsMatch(table: seq<Compiled>, e: Environment)
    ensures Known(Environments(table), e) <==> Match(table, e).Some?
    decreases |table|
  {
    hide Equals;
    if table != [] {
      KnownIsMatch(table[1..], e);
      assert Environments(table) == [table[0].environment] + Environments(table[1..]);
      var (es, rest) := (Environments(table), Environments(table[1..]));
      assert forall i :: 0 <= i < |rest| ==> es[i + 1] == rest[i];
      if Known(es, e) && !Equals(es[0], e) {
        var i :| 0 <= i < |es| && Equals(es[i], e);
        assert es[i] == rest[i - 1];
      }
      if i :| 0 <= i < |rest| && Equals(rest[i], e) {
        assert Equals(es[i + 1], e);
      }
      assert es[0] == table[0].environment;
    }
  }

  /** This is the compiler of the programs as far as the depths and the table go. */
  lemma {:induction false} TurnsLikeShare(flags: Flags, e: Environment, table: seq<Compiled>)
    requires Share(flags, e, table).Some?
    ensures var (r, t) := (Share(flags, e, table).value, Turn(e, Environments(table)));
            t.depths == r.depths && t.table == Environments(r.table)
    decreases e, 0
  {
    AllTurnLikeShare(flags, e.children, table);
  }

  lemma {:induction false} AllTurnLikeShare(flags: Flags, es: seq<Environment>, table: seq<Compiled>)
    requires ShareAll(flags, es, table).Some?
    ensures var (r, t) := (ShareAll(flags, es, table).value, TurnAll(es, Environments(table)));
            t.depths == r.depths && t.table == Environments(r.table)
    decreases es, 0
  {
    hide Share, Match, Known, Turn;
    if es != [] {
      KnownIsMatch(table, es[0]);
      var first := ShareOne(flags, es[0], table).value;
      if Match(table, es[0]).None? {
        TurnsLikeShare(flags, es[0], table);
        var r := Share(flags, es[0], table).value;
        assert Environments(r.table + [Compiled(es[0], r.template)]) == Environments(r.table) + [es[0]];
      }
      assert TurnOne(es[0], Environments(table)).table == Environments(first.table);
      AllTurnLikeShare(flags, es[1..], first.table);
    }
  }

  // ----- where the flag comes from

  /** The table when the turn of `es[i]` comes. */
  function TableAt(es: seq<Environment>, table: seq<Environment>, i: nat): seq<Environment>
    requires i <= |es|
    decreases i
  {
    if i == 0 then table else TableAt(es[1..], TurnOne(es[0], table).table, i - 1)
  }

  /** A lookup of a block parameter is reached through programs that are all compiled for the first time. */
  ghost predicate ReachedAfresh(e: Environment, table: seq<Environment>)
    decreases e, 0
  {
    LooksUp(e.opcodes) || AnyAfresh(e.children, table)
  }

  ghost predicate AnyAfresh(es: seq<Environment>, table: seq<Environment>)
    decreases es, 0
  {
    exists i :: 0 <= i < |es| && !Known(TableAt(es, table, i), es[i]) && ReachedAfresh(es[i], TableAt(es, table, i))
  }

  lemma {:induction false} TurnsAfresh(e: Environment, table: seq<Environment>)
    ensures Turn(e, table).params <==> ReachedAfresh(e, table)
    decreases e, 0
  {
    AllTurnAfresh(e.children, table);
  }

  lemma {:induction false} AllTurnAfresh(es: seq<Environment>, table: seq<Environment>)
    ensures TurnAll(es, table).params <==> AnyAfresh(es, table)
    decreases es, 0
  {
    hide Turn, ReachedAfresh, Known;
    if es != [] {
      var first := TurnOne(es[0], table);
      if !Known(table, es[0]) {
        TurnsAfresh(es[0], table);
      }
      AllTurnAfresh(es[1..], first.table);
      assert TableAt(es, table, 0) == table;
      assert forall i :: 0 <= i < |es[1..]| ==> TableAt(es, table, i + 1) == TableAt(es[1..], first.table, i) && es[i + 1] == es[1..][i];
      if AnyAfresh(es[1..], first.table) {
        var i :| 0 <= i < |es[1..]| && !Known(TableAt(es[1..], first.table, i), es[1..][i])
                 && ReachedAfresh(es[1..][i], TableAt(es[1..], first.table, i));
        assert !Known(TableAt(es, table, i + 1), es[i + 1]) && ReachedAfresh(es[i + 1], TableAt(es, table, i + 1));
      }
      if AnyAfresh(es, table) {
        var i :| 0 <= i < |es| && !Known(TableAt(es, table, i), es[i]) && ReachedAfresh(es[i], TableAt(es, table, i));
        assert i > 0 ==> es[i] == es[1..][i - 1] && TableAt(es, table, i) == TableAt(es[1..], first.table, i - 1);
      }
    }
  }

  /** A program hands the block parameters on to all that need them if and only if one of them is reached through programs
      compiled for the first time, or it hands the enclosing contexts on, or it refers to none of them before it has
      looked up a block parameter itself. */
  lemma {:induction false} HandsOnExactly(e: Environment, table: seq<Environment>)
    ensures HandsOn(e, table) <==>
              || AnyAfresh(e.children, table)
              || DepthsOf(e, TurnAll(e.children, table))
              || forall k: nat :: RefersToNeed(e, k) ==> LooksUp(e.opcodes[..k])
  {
    AllTurnAfresh(e.children, table);
    hide TurnAll, AnyAfresh, RefersToNeed, LooksUp;
  }

  // ----- the first program that needs them

  predicate NoneNeeds(table: seq<Environment>) {
    forall i :: 0 <= i < |table| ==> !Needs(table[i])
  }

  lemma {:induction false} EqualNeeds(a: Environment, b: Environment)
    requires Equals(a, b)
    ensures Needs(a) <==> Needs(b)
    decreases a
  {
    forall i | 0 <= i < |a.children| ensures Needs(a.children[i]) <==> Needs(b.children[i]) {
      EqualNeeds(a.children[i], b.children[i]);
    }
  }

  /** As long as no program in the table needs block parameters, none is forgotten: the flag tells whether they are needed,
      and the program hands them on to all that need them. A top-level program is compiled with an empty table. */
  lemma {:induction false} FirstNeedSeen(e: Environment, table: seq<Environment>)
    requires NoneNeeds(table)
    ensures var r := Turn(e, table);
            (r.params <==> Needs(e)) && (!r.params ==> NoneNeeds(r.table)) && HandsOn(e, table)
    decreases e, 0
  {
    FirstNeedsSeen(e.children, table);
    assert forall k: nat :: RefersToNeed(e, k) ==> AnyNeeds(e.children);
    hide TurnAll, LooksUp, AnyNeeds, RefersToNeed, NoneNeeds;
  }

  lemma {:induction false} FirstNeedsSeen(es: seq<Environment>, table: seq<Environment>)
    requires NoneNeeds(table)
    ensures var r := TurnAll(es, table);
            (r.params <==> AnyNeeds(es)) && (!r.params ==> NoneNeeds(r.table))
    decreases es, 0
  {
    if es != [] {
      hide Turn, Needs;
      var (e, first) := (es[0], TurnOne(es[0], table));
      if Known(table, e) {
        var i :| 0 <= i < |table| && Equals(table[i], e);
        EqualNeeds(table[i], e);
      } else {
        FirstNeedSeen(e, table);
      }
      assert (first.params <==> Needs(e)) && (!first.params ==> NoneNeeds(first.table));
      if !first.params {
        FirstNeedsSeen(es[1..], first.table);
      }
      assert es == [e] + es[1..];
      NeedsBoth(e, es[1..]);
    }
  }

  lemma {:induction false} NeedsBoth(e: Environment, rest: seq<Environment>)
    ensures AnyNeeds([e] + rest) <==> Needs(e) || AnyNeeds(rest)
  {
    hide Needs;
    var es := [e] + rest;
    assert es[0] == e && forall i :: 0 <= i < |rest| ==> es[i + 1] == rest[i];
    if AnyNeeds(es) && !Needs(e) {
      var i :| 0 <= i < |es| && Needs(es[i]);
      assert es[i] == rest[i - 1];
    }
    if i :| 0 <= i < |rest| && Needs(rest[i]) {
      assert Needs(es[i + 1]);
    }
  }

  // ----- an input where they are forgotten

  function Named(name: string): Call {
    Call(Path(name, [name], 0, false), Args([], []))
  }

  function Section(name: string, program: Program): Statement {
    BlockStatement(Named(name), Present(program), Absent)
  }

  /** What a section on a plain name is compiled to. */
  function SectionOps(name: string, guid: nat): seq<Opcode> {
    [GetContext(0), PushProgram(Some(guid)), PushProgram(None), GetContext(0), LookupOnContext([name], false, true, false),
     InvokeAmbiguous(name, true), PushProgram(Some(guid)), PushProgram(None), EmptyHash(false), AmbiguousBlockValue, Append]
  }

  predicate PlainName(scope: Scope, name: string) {
    0 < |name| < 4 && name[0] != '.' && name !in scope.flags.knownHelpers && BlockParamIndex(scope.blockParams, name).None?
  }

  lemma {:induction false} SectionIs(scope: Scope, name: string, program: Program, guid: nat)
    requires PlainName(scope, name)
    ensures EmitStatement(scope, Section(name, program), guid) == Emission(SectionOps(name, guid), [CompileProgram(scope, program)])
    ensures StatementUsesDepths(scope, Section(name, program)) == ChildUsesDepths(scope, Present(program))
  {
    var call := Named(name);
    assert !ScopedId(call.path);
    assert Classify(scope, call, false).AmbiguousKind?;
    assert EmitPath(scope, call.path, false, true) == [GetContext(0), LookupOnContext([name], false, true, false)];
    hide CompileProgram;
    assert CompileChild(scope, Absent) == [] && CompileChild(scope, Present(program)) == [CompileProgram(scope, program)];
  }

  lemma {:induction false} BodyOne(scope: Scope, s: Statement, guid: nat)
    ensures EmitBody(scope, [s], guid) == EmitStatement(scope, s, guid)
    ensures BodyUsesDepths(scope, [s]) == StatementUsesDepths(scope, s)
    ensures HasDecorator([s]) == s.DecoratorStatement?
  {
    hide EmitStatement, StatementUsesDepths;
    var e := EmitStatement(scope, s, guid);
    assert [s][1..] == [] && EmitBody(scope, [], guid + |e.children|) == Emission([], []);
    assert e.opcodes + [] == e.opcodes && e.children + [] == e.children;
  }

  lemma {:induction false} BodyTwo(scope: Scope, s: Statement, r: Statement, guid: nat)
    ensures var (x, y) := (EmitStatement(scope, s, guid), EmitStatement(scope, r, guid + |EmitStatement(scope, s, guid).children|));
            EmitBody(scope, [s, r], guid) == Emission(x.opcodes + y.opcodes, x.children + y.children)
    ensures BodyUsesDepths(scope, [s, r]) == (StatementUsesDepths(scope, s) || StatementUsesDepths(scope, r))
    ensures HasDecorator([s, r]) == (s.DecoratorStatement? || r.DecoratorStatement?)
  {
    assert [s, r][1..] == [r];
    BodyOne(scope, r, guid + |EmitStatement(scope, s, guid).children|);
    hide EmitStatement, StatementUsesDepths;
  }

  const X := Program([MustacheStatement(Named("x"), true)], [])

  /** `{{x}}`, where `x` is a parameter of the program around it, looks it up. */
  lemma {:induction false} LookupIs(scope: Scope)
    requires |scope.blockParams| >= 1 && scope.blockParams[0] == ["x"]
    ensures var e := CompileProgram(scope, X);
            LooksUp(e.opcodes) && e.children == [] && !e.useDepths && !e.useDecorators
  {
    var inner := scope.(blockParams := [[]] + scope.blockParams);
    var (call, s) := (Named("x"), MustacheStatement(Named("x"), true));
    assert inner.blockParams[1..] == scope.blockParams && BlockParamIndex(scope.blockParams, "x") == Some((0, 0));
    assert BlockParamIndex(inner.blockParams, "x") == Some((1, 0));
    assert !ScopedId(call.path) && Classify(inner, call, false).SimpleKind?;
    BodyOne(inner, s, 0);
    assert X.body == [s];
    assert EmitStatement(inner, s, 0).opcodes[1] == LookupBlockParam(1, 0, ["x"]);
  }

  /** `{{#b}}{{x}}{{/b}}`, on its own and behind a text. */
  const A := Program([Section("b", X)], ["x"])
  const C := Program([ContentStatement("1"), Section("b", X)], ["x"])

  /** `{{#a as |x|}}{{#b}}{{x}}{{/b}}{{/a}}{{#c as |x|}}1{{#b}}{{x}}{{/b}}{{/c}}` */
  const Twice := Program([Section("a", A), Section("c", C)], [])

  lemma {:induction false} PartsAre(flags: Flags)
    requires flags.knownHelpers == {}
    ensures var scope := Scope(flags, [[]]);
            var (a, c, b) := (CompileProgram(scope, A), CompileProgram(scope, C), CompileProgram(Scope(flags, [["x"], []]), X));
            && a.opcodes == SectionOps("b", 0) && c.opcodes == [AppendContent("1")] + SectionOps("b", 0)
            && a.children == c.children == [b] && !c.useDepths && !c.useDecorators
  {
    var scope := Scope(flags, [["x"], []]);
    var none: seq<seq<string>> := [];
    assert [["x"]] + [[]] == scope.blockParams && scope.blockParams[1..] == [[]] && [[]][1..] == none;
    assert BlockParamIndex(none, "b").None? && BlockParamIndex([[]], "b").None? && BlockParamIndex(scope.blockParams, "b").None?;
    LookupIs(scope);
    SectionIs(scope, "b", X, 0);
    var (one, two) := (ContentStatement("1"), Section("b", X));
    assert EmitStatement(scope, one, 0) == Emission([AppendContent("1")], []);
    assert !ChildUsesDepths(scope, Present(X)) && !StatementUsesDepths(scope, one);
    hide EmitStatement, StatementUsesDepths, ChildUsesDepths, BlockParamIndex, LooksUp;
    BodyOne(scope, two, 0);
    BodyTwo(scope, one, two, 0);
    assert [] + [CompileProgram(scope, X)] == [CompileProgram(scope, X)];
    hide EmitBody, BodyUsesDepths, HasDecorator;
    assert A.body == [two] && C.body == [one, two];
  }

  lemma {:induction false} TwiceIs(flags: Flags)
    requires flags.knownHelpers == {}
    ensures CompileProgram(Scope(flags, []), Twice).children == [CompileProgram(Scope(flags, [[]]), A), CompileProgram(Scope(flags, [[]]), C)]
  {
    var scope := Scope(flags, [[]]);
    var none: seq<seq<string>> := [];
    assert [[]] + none == scope.blockParams && scope.blockParams[1..] == none;
    assert BlockParamIndex(none, "a").None? && BlockParamIndex(none, "c").None?;
    SectionIs(scope, "a", A, 0);
    SectionIs(scope, "c", C, 1);
    BodyTwo(scope, Section("a", A), Section("c", C), 0);
  }

  /** In this template the section in the second block is found in the table, and is not handed the block parameter that
      it looks up. */
  lemma {:induction false} SecondNeedForgotten(flags: Flags)
    requires flags.knownHelpers == {}
    ensures var es := CompileProgram(Scope(flags, []), Twice).children;
            && |es| == 2 && !Known(TableAt(es, [], 1), es[1]) && Needs(es[1])
            && RefersToNeed(es[1], 2) && !Handed(es[1], TableAt(es, [], 1), 2)
  {
    TwiceIs(flags);
    PartsAre(flags);
    LookupIs(Scope(flags, [["x"], []]));
    var es := CompileProgram(Scope(flags, []), Twice).children;
    Forgotten(es[0], es[1], es[0].children[0]);
    assert TableAt(es, [], 1) == TableAt(es[1..], TurnOne(es[0], []).table, 0) == TurnOne(es[0], []).table;
  }

  lemma {:induction false} Forgotten(a: Environment, c: Environment, b: Environment)
    requires a.opcodes == SectionOps("b", 0) && c.opcodes == [AppendContent("1")] + SectionOps("b", 0)
    requires a.children == c.children == [b] && !c.useDepths && !c.useDecorators
    requires LooksUp(b.opcodes) && b.children == [] && !b.useDepths
    ensures var table := TurnOne(a, []).table;
            !Known(table, c) && Needs(c) && RefersToNeed(c, 2) && !Handed(c, table, 2)
  {
    assert [b][1..] == [] && [] + [b] == [b] && [b] + [a] == [b, a];
    assert !Known([], b) && !Known([], a);
    assert TurnAll([], []) == Turned(false, false, []) && Turn(b, []).table == [];
    assert TurnOne(b, []).table == [b] && TurnAll([b][1..], [b]) == Turned(false, false, [b]);
    assert TurnAll([b], []).table == [b] && Turn(a, []).table == [b];
    var table := TurnOne(a, []).table;
    assert table == [b, a];
    assert Needs(b) && c.children[0] == b;
    assert Equals(table[0], b);
    assert TurnAll([b], table) == Turned(false, false, table);
    assert c.opcodes[2] == PushProgram(Some(0));
    assert !LooksUp(c.opcodes[..2]);
    assert |table[0].opcodes| != |c.opcodes| || table[0].children != c.children;
    assert |table[1].opcodes| != |c.opcodes|;
  }
}
