/** Where the compiler stops keeping its promises, and exactly when. */
module HandlebarsLimits {
  import opened Wrappers
  import opened HandlebarsAst
  import opened HandlebarsCompiler
  import opened JsCode
  import opened JsValues
  import opened CodeMachine
  import opened DirectCode
  import opened StackDiscipline
  import opened TemplateSemantics
  import opened Execution
  import opened ExpressionMeaning
  import opened BufferMerging
  import opened TemplateMeaning
  import opened ExactCompilation

  // ----- hash keys

  function FieldOf(fields: seq<Field>, key: string): Option<JsExpr> {
    if fields == [] then None else if fields[0].key == key then Some(fields[0].value) else FieldOf(fields[1..], key)
  }

  lemma {:induction false} SetFieldIs(fields: seq<Field>, key: string, value: JsExpr, other: string)
    ensures FieldOf(SetField(fields, key, value), other) == if other == key then Some(value) else FieldOf(fields, other)
    decreases |fields|
  {
    if fields != [] && fields[0].key != key {
      SetFieldIs(fields[1..], key, value, other);
    }
  }

  lemma {:induction false} TruncateIs(fields: seq<Field>, length: nat, key: string)
    ensures FieldOf(fields, key).None? || ArrayIndex(key).None? ==> FieldOf(Truncate(fields, length), key) == FieldOf(fields, key)
    decreases |fields|
  {
    if fields != [] {
      TruncateIs(fields[1..], length, key);
      var index := ArrayIndex(fields[0].key);
      var first := if index.Some? && index.value >= length then [] else [fields[0]];
      assert first != [] ==> (first + Truncate(fields[1..], length))[1..] == Truncate(fields[1..], length);
      assert first == [] ==> first + Truncate(fields[1..], length) == Truncate(fields[1..], length);
    }
  }

  /** What an assignment does to the entry under `other`. */
  lemma {:induction false} AssignedIs(fields: seq<Field>, key: string, value: JsExpr, other: string)
    requires FieldOf(fields, other).None? || key != "length" || ArrayIndex(other).None?
    ensures FieldOf(AssignedField(fields, key, value), other) == if KeyKept(key) && other == key then Some(value) else FieldOf(fields, other)
  {
    SetFieldIs(fields, key, value, other);
    if key == "length" && LengthOf(value).Some? {
      TruncateIs(fields, LengthOf(value).value, other);
    }
  }

  lemma {:induction false} PrintableField(fields: seq<Field>)
    ensures Printable(fields) <==> FieldOf(fields, "hasOwnProperty").None?
    decreases |fields|
  {
    if fields != [] {
      PrintableField(fields[1..]);
      if Printable(fields[1..]) && fields[0].key != "hasOwnProperty" {
        assert forall i :: 0 <= i < |fields| ==> fields[i].key == if i == 0 then fields[0].key else fields[1..][i - 1].key;
      } else if fields[0].key != "hasOwnProperty" {
        var i :| 0 <= i < |fields[1..]| && fields[1..][i].key == "hasOwnProperty";
        assert fields[i + 1].key == "hasOwnProperty";
      }
    }
  }

  lemma {:induction false} FieldOfKey(fields: seq<Field>, key: string)
    ensures FieldOf(fields, key).Some? <==> HasKey(fields, key)
    decreases |fields|
  {
    if fields != [] {
      FieldOfKey(fields[1..], key);
      assert forall i :: 0 <= i < |fields[1..]| ==> fields[1..][i] == fields[i + 1];
      if HasKey(fields, key) && fields[0].key != key {
        var i :| 0 <= i < |fields| && fields[i].key == key;
        assert fields[1..][i - 1].key == key;
      }
      if i :| 0 <= i < |fields[1..]| && fields[1..][i].key == key {
        assert fields[i + 1].key == key;
      }
    }
  }

  lemma {:induction false} TruncateDistinct(fields: seq<Field>, length: nat)
    requires DistinctKeys(fields)
    ensures DistinctKeys(Truncate(fields, length))
    ensures forall key :: HasKey(Truncate(fields, length), key) ==> HasKey(fields, key)
    decreases |fields|
  {
    if fields != [] {
      TruncateDistinct(fields[1..], length);
      var (first, rest) := (fields[0], Truncate(fields[1..], length));
      assert forall i :: 0 <= i < |fields[1..]| ==> fields[1..][i] == fields[i + 1];
      assert Truncate(fields, length) == rest || Truncate(fields, length) == [first] + rest;
      forall i | 0 <= i < |rest| ensures rest[i].key != first.key && HasKey(fields, rest[i].key) {
        assert HasKey(rest, rest[i].key);
        var j :| 0 <= j < |fields[1..]| && fields[1..][j].key == rest[i].key;
        assert fields[j + 1].key == rest[i].key;
      }
      assert HasKey(fields, first.key);
    }
  }

  /** A register that can come about: its keys differ, and it never holds the keys it does not keep. */
  predicate Reachable(fields: seq<Field>) {
    DistinctKeys(fields) && FieldOf(fields, "length").None? && FieldOf(fields, "__proto__").None?
  }

  /** The entry that a register is printed with, if it can be printed: the literal `undefined` is left out. */
  function PrintedEntry(fields: seq<Field>, key: string): Option<JsExpr> {
    var entry := FieldOf(fields, key);
    if Printable(fields) && entry != Some(Constant(UndefinedLiteral)) then entry else None
  }

  /** The keys of the object that a register evaluates to are exactly those it is printed with, in every world. */
  lemma {:induction false} EntryEvaluates(w: World, t: Template, env: Env, f: Frame, fields: seq<Field>, key: string)
    requires DistinctKeys(fields) && Printable(fields)
    ensures key in EvalFields(w, t, env, f, fields).hash <==> PrintedEntry(fields, key).Some?
    decreases |fields|
  {
    if fields != [] {
      var rest := fields[1..];
      assert forall i :: 0 <= i < |rest| ==> rest[i] == fields[i + 1];
      FieldOfKey(rest, fields[0].key);
      EntryEvaluates(w, t, env, Eval(w, t, env, f, fields[0].value).frame, rest, key);
    }
  }

  /** Assigning a key gives the printed hash an entry with that value exactly if the key is not `length`, which is
      taken for a length, not `__proto__`, which is taken for a prototype, and not `hasOwnProperty`, which the
      printing calls, and the value is not the literal `undefined`, which the printing leaves out. */
  lemma {:induction false} KeyBecomesEntry(fields: seq<Field>, key: string, value: JsExpr)
    requires Reachable(fields) && Printable(fields)
    ensures var r := AssignField(fields, key, value);
            && (r.Some? && PrintedEntry(r.value, key) == Some(value)
                <==> KeyKept(key) && key != "hasOwnProperty" && value != Constant(UndefinedLiteral))
            && (r.Some? ==> Reachable(r.value))
  {
    assert ArrayIndex("length").None? && ArrayIndex("__proto__").None? && ArrayIndex("hasOwnProperty").None? by {
      assert !JsValues.IsDigit("length"[0]) && !JsValues.IsDigit("__proto__"[0]) && !JsValues.IsDigit("hasOwnProperty"[0]);
    }
    var r := AssignedField(fields, key, value);
    PrintableField(fields);
    PrintableField(r);
    AssignedIs(fields, key, value, "length");
    AssignedIs(fields, key, value, "__proto__");
    AssignedIs(fields, key, value, "hasOwnProperty");
    SetFieldKeys(fields, key, value);
    if key != "length" {
      AssignedIs(fields, key, value, key);
    } else if LengthOf(value).Some? {
      TruncateDistinct(fields, LengthOf(value).value);
    }
  }

  /** In the registers of a hash every key that is kept has the value, the id, the type and the context of the first
      pair with that key, and no other key has an entry. A pair `length` cuts off the keys that are array indices. */
  lemma {:induction false} EachKeyItsOwn(pairs: seq<Pair>, slots: seq<Slots>, key: string, i: nat)
    requires |slots| == |pairs| && i <= |pairs|
    requires forall j :: 0 <= j < i ==> pairs[j].key != key
    requires i < |pairs| ==> pairs[i].key == key
    requires ArrayIndex(key).None? || forall j :: 0 <= j < |pairs| ==> pairs[j].key != "length"
    ensures var r := Register(pairs, slots);
            if i == |pairs| || !KeyKept(key) then
              FieldOf(r.values, key).None? && FieldOf(r.ids, key).None? && FieldOf(r.types, key).None? && FieldOf(r.contexts, key).None?
            else
              && FieldOf(r.values, key) == Some(slots[i].value.expr)
              && (slots[i].ids != [] ==> FieldOf(r.ids, key) == Some(slots[i].ids[0].expr))
              && (slots[i].types != [] ==> FieldOf(r.types, key) == Some(slots[i].types[0].expr))
              && (slots[i].contexts != [] ==> FieldOf(r.contexts, key) == Some(slots[i].contexts[0].expr))
    decreases |pairs|
  {
    if pairs != [] {
      hide AssignedField, ArrayIndex, FieldOf;
      var (r, first, s) := (Register(pairs[1..], slots[1..]), pairs[0].key, slots[0]);
      if i > 0 || !KeyKept(key) {
        var k := FirstOf(pairs[1..], key);
        EachKeyItsOwn(pairs[1..], slots[1..], key, k);
        assert i > 0 ==> k == i - 1;
      }
      AssignedIs(r.values, first, s.value.expr, key);
      if s.ids != [] {
        AssignedIs(r.ids, first, s.ids[0].expr, key);
      }
      if s.types != [] {
        AssignedIs(r.types, first, s.types[0].expr, key);
      }
      if s.contexts != [] {
        AssignedIs(r.contexts, first, s.contexts[0].expr, key);
      }
    }
  }

  /** The first pair with a key, or the end. */
  function FirstOf(pairs: seq<Pair>, key: string): (i: nat)
    ensures i <= |pairs| && (forall j :: 0 <= j < i ==> pairs[j].key != key) && (i < |pairs| ==> pairs[i].key == key)
  {
    if pairs == [] || pairs[0].key == key then 0 else FirstOf(pairs[1..], key) + 1
  }

  /** `{{foo key=value}}` */
  function OneKey(key: string, value: Expr): Program {
    Program([MustacheStatement(Call(Path("foo", ["foo"], 0, false), Args([], [Pair(key, value)])), true)], [])
  }

  /** Whether a mustache with one hash pair compiles. */
  lemma {:induction false} OneKeyCompiles(flags: Flags, key: string, value: Expr)
    ensures var scope := Scope(flags, [[]]);
            Build(flags, CompileProgram(Scope(flags, []), OneKey(key, value))).Some?
            <==> !BothTracked(flags) && KeyFits(scope, Pair(key, value)) && ExprFits(scope, value)
  {
    var (program, scope) := (OneKey(key, value), Scope(flags, []));
    var pairs := [Pair(key, value)];
    hide Build, CompileProgram, KeyFits, ExprFits;
    assert program.body[1..] == [] && Supported(program.body[0]) && BodySupported(program.body);
    CompilesExactly(flags, scope, program);
    OneKeyFits(Inner(scope, program), key, value);
    hide BodyFits;
  }

  lemma {:induction false} OneKeyFits(scope: Scope, key: string, value: Expr)
    requires scope.blockParams == [[]]
    ensures BodyFits(scope, OneKey(key, value).body) <==> !BothTracked(scope.flags) && KeyFits(scope, Pair(key, value)) && ExprFits(scope, value)
  {
    hide KeyFits, ExprFits;
    var (program, pairs) := (OneKey(key, value), [Pair(key, value)]);
    var s := program.body[0];
    assert program.body[1..] == [] && pairs[1..] == [];
    assert BlockParamIndex([], "foo").None? && scope.blockParams[1..] == [];
    assert Classify(scope, s.call, false).HelperKind?;
    assert BodyFits(scope, program.body) == Fits(scope, s) == ArgsFit(scope, s.call.args) == PairsFit(scope, pairs);
    assert PairsFit(scope, pairs) == (!BothTracked(scope.flags) && KeyFits(scope, pairs[0]) && ExprFits(scope, value));
    assert BlockParamIndex([[]], "foo").None?;
  }

  /** `{{foo hasOwnProperty=1}}` and `{{foo length=x}}` do not compile, whatever the options. */
  lemma {:induction false} FailingKeys(flags: Flags)
    ensures Build(flags, CompileProgram(Scope(flags, []), OneKey("hasOwnProperty", LiteralExpression(NumberLiteral(1))))).None?
    ensures Build(flags, CompileProgram(Scope(flags, []), OneKey("length", PathExpression(Path("x", ["x"], 0, false))))).None?
  {
    OneKeyCompiles(flags, "hasOwnProperty", LiteralExpression(NumberLiteral(1)));
    OneKeyCompiles(flags, "length", PathExpression(Path("x", ["x"], 0, false)));
    hide Build, CompileProgram;
  }

  /** `{{foo __proto__=x}}` compiles, and so does `{{foo length=1}}`, but in every world the helper gets an empty hash
      where the tree has the pair. */
  lemma {:induction false} LostKeys(w: World, t: Template, env: Env, tree: Env, config: Config, key: string, value: Expr)
    requires !config.flags.stringParams && !config.flags.trackIds
    requires || (key == "__proto__" && value == PathExpression(Path("x", ["x"], 0, false)))
             || (key == "length" && value == LiteralExpression(NumberLiteral(1)))
    ensures Build(config.flags, CompileProgram(Scope(config.flags, []), OneKey(key, value))).Some?
    ensures var (scope, hash) := (Scope(config.flags, [[]]), [Pair(key, value)]);
            && Evals(w, t, env, HashSlots(config, scope, hash, false).value.expr, H(map[]))
            && key in HashValue(w, tree, scope, hash)
  {
    OneKeyCompiles(config.flags, key, value);
    hide Build, CompileProgram;
    var (scope, hash) := (Scope(config.flags, [[]]), [Pair(key, value)]);
    assert hash[1..] == [];
    var slots := PairsSlots(config, scope, hash);
    assert Register(hash[1..], slots[1..]) == HashRegister([], [], [], []);
    assert Truncate([], 1) == [];
    assert Register(hash, slots).values == AssignedField([], key, slots[0].value.expr) == [];
    forall f: Frame ensures Eval(w, t, env, f, ObjectOf([])).item == H(map[]) {
      assert EvalFields(w, t, env, f, []) == Hashed(map[], f);
    }
  }

  /** `{{foo x=undefined}}` compiles unless both kinds of tracking are on. The helper then gets an empty hash in every
      world, unless `stringParams` has put an empty text in the place of the literal. */
  lemma {:induction false} UndefinedDropped(w: World, t: Template, env: Env, config: Config)
    ensures Build(config.flags, CompileProgram(Scope(config.flags, []), OneKey("x", LiteralExpression(UndefinedLiteral)))).Some?
            <==> !BothTracked(config.flags)
    ensures var value := HashSlots(config, Scope(config.flags, [[]]), [Pair("x", LiteralExpression(UndefinedLiteral))], false).value.expr;
            Evals(w, t, env, value, H(if config.flags.stringParams then map["x" := Str("")] else map[]))
  {
    OneKeyCompiles(config.flags, "x", LiteralExpression(UndefinedLiteral));
    var value := Constant(if config.flags.stringParams then TextLiteral("") else UndefinedLiteral);
    UndefinedSlot(config, value);
    hide Build, CompileProgram, HashSlots;
    forall f: Frame
      ensures Eval(w, t, env, f, ObjectOf([Field("x", value)])).item == H(if config.flags.stringParams then map["x" := Str("")] else map[])
    {
      OneField(w, t, env, f, Field("x", value));
    }
  }

  lemma {:induction false} UndefinedSlot(config: Config, value: JsExpr)
    requires value == Constant(if config.flags.stringParams then TextLiteral("") else UndefinedLiteral)
    ensures HashSlots(config, Scope(config.flags, [[]]), [Pair("x", LiteralExpression(UndefinedLiteral))], false).value.expr
            == ObjectOf([Field("x", value)])
  {
    var (scope, hash) := (Scope(config.flags, [[]]), [Pair("x", LiteralExpression(UndefinedLiteral))]);
    assert hash[1..] == [];
    var slots := PairsSlots(config, scope, hash);
    assert slots[0].value.expr == value;
    assert Register(hash[1..], slots[1..]) == HashRegister([], [], [], []);
    assert Register(hash, slots).values == AssignedField([], "x", value) == [Field("x", value)];
  }

  lemma {:induction false} OneField(w: World, t: Template, env: Env, f: Frame, field: Field)
    ensures var r := Eval(w, t, env, f, field.value);
            Eval(w, t, env, f, ObjectOf([field]))
            == Result(H(if field.value == Constant(UndefinedLiteral) then map[] else map[field.key := AsValue(r.item)]), r.frame)
  {
    var r := Eval(w, t, env, f, field.value);
    assert [field][1..] == [];
    assert EvalFields(w, t, env, r.frame, []) == Hashed(map[], r.frame);
    var m: map<string, Value> := map[field.key := AsValue(r.item)];
    assert m + map[] == m;
  }

  // ----- explicit partial contexts

  /** The invocation of a partial has the name that the tree has, and for its context the parameter or `undefined`. */
  predicate CalledAsWritten(config: Config, scope: Scope, s: Statement, m: Machine)
    requires s.PartialStatement?
  {
    && |m.inlineStack| == 1 && m.inlineStack[0].expr.PartialOf?
    && m.inlineStack[0].expr.callee == NameEntry(config, scope, s.name).expr
    && m.inlineStack[0].expr.context == if s.args.params == [] then Constant(UndefinedLiteral)
                                        else ParamsSlots(config, scope, s.args.params)[0].value.expr
  }

  /** Under `explicitPartialContext` a partial compiles and is called as it is written exactly if it has a parameter, or
      its name is static and nothing is tracked. A dynamic name without a parameter is taken for the context. */
  lemma {:induction false} PartialContextExactly(config: Config, scope: Scope, m: Machine, s: Statement, block: Option<nat>)
    requires AtStatement(config, scope, m) && s.PartialStatement? && Supported(s) && scope.flags.explicitPartialContext
    requires (s.name.DynamicName? ==> CallFits(scope, s.name.expr, true)) && ArgsFit(scope, s.args)
    ensures var ops := PartialSetup(scope, s, block) + [PartialInvocation(s)];
            Runs(config, m, ops) && CalledAsWritten(config, scope, s, After(config, m, ops))
            <==> s.args.params != [] || (s.name.StaticName? && !scope.flags.stringParams && !scope.flags.trackIds)
  {
    var (ops, op) := (PartialSetup(scope, s, block), PartialInvocation(s));
    if NoContext(scope, s.args) && (scope.flags.stringParams || scope.flags.trackIds) {
      NoContextThrows(config, scope, m, s, block);
      RunAppend(config, m, ops, [op]);
      RunOne(config, After(config, m, ops), op);
    } else {
      PartialPushes(config, scope, m, s, block);
      if s.name.DynamicName? {
        ConstantCode(config, scope, SubExpression(s.name.expr));
      }
      PartialCodeIs(config, scope, s, block);
      hide PartialSetup, PartialCode, NameEntry, Run;
    }
  }

  lemma {:induction false} PartialCodeIs(config: Config, scope: Scope, s: Statement, block: Option<nat>)
    requires s.PartialStatement? && Supported(s)
    ensures var code := PartialCode(config, scope, s, block);
            && code.PartialOf? && code.callee == PartialCallee(config, scope, s)
            && code.context == PartialContext(config, scope, s).value.expr
    ensures s.name.DynamicName? ==> NameEntry(config, scope, s.name).expr == ExprEntry(config, scope, SubExpression(s.name.expr)).expr
  {
    hide OptionsFor, HashSlots, ParamsSlots;
  }

  /** `{{> p}}` with an explicit context and tracking does not compile. */
  lemma {:induction false} TrackedPartialFails(flags: Flags)
    requires flags.explicitPartialContext && (flags.stringParams || flags.trackIds)
    ensures var program := Program([PartialStatement(StaticName("p"), Args([], []), "", Absent)], []);
            BodySupported(program.body) && Build(flags, CompileProgram(Scope(flags, []), program)).None?
  {
    var s := PartialStatement(StaticName("p"), Args([], []), "", Absent);
    var program := Program([s], []);
    assert Supported(s) && program.body[1..] == [] && BodySupported(program.body);
    CompilesExactly(flags, Scope(flags, []), program);
    hide Build, CompileProgram;
    assert NoContext(Inner(Scope(flags, []), program), s.args);
    assert !OwnFits(Inner(Scope(flags, []), program), s);
  }

  // ----- raw values that are not strings

  function AllConverted(w: World, vs: seq<Value>): (ps: seq<Primitive>)
    ensures |ps| == |vs|
  {
    if vs == [] then [] else [Converted(w, vs[0])] + AllConverted(w, vs[1..])
  }

  lemma {:induction false} SumIsTotal(w: World, first: Value, rest: seq<Value>)
    ensures rest != [] ==> SumOf(w, first, rest) == Total(Converted(w, first), AllConverted(w, rest))
    decreases |rest|
  {
    if rest != [] {
      SumIsTotal(w, PlusOf(w, first, rest[0]), rest[1..]);
    }
  }

  /** Strings, and objects that convert to one. */
  predicate Textual(w: World, v: Value) {
    Converted(w, v).Str?
  }

  /** A run of two or more values gives their joined texts if and only if one of the first two is textual; one added
      to a text that is there already does as well if it is a single value, and always if the text begins the sum. */
  lemma {:induction false} RunIsText(w: World, text: string, vs: seq<Value>)
    requires vs != []
    ensures var joined := Texts(AllConverted(w, vs));
            && (|vs| >= 2 ==> (SumOf(w, vs[0], vs[1..]) == Str(joined) <==> Textual(w, vs[0]) || Textual(w, vs[1])))
            && (PlusOf(w, Str(text), SumOf(w, vs[0], vs[1..])) == Str(text + joined)
                <==> |vs| == 1 || Textual(w, vs[0]) || Textual(w, vs[1]))
            && SumOf(w, Str(text), vs) == Str(text + joined)
  {
    var ps := AllConverted(w, vs);
    assert ps[1..] == AllConverted(w, vs[1..]);
    SumIsTotal(w, Str(text), vs);
    TextTotal(text, ps);
    if |vs| == 1 {
      assert ps[1..] == [] && Texts(ps[1..]) == "" && PrimitiveText(ps[0]) + "" == PrimitiveText(ps[0]);
    } else {
      assert ps[1] == Converted(w, vs[1]);
      SumIsTotal(w, vs[0], vs[1..]);
      TotalIsText(ps);
      RunAfterText(text, ps);
    }
  }

  lemma {:induction false} RunAfterText(text: string, ps: seq<Primitive>)
    requires |ps| >= 2
    ensures Added(Str(text), Total(ps[0], ps[1..])) == Str(text + Texts(ps)) <==> ps[0].Str? || ps[1].Str?
  {
    TotalIsText(ps);
    var t := Total(ps[0], ps[1..]);
    if text + PrimitiveText(t) == text + Texts(ps) {
      PrefixCancels(text, PrimitiveText(t), Texts(ps));
    }
  }

  lemma {:induction false} PrefixCancels(a: string, b: string, c: string)
    requires a + b == a + c
    ensures b == c
  {
    assert b == (a + b)[|a|..] && c == (a + c)[|a|..];
  }

  /** The lines of raw mustaches. */
  function RawLines(config: Config, scope: Scope, body: seq<Statement>): seq<Line>
    requires RawMustaches(scope, body)
  {
    if body == [] then []
    else
      [AppendLine(config, Wrapped(OrEmpty, SetTemp(1, CallCode(config, scope, body[0].call, false, None, None)), Temp(1)))]
      + RawLines(config, scope, body[1..])
  }

  predicate RawMustaches(scope: Scope, body: seq<Statement>) {
    forall i :: 0 <= i < |body| ==> body[i].MustacheStatement? && (!body[i].escaped || scope.flags.noEscape)
  }

  /** The value of a raw mustache, nulls being empty. */
  function RawValue(w: World, env: Env, scope: Scope, call: Call): Value {
    var v := PlainValue(w, env, Prepare(w, env, scope, call, false));
    if IsNull(v) then Str("") else v
  }

  function RawValues(w: World, env: Env, scope: Scope, body: seq<Statement>): (vs: seq<Value>)
    requires RawMustaches(scope, body)
    ensures |vs| == |body|
  {
    if body == [] then [] else [RawValue(w, env, scope, body[0].call)] + RawValues(w, env, scope, body[1..])
  }

  lemma {:induction false} RawText(w: World, env: Env, scope: Scope, body: seq<Statement>)
    requires RawMustaches(scope, body)
    ensures BodyText(w, env, scope, body).text == Texts(AllConverted(w, RawValues(w, env, scope, body)))
    decreases |body|
  {
    if body != [] {
      hide Prepare, PlainValue;
      RawText(w, env, scope, body[1..]);
      var vs := RawValues(w, env, scope, body);
      assert vs[1..] == RawValues(w, env, scope, body[1..]);
      assert AllConverted(w, vs)[1..] == AllConverted(w, vs[1..]);
    }
  }

  lemma {:induction false} RawLinesWritten(config: Config, scope: Scope, m: Machine, body: seq<Statement>, guid: nat)
    requires RawMustaches(scope, body) && BodySupported(body) && m.pending == ""
    ensures var m' := Write(config, m, BodyPieces(config, scope, body, guid));
            m'.pending == "" && m'.source == m.source + RawLines(config, scope, body)
    decreases |body|
  {
    if body == [] {
      assert m.source + [] == m.source;
    } else {
      hide CallCode;
      var pieces := StatementPieces(config, scope, body[0], guid);
      var line := RawLines(config, scope, body)[0];
      assert pieces == [LinePiece(line)];
      WriteOne(config, m, line);
      var m1 := PushSource(config, m, line);
      RawLinesWritten(config, scope, m1, body[1..], guid + |EmitStatement(scope, body[0], guid).children|);
      WriteAppend(config, m, pieces, BodyPieces(config, scope, body[1..], guid + |EmitStatement(scope, body[0], guid).children|));
      assert m.source + [line] + RawLines(config, scope, body[1..]) == m.source + ([line] + RawLines(config, scope, body[1..]));
    }
  }

  lemma {:induction false} RawLinesEval(w: World, t: Template, env: Env, tree: Env, config: Config, scope: Scope, body: seq<Statement>)
    requires Default(config, scope) && Matches(config, env, tree) && !config.isSimple
    requires RawMustaches(scope, body) && BasicBody(body) && BodyFits(scope, body) && (BodyUsesDepths(scope, body) ==> config.useDepths)
    ensures var lines := RawLines(config, scope, body);
            && |lines| == |body| && (forall i :: 0 <= i < |lines| ==> lines[i].Appended?)
            && AllEval(w, t, env, Fragments(lines), RawValues(w, tree, scope, body))
    decreases |body|
  {
    if body != [] {
      hide CallCode, Prepare, PlainValue;
      var call := body[0].call;
      assert Basic(body[0]) && body[0].MustacheStatement?;
      assert CallUsesDepths(scope, call, false) ==> StatementUsesDepths(scope, body[0]) && BodyUsesDepths(scope, body);
      RawLinesEval(w, t, env, tree, config, scope, body[1..]);
      PlainCallEvals(w, t, env, tree, config, scope, call, false);
      var (code, v) := (CallCode(config, scope, call, false, None, None), PlainValue(w, tree, Prepare(w, tree, scope, call, false)));
      forall f: Frame ensures Eval(w, t, env, f, Wrapped(OrEmpty, SetTemp(1, code), Temp(1))).item == V(RawValue(w, tree, scope, call)) {
        RawEvals(w, t, env, code, v, f);
      }
      var (lines, vs) := (RawLines(config, scope, body), RawValues(w, tree, scope, body));
      var (rest, us) := (RawLines(config, scope, body[1..]), RawValues(w, tree, scope, body[1..]));
      forall i | 0 <= i < |lines| ensures lines[i].Appended? && Evals(w, t, env, Fragments(lines)[i], V(vs[i])) {
        if i > 0 {
          assert lines[i] == rest[i - 1] && vs[i] == us[i - 1];
          assert Fragments(lines)[i] == Fragments(rest)[i - 1];
          assert Evals(w, t, env, Fragments(rest)[i - 1], V(us[i - 1]));
        }
      }
    }
  }

  /** A body of appended lines alone returns their sum. */
  lemma {:induction false} ReturnsSum(w: World, t: Template, env: Env, lines: seq<Line>, vs: seq<Value>)
    requires lines != [] && (forall i :: 0 <= i < |lines| ==> lines[i].Appended?) && t.body == Merge(lines, false)
    requires AllEval(w, t, env, Fragments(lines), vs)
    ensures RunTemplate(w, t, env) == SumOf(w, vs[0], vs[1..])
  {
    var (rest, n) := (t.body.lines, |lines|);
    var end := RunEnd(lines, 0);
    assert end == n;
    assert Closing(lines, false) == [] && rest == Marks(lines, true) + [] == Marks(lines, true);
    MarkedRun(lines, 0, true, []);
    assert rest[0..] == rest && Marks(lines, true)[0..] + [] == rest;
    RunExprs(lines, 0, true);
    assert rest[..n] == Marks(lines, true)[0..end] && lines[0..end] == lines;
    EvalAllValues(w, t, env, EmptyFrame, Fragments(lines), vs);
    hide Marks, MarkOf, Merge, RunLines, SumOf, Fragments, EvalAll, SumExprs, SumLength;
    assert rest[0].prefix == ReturnSum && rest[0].line.Appended? by {
      hide *;
      FirstMark(lines);
    }
    RunStep(w, t, env, EmptyFrame, Undefined, rest, n, false);
  }

  lemma {:induction false} FirstMark(lines: seq<Line>)
    requires lines != [] && forall i :: 0 <= i < |lines| ==> lines[i].Appended?
    ensures Marks(lines, true)[0].prefix == ReturnSum && Marks(lines, true)[0].line == lines[0]
  {
    assert RunEnd(lines, 0) == |lines|;
  }

  /** A template of two or more raw mustaches and nothing else returns the text of the tree exactly if the first or the
      second value is null, a string or an object that converts to one: otherwise the two are added as numbers. */
  lemma {:induction false} AdjacentRawValues(w: World, flags: Flags, program: Program, context: Value, data: Value)
    requires program.blockParams == []
    requires BasicBody(program.body) && BodyFits(Inner(Scope(flags, []), program), program.body)
    requires |program.body| >= 2 && RawMustaches(Scope(flags, []), program.body)
    ensures var scope := Scope(flags, []);
            var e := CompileProgram(scope, program);
            var t := Build(flags, e);
            var tree := Env(context, [context], data);
            var (a, b) := (RawValue(w, tree, Inner(scope, program), program.body[0].call), RawValue(w, tree, Inner(scope, program), program.body[1].call));
            && t.Some?
            && (RunTemplate(w, t.value, RootEnv(context, data, e.useDepths)) == Str(BodyText(w, tree, Inner(scope, program), program.body).text)
                <==> Textual(w, a) || Textual(w, b))
  {
    var scope := Scope(flags, []);
    var e := CompileProgram(scope, program);
    var inner := Inner(scope, program);
    var config := Config(flags, false, BodyUsesDepths(inner, program.body));
    BasicSupported(program.body);
    DepthsCovered(scope, program);
    FitOwn(inner, program.body);
    GenerationSucceeds(config, scope, program);
    BuildSucceeds(flags, scope, program);
    RawSum(w, Build(flags, e).value, RootEnv(context, data, e.useDepths), Env(context, [context], data), config, inner, program.body);
    hide BodyText, RunTemplate, Textual, RawValue, BuildAll;
  }

  lemma {:induction false} RawSum(w: World, t: Template, env: Env, tree: Env, config: Config, scope: Scope, body: seq<Statement>)
    requires Default(config, scope) && Matches(config, env, tree) && !config.isSimple
    requires |body| >= 2 && RawMustaches(scope, body) && BasicBody(body) && BodySupported(body) && BodyFits(scope, body)
    requires BodyUsesDepths(scope, body) ==> config.useDepths
    requires t.body == Merge(ProgramLines(config, scope, body), false)
    ensures RunTemplate(w, t, env) == Str(BodyText(w, tree, scope, body).text)
            <==> Textual(w, RawValue(w, tree, scope, body[0].call)) || Textual(w, RawValue(w, tree, scope, body[1].call))
  {
    RawLinesWritten(config, scope, Start, body, 0);
    var (lines, vs) := (RawLines(config, scope, body), RawValues(w, tree, scope, body));
    assert ProgramLines(config, scope, body) == [] + lines == lines by {
      hide RawLines, BodyPieces, Write, RunTemplate, BodyText, Merge;
    }
    hide *;
    RawLinesEval(w, t, env, tree, config, scope, body);
    RawText(w, tree, scope, body);
    FirstRawValues(w, tree, scope, body);
    ReturnsSum(w, t, env, lines, vs);
    RunIsText(w, "", vs);
  }

  lemma {:induction false} FirstRawValues(w: World, env: Env, scope: Scope, body: seq<Statement>)
    requires RawMustaches(scope, body) && |body| >= 2
    ensures body[0].MustacheStatement? && RawValues(w, env, scope, body)[0] == RawValue(w, env, scope, body[0].call)
    ensures body[1].MustacheStatement? && RawValues(w, env, scope, body)[1] == RawValue(w, env, scope, body[1].call)
  {
    hide RawValue;
    assert RawValues(w, env, scope, body)[1] == RawValues(w, env, scope, body[1..])[0];
  }
}
