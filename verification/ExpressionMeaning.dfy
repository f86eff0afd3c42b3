/** Running the direct code of an expression gives the value of the expression. */
module ExpressionMeaning {
  import opened Wrappers
  import opened HandlebarsAst
  import opened HandlebarsCompiler
  import opened JsCode
  import opened JsValues
  import opened CodeMachine
  import opened DirectCode
  import opened TemplateSemantics
  import opened Execution

  /** Whatever the temporaries and registers hold, `e` evaluates to `item`. */
  ghost predicate Evals(w: World, t: Template, env: Env, e: JsExpr, item: Item) {
    forall f: Frame :: Eval(w, t, env, f, e).item == item
  }

  /** Only the temporary `slot` may differ. */
  ghost predicate SameBut(f: Frame, f': Frame, slot: nat) {
    && f'.helper == f.helper
    && f'.options == f.options
    && forall k: nat :: k != slot ==> TempValue(f', k) == TempValue(f, k)
  }

  ghost predicate Yields(w: World, t: Template, env: Env, e: JsExpr, v: Value, slot: nat) {
    forall f: Frame :: var r := Eval(w, t, env, f, e); r.item == V(v) && SameBut(f, r.frame, slot)
  }

  // ----- paths

  function Looked(w: World, v: Value, name: string, falsy: bool): Value {
    if falsy then (if Truthy(v) then w.get(v, name) else v) else if IsNull(v) then v else w.get(v, name)
  }

  function Fold(w: World, v: Value, parts: seq<string>, falsy: bool): Value {
    if falsy then GuardedFold(w, v, parts) else SafeFold(w, v, parts)
  }

  lemma {:induction false} WrapYields(w: World, t: Template, env: Env, entry: Entry, v: Value, name: string, falsy: bool, slot: nat)
    requires Yields(w, t, env, entry.expr, v, slot)
    ensures Yields(w, t, env, WrapEntry(if falsy then Guarded(name) else NullSafe(name), entry, slot), Looked(w, v, name, falsy), slot)
  {
    var wrap := if falsy then Guarded(name) else NullSafe(name);
    forall f: Frame
      ensures var r := Eval(w, t, env, f, WrapEntry(wrap, entry, slot));
              r.item == V(Looked(w, v, name, falsy)) && SameBut(f, r.frame, slot)
    {
      var r := Eval(w, t, env, f, entry.expr);
      if entry.Lit? {
        var r2 := Eval(w, t, env, r.frame, entry.expr);
        assert Eval(w, t, env, r.frame, Get(entry.expr, name)) == Result(V(w.get(v, name)), r2.frame);
      } else {
        var f1 := r.frame.(temps := r.frame.temps[slot := v]);
        assert Eval(w, t, env, f, SetTemp(slot, entry.expr)) == Result(V(v), f1);
        assert Eval(w, t, env, f1, Temp(slot)) == Result(V(v), f1);
        assert Eval(w, t, env, f1, Get(Temp(slot), name)) == Result(V(w.get(v, name)), f1);
      }
    }
  }

  /** Reusing one temporary for every level of a path is sound, whatever it held before. */
  lemma {:induction false} PathReusesTemporary(w: World, t: Template, env: Env, entry: Entry, v: Value, parts: seq<string>, falsy: bool, slot: nat)
    requires Yields(w, t, env, entry.expr, v, slot)
    ensures Yields(w, t, env, ResolveEntry(entry, parts, falsy, slot).expr, Fold(w, v, parts, falsy), slot)
    decreases |parts|
  {
    if parts != [] {
      var wrap := if falsy then Guarded(parts[0]) else NullSafe(parts[0]);
      WrapYields(w, t, env, entry, v, parts[0], falsy, slot);
      PathReusesTemporary(w, t, env, Code(WrapEntry(wrap, entry, slot)), Looked(w, v, parts[0], falsy), parts[1..], falsy, slot);
    }
  }

  /** The environment the code runs in and the one the tree is read in. */
  predicate Matches(config: Config, code: Env, tree: Env) {
    code.context == tree.context && code.data == tree.data && (config.useDepths ==> code.depths == tree.depths)
  }

  /** No block parameters are in force. */
  ghost predicate Default(config: Config, scope: Scope) {
    && config.flags == scope.flags
    && forall i :: 0 <= i < |scope.blockParams| ==> scope.blockParams[i] == []
  }

  lemma {:induction false} NoBlockParam(blockParams: seq<seq<string>>, name: string)
    requires forall i :: 0 <= i < |blockParams| ==> blockParams[i] == []
    ensures BlockParamIndex(blockParams, name).None?
    decreases |blockParams|
  {
    if blockParams != [] {
      NoBlockParam(blockParams[1..], name);
    }
  }

  lemma {:induction false} PathYields(w: World, t: Template, env: Env, tree: Env, config: Config, scope: Scope, path: Path, falsy: bool)
    requires Default(config, scope) && Matches(config, env, tree)
    requires path.depth != 0 ==> config.useDepths
    ensures Yields(w, t, env, PathEntry(config, scope, path, falsy).expr, PathValue(w, tree, path, falsy), 1)
  {
    if |path.parts| > 0 {
      NoBlockParam(scope.blockParams, path.parts[0]);
    }
    var context := Lit(ContextVar(config, path.depth));
    assert Yields(w, t, env, context.expr, ContextAt(tree, path.depth), 1);
    match PathOpcode(scope, path, falsy, falsy)
    case LookupData(depth, parts, _) =>
      assert Yields(w, t, env, DataVar(depth), DataAt(w, tree, depth), 1);
      PathReusesTemporary(w, t, env, Lit(DataVar(depth)), DataAt(w, tree, depth), parts, true, 1);
    case LookupOnContext(parts, _, _, _) =>
      PathReusesTemporary(w, t, env, context, ContextAt(tree, path.depth), parts, falsy, 1);
    case _ =>
  }

  // ----- parameters and hashes

  ghost predicate AllEval(w: World, t: Template, env: Env, es: seq<JsExpr>, vs: seq<Value>) {
    |es| == |vs| && forall i :: 0 <= i < |es| ==> Evals(w, t, env, es[i], V(vs[i]))
  }

  lemma {:induction false} EvalAllValues(w: World, t: Template, env: Env, f: Frame, es: seq<JsExpr>, vs: seq<Value>)
    requires AllEval(w, t, env, es, vs)
    ensures EvalAll(w, t, env, f, es).values == vs
    decreases |es|
  {
    if es != [] {
      var r := Eval(w, t, env, f, es[0]);
      assert Evals(w, t, env, es[0], V(vs[0]));
      assert AllEval(w, t, env, es[1..], vs[1..]);
      EvalAllValues(w, t, env, r.frame, es[1..], vs[1..]);
      assert vs == [vs[0]] + vs[1..];
    }
  }

  /** The map that fields with the values `vs` denote. */
  function FieldMap(fields: seq<Field>, vs: seq<Value>): map<string, Value>
    requires |fields| == |vs|
  {
    if fields == [] then map[]
    else
      var rest := FieldMap(fields[1..], vs[1..]);
      if fields[0].value == Constant(UndefinedLiteral) then rest else map[fields[0].key := vs[0]] + rest
  }

  ghost predicate FieldsEval(w: World, t: Template, env: Env, fields: seq<Field>, vs: seq<Value>) {
    |fields| == |vs| && forall i :: 0 <= i < |fields| ==> Evals(w, t, env, fields[i].value, V(vs[i]))
  }

  lemma {:induction false} EvalFieldsMap(w: World, t: Template, env: Env, f: Frame, fields: seq<Field>, vs: seq<Value>)
    requires FieldsEval(w, t, env, fields, vs)
    ensures EvalFields(w, t, env, f, fields).hash == FieldMap(fields, vs)
    decreases |fields|
  {
    if fields != [] {
      var r := Eval(w, t, env, f, fields[0].value);
      assert Evals(w, t, env, fields[0].value, V(vs[0]));
      assert FieldsEval(w, t, env, fields[1..], vs[1..]);
      EvalFieldsMap(w, t, env, r.frame, fields[1..], vs[1..]);
    }
  }

  predicate DistinctKeys(fields: seq<Field>) {
    forall i, j :: 0 <= i < j < |fields| ==> fields[i].key != fields[j].key
  }

  predicate HasKey(fields: seq<Field>, key: string) {
    exists i :: 0 <= i < |fields| && fields[i].key == key
  }

  /** The values of the fields after `SetField`. */
  function SetValue(fields: seq<Field>, vs: seq<Value>, key: string, v: Value): seq<Value>
    requires |fields| == |vs|
  {
    if fields == [] then [v]
    else if fields[0].key == key then [v] + vs[1..]
    else [vs[0]] + SetValue(fields[1..], vs[1..], key, v)
  }

  lemma {:induction false} FieldMapKeys(fields: seq<Field>, vs: seq<Value>, key: string)
    requires |fields| == |vs| && !HasKey(fields, key)
    ensures key !in FieldMap(fields, vs)
    decreases |fields|
  {
    if fields != [] {
      assert fields[0].key != key;
      forall i | 0 <= i < |fields[1..]| ensures fields[1..][i].key != key {
        assert fields[1..][i] == fields[i + 1];
      }
      FieldMapKeys(fields[1..], vs[1..], key);
    }
  }

  lemma {:induction false} SetFieldKeys(fields: seq<Field>, key: string, e: JsExpr)
    requires DistinctKeys(fields)
    ensures DistinctKeys(SetField(fields, key, e))
    ensures forall k :: HasKey(SetField(fields, key, e), k) ==> k == key || HasKey(fields, k)
    decreases |fields|
  {
    var fs := SetField(fields, key, e);
    if fields != [] && fields[0].key != key {
      SetFieldKeys(fields[1..], key, e);
      var rest := SetField(fields[1..], key, e);
      assert fs[1..] == rest;
      forall j | 0 <= j < |rest| ensures rest[j].key == key || HasKey(fields, rest[j].key)
      ensures rest[j].key != fields[0].key
      {
        assert HasKey(rest, rest[j].key);
        if HasKey(fields[1..], rest[j].key) {
          var i :| 0 <= i < |fields[1..]| && fields[1..][i].key == rest[j].key;
          assert fields[i + 1].key == rest[j].key;
        }
      }
    }
    forall k | HasKey(fs, k) && k != key ensures HasKey(fields, k) {
      var i :| 0 <= i < |fs| && fs[i].key == k;
      if fields != [] && fields[0].key != key && i > 0 {
        assert fs[i] == SetField(fields[1..], key, e)[i - 1];
      } else if fields != [] {
        assert fields[i].key == k;
      }
    }
  }

  lemma {:induction false} SetFieldEvals(w: World, t: Template, env: Env, fields: seq<Field>, vs: seq<Value>, key: string, e: JsExpr, v: Value)
    requires FieldsEval(w, t, env, fields, vs) && Evals(w, t, env, e, V(v))
    ensures FieldsEval(w, t, env, SetField(fields, key, e), SetValue(fields, vs, key, v))
    decreases |fields|
  {
    hide Evals;
    if fields != [] && fields[0].key != key {
      assert FieldsEval(w, t, env, fields[1..], vs[1..]);
      SetFieldEvals(w, t, env, fields[1..], vs[1..], key, e, v);
    }
  }

  /** Setting a field sets its key in the map, or drops it when the code is the literal `undefined`. */
  lemma {:induction false} FieldMapCons(field: Field, fields: seq<Field>, v: Value, vs: seq<Value>)
    requires |fields| == |vs|
    ensures FieldMap([field] + fields, [v] + vs)
         == if field.value == Constant(UndefinedLiteral) then FieldMap(fields, vs) else map[field.key := v] + FieldMap(fields, vs)
    ensures FieldMap([], []) == map[]
  {
    assert ([field] + fields)[1..] == fields && ([v] + vs)[1..] == vs;
  }

  lemma {:induction false} SetFieldMap(fields: seq<Field>, vs: seq<Value>, key: string, e: JsExpr, v: Value)
    requires |fields| == |vs| && DistinctKeys(fields)
    ensures |SetField(fields, key, e)| == |SetValue(fields, vs, key, v)|
    ensures FieldMap(SetField(fields, key, e), SetValue(fields, vs, key, v))
         == if e == Constant(UndefinedLiteral) then FieldMap(fields, vs) - {key} else FieldMap(fields, vs)[key := v]
    decreases |fields|
  {
    hide FieldMap;
    if fields == [] {
      FieldMapCons(Field(key, e), [], v, []);
      assert [Field(key, e)] + [] == [Field(key, e)] && [v] + [] == [v];
    } else {
      var head, rest, us := fields[0], fields[1..], vs[1..];
      assert fields == [head] + rest && vs == [vs[0]] + us;
      FieldMapCons(head, rest, vs[0], us);
      if head.key == key {
        FieldMapKeys(rest, us, key);
        FieldMapCons(Field(key, e), rest, v, us);
      } else {
        SetFieldMap(rest, us, key, e, v);
        FieldMapCons(head, SetField(rest, key, e), vs[0], SetValue(rest, us, key, v));
      }
    }
  }

  // ----- expressions

  lemma {:induction false} ResolvedNotUndefined(entry: Entry, parts: seq<string>, falsy: bool, slot: nat)
    requires entry.expr != Constant(UndefinedLiteral)
    ensures ResolveEntry(entry, parts, falsy, slot).expr != Constant(UndefinedLiteral)
    decreases |parts|
  {
    if parts != [] {
      ResolvedNotUndefined(Code(WrapEntry(if falsy then Guarded(parts[0]) else NullSafe(parts[0]), entry, slot)), parts[1..], falsy, slot);
    }
  }

  /** Only the literal `undefined` is coded as the text `undefined`. */
  lemma {:induction false} UndefinedCode(config: Config, scope: Scope, e: Expr)
    requires Default(config, scope)
    ensures ExprEntry(config, scope, e).expr == Constant(UndefinedLiteral) <==> e == LiteralExpression(UndefinedLiteral)
  {
    if e.SubExpression? {
      var code := CallCode(config, scope, e.call, true, None, None);
      match Classify(scope, e.call, true)
      case SimpleKind => assert code.Lambda?;
      case HelperKind => assert code == HelperCode(config, scope, e.call, None, None);
      case AmbiguousKind =>
    } else if e.PathExpression? {
      if |e.path.parts| > 0 {
        NoBlockParam(scope.blockParams, e.path.parts[0]);
      }
      match PathOpcode(scope, e.path, false, false)
      case LookupData(depth, parts, _) => ResolvedNotUndefined(Lit(DataVar(depth)), parts, true, 1);
      case LookupOnContext(parts, _, _, _) => ResolvedNotUndefined(Lit(ContextVar(config, e.path.depth)), parts, false, 1);
      case _ =>
    }
  }

  /** A helper without programs renders nothing but the empty string. */
  lemma {:induction false} PlainHelper(w: World, t: Template, env: Env, callee: Value, self: Value, args: seq<Value>, o: Options, outputs: seq<Value>)
    requires o.program.None? && o.inverse.None?
    ensures RunHelper(w, t, env, callee, self, args, o, outputs) == PlainRun(w, callee, self, args, InfoOf(o), outputs)
    decreases w.limit - |outputs|
  {
    if |outputs| < w.limit && w.action(callee, self, args, InfoOf(o), outputs).Render? {
      PlainHelper(w, t, env, callee, self, args, o, outputs + [Str("")]);
    }
  }

  lemma {:induction false} ExprEvals(w: World, t: Template, env: Env, tree: Env, config: Config, scope: Scope, e: Expr)
    requires BasicExpr(e) && ExprFits(scope, e) && Default(config, scope) && Matches(config, env, tree)
    requires ExprUsesDepths(scope, e) ==> config.useDepths
    ensures Evals(w, t, env, ExprEntry(config, scope, e).expr, V(ExprValue(w, tree, scope, e)))
    decreases e, 0
  {
    match e
    case PathExpression(path) =>
      PathYields(w, t, env, tree, config, scope, path, false);
    case LiteralExpression(_) =>
    case SubExpression(call) => PlainCallEvals(w, t, env, tree, config, scope, call, true);
  }

  /** A parameter passes on its value, or its text where the flags ask for it. */
  lemma {:induction false} ParamEvals(w: World, t: Template, env: Env, tree: Env, config: Config, scope: Scope, e: Expr)
    requires BasicExpr(e) && ExprFits(scope, e) && Default(config, scope) && Matches(config, env, tree)
    requires ExprUsesDepths(scope, e) ==> config.useDepths
    ensures var code := ParamSlots(config, scope, e).value.expr;
            && Evals(w, t, env, code, V(ParamValue(w, tree, scope, e)))
            && (code == Constant(UndefinedLiteral) <==> e == LiteralExpression(UndefinedLiteral) && !scope.flags.stringParams)
    decreases e, 1
  {
    ExprEvals(w, t, env, tree, config, scope, e);
    UndefinedCode(config, scope, e);
    hide ExprEntry, ExprValue;
  }

  lemma {:induction false} ParamsEval(w: World, t: Template, env: Env, tree: Env, config: Config, scope: Scope, params: seq<Expr>)
    requires BasicParams(params) && ParamsFit(scope, params) && Default(config, scope) && Matches(config, env, tree)
    requires ParamsUseDepths(scope, params) ==> config.useDepths
    ensures AllEval(w, t, env, AllValues(ParamsSlots(config, scope, params)), ParamValues(w, tree, scope, params))
    decreases params, 2
  {
    if params != [] {
      ParamEvals(w, t, env, tree, config, scope, params[0]);
      ParamsEval(w, t, env, tree, config, scope, params[1..]);
      var slots := ParamsSlots(config, scope, params);
      assert slots[1..] == ParamsSlots(config, scope, params[1..]);
      assert slots[0] == ParamSlots(config, scope, params[0]);
      hide ParamSlots, ParamValue, Evals;
      AllEvalCons(w, t, env, slots[0].value.expr, ParamValue(w, tree, scope, params[0]), AllValues(slots[1..]),
                  ParamValues(w, tree, scope, params[1..]));
    }
  }

  lemma {:induction false} AllEvalCons(w: World, t: Template, env: Env, e: JsExpr, v: Value, es: seq<JsExpr>, vs: seq<Value>)
    requires Evals(w, t, env, e, V(v)) && AllEval(w, t, env, es, vs)
    ensures AllEval(w, t, env, [e] + es, [v] + vs)
  {
    hide Evals;
  }

  /** One more key in a register. */
  lemma {:induction false} AssignEvals(w: World, t: Template, env: Env, fields: seq<Field>, vs: seq<Value>, key: string, e: JsExpr, v: Value)
    requires FieldsEval(w, t, env, fields, vs) && DistinctKeys(fields) && KeyKept(key) && Evals(w, t, env, e, V(v))
    ensures var (after, us) := (AssignedField(fields, key, e), SetValue(fields, vs, key, v));
            && FieldsEval(w, t, env, after, us) && DistinctKeys(after)
            && FieldMap(after, us)
            == if e == Constant(UndefinedLiteral) then FieldMap(fields, vs) - {key} else FieldMap(fields, vs)[key := v]
  {
    SetFieldEvals(w, t, env, fields, vs, key, e, v);
    SetFieldKeys(fields, key, e);
    SetFieldMap(fields, vs, key, e, v);
  }

  /** The hash register denotes the hash: every key, also of nested hashes, has its own value. */
  lemma {:induction false} HashEvals(w: World, t: Template, env: Env, tree: Env, config: Config, scope: Scope, hash: seq<Pair>)
    returns (vs: seq<Value>)
    requires BasicPairs(hash) && PairsFit(scope, hash) && Default(config, scope) && Matches(config, env, tree)
    requires PairsUseDepths(scope, hash) ==> config.useDepths
    ensures var fields := Register(hash, PairsSlots(config, scope, hash)).values;
            && FieldsEval(w, t, env, fields, vs) && DistinctKeys(fields)
            && FieldMap(fields, vs) == HashValue(w, tree, scope, hash)
    decreases hash, 2
  {
    if hash == [] {
      vs := [];
    } else {
      var (key, e) := (hash[0].key, hash[0].value);
      var slots := PairsSlots(config, scope, hash);
      assert slots[1..] == PairsSlots(config, scope, hash[1..]);
      var rest := Register(hash[1..], slots[1..]).values;
      vs := HashEvals(w, t, env, tree, config, scope, hash[1..]);
      ParamEvals(w, t, env, tree, config, scope, e);
      var v := ParamValue(w, tree, scope, e);
      hide ParamSlots, ParamValue, FieldMap, SetValue, AssignedField;
      AssignEvals(w, t, env, rest, vs, key, slots[0].value.expr, v);
      vs := SetValue(rest, vs, key, v);
    }
  }

  // ----- what is tracked

  function TraitOf(s: Slots, what: Trait): seq<Entry> {
    match what
    case TheId => s.ids
    case TheType => s.types
    case TheContext => s.contexts
  }

  function AllTraits(slots: seq<Slots>, what: Trait): seq<JsExpr> {
    match what
    case TheId => AllIds(slots)
    case TheType => AllTypes(slots)
    case TheContext => AllContexts(slots)
  }

  function RegisterTrait(r: HashRegister, what: Trait): seq<Field> {
    match what
    case TheId => r.ids
    case TheType => r.types
    case TheContext => r.contexts
  }

  /** What tracking pushes for a parameter evaluates to the trait. */
  lemma {:induction false} TraitEvals(w: World, t: Template, env: Env, tree: Env, config: Config, scope: Scope, what: Trait, e: Expr)
    requires Default(config, scope) && Matches(config, env, tree) && !BothTracked(scope.flags)
    requires ExprUsesDepths(scope, e) ==> config.useDepths
    ensures var entries := TraitOf(ParamSlots(config, scope, e), what);
            if IsTracked(scope.flags, what)
            then |entries| == 1 && entries[0].expr != Constant(UndefinedLiteral)
                 && Evals(w, t, env, entries[0].expr, V(TraitValue(tree, scope, what, e)))
            else entries == []
  {
    if e.PathExpression? && |e.path.parts| > 0 {
      NoBlockParam(scope.blockParams, e.path.parts[0]);
    }
  }

  lemma {:induction false} TraitsEval(w: World, t: Template, env: Env, tree: Env, config: Config, scope: Scope, what: Trait, params: seq<Expr>)
    requires ParamsFit(scope, params) && Default(config, scope) && Matches(config, env, tree)
    requires ParamsUseDepths(scope, params) ==> config.useDepths
    ensures AllEval(w, t, env, AllTraits(ParamsSlots(config, scope, params), what), ParamTraits(tree, scope, what, params))
    decreases |params|
  {
    if params != [] {
      TraitEvals(w, t, env, tree, config, scope, what, params[0]);
      TraitsEval(w, t, env, tree, config, scope, what, params[1..]);
      var slots := ParamsSlots(config, scope, params);
      assert slots[1..] == ParamsSlots(config, scope, params[1..]);
      var (entries, rest, us) := (TraitOf(slots[0], what), AllTraits(slots[1..], what), ParamTraits(tree, scope, what, params[1..]));
      hide ParamSlots, TraitValue, Evals;
      assert AllTraits(slots, what) == Exprs(entries) + rest;
      if entries == [] {
        assert Exprs(entries) + rest == rest && us == [];
      } else {
        assert Exprs(entries) == [entries[0].expr];
        AllEvalCons(w, t, env, entries[0].expr, TraitValue(tree, scope, what, params[0]), rest, us);
      }
    }
  }

  lemma {:induction false} HashTraitsEval(w: World, t: Template, env: Env, tree: Env, config: Config, scope: Scope, what: Trait, hash: seq<Pair>)
    returns (vs: seq<Value>)
    requires BasicPairs(hash) && PairsFit(scope, hash) && Default(config, scope) && Matches(config, env, tree)
    requires PairsUseDepths(scope, hash) ==> config.useDepths
    ensures var fields := RegisterTrait(Register(hash, PairsSlots(config, scope, hash)), what);
            && FieldsEval(w, t, env, fields, vs) && DistinctKeys(fields)
            && FieldMap(fields, vs) == HashTraits(tree, scope, what, hash)
    decreases |hash|
  {
    if hash == [] {
      vs := [];
    } else {
      var (key, e) := (hash[0].key, hash[0].value);
      var slots := PairsSlots(config, scope, hash);
      assert slots[1..] == PairsSlots(config, scope, hash[1..]);
      var rest := RegisterTrait(Register(hash[1..], slots[1..]), what);
      vs := HashTraitsEval(w, t, env, tree, config, scope, what, hash[1..]);
      TraitEvals(w, t, env, tree, config, scope, what, e);
      var entries := TraitOf(slots[0], what);
      hide ParamSlots, TraitValue, FieldMap, SetValue, AssignedField;
      assert RegisterTrait(Register(hash, slots), what) == SetTracked(rest, key, entries);
      if entries != [] {
        var v := TraitValue(tree, scope, what, e);
        AssignEvals(w, t, env, rest, vs, key, entries[0].expr, v);
        vs := SetValue(rest, vs, key, v);
      } else {
        assert HashTraits(tree, scope, what, hash[1..]) == map[];
      }
    }
  }

  // ----- options

  ghost predicate MapEvals(w: World, t: Template, env: Env, es: seq<JsExpr>, m: map<string, Value>) {
    if es == [] then m == map[] else |es| == 1 && Evals(w, t, env, es[0], H(m))
  }

  ghost predicate ExtrasEval(w: World, t: Template, env: Env, x: Extras, k: Tracking) {
    && MapEvals(w, t, env, x.hashIds, k.hashIds) && MapEvals(w, t, env, x.hashTypes, k.hashTypes)
    && MapEvals(w, t, env, x.hashContexts, k.hashContexts)
    && AllEval(w, t, env, x.ids, k.ids) && AllEval(w, t, env, x.types, k.types) && AllEval(w, t, env, x.contexts, k.contexts)
  }

  lemma {:induction false} ExtrasAre(w: World, t: Template, env: Env, f: Frame, x: Extras, k: Tracking)
    requires ExtrasEval(w, t, env, x, k)
    ensures EvalExtras(w, t, env, f, x).tracking == k
  {
    hide AllEval;
    var f1 := EvalMap(w, t, env, f, x.hashIds).frame;
    var f2 := EvalMap(w, t, env, f1, x.hashTypes).frame;
    var f3 := EvalMap(w, t, env, f2, x.hashContexts).frame;
    EvalAllValues(w, t, env, f3, x.ids, k.ids);
    var f4 := EvalAll(w, t, env, f3, x.ids).frame;
    EvalAllValues(w, t, env, f4, x.types, k.types);
    EvalAllValues(w, t, env, EvalAll(w, t, env, f4, x.types).frame, x.contexts, k.contexts);
    MapIs(w, t, env, f, x.hashIds, k.hashIds);
    MapIs(w, t, env, f1, x.hashTypes, k.hashTypes);
    MapIs(w, t, env, f2, x.hashContexts, k.hashContexts);
    hide Eval, EvalMap, EvalAll, MapEvals;
  }

  lemma {:induction false} MapIs(w: World, t: Template, env: Env, f: Frame, es: seq<JsExpr>, m: map<string, Value>)
    requires MapEvals(w, t, env, es, m)
    ensures EvalMap(w, t, env, f, es).hash == m
  {
  }

  /** The entries that tracking adds to the options of a call. */
  function ExtrasOf(params: seq<Slots>, hash: Slots): Extras {
    Extras(Exprs(hash.ids), Exprs(hash.types), Exprs(hash.contexts), AllIds(params), AllTypes(params), AllContexts(params))
  }

  function HashItem(hash: Option<map<string, Value>>): Item {
    if hash.Some? then H(hash.value) else V(Undefined)
  }

  /** What a hash leaves for the options. */
  lemma {:induction false} HashSlotEvals(w: World, t: Template, env: Env, tree: Env, config: Config, scope: Scope, hash: seq<Pair>, omitEmpty: bool)
    requires BasicPairs(hash) && PairsFit(scope, hash) && Default(config, scope) && Matches(config, env, tree)
    requires PairsUseDepths(scope, hash) ==> config.useDepths
    ensures Evals(w, t, env, HashSlots(config, scope, hash, omitEmpty).value.expr,
                  HashItem(if hash == [] && omitEmpty then None else Some(HashValue(w, tree, scope, hash))))
    decreases hash, 3
  {
    if hash != [] {
      var vs := HashEvals(w, t, env, tree, config, scope, hash);
      var fields := Register(hash, PairsSlots(config, scope, hash)).values;
      assert HashSlots(config, scope, hash, omitEmpty).value.expr == ObjectOf(fields);
      hide HashSlots, Register, PairsSlots, FieldMap, FieldsEval, HashValue;
      ObjectEvals(w, t, env, fields, vs);
    }
  }

  lemma {:induction false} HashTraitSlots(w: World, t: Template, env: Env, tree: Env, config: Config, scope: Scope, what: Trait, hash: seq<Pair>, omitEmpty: bool)
    requires BasicPairs(hash) && PairsFit(scope, hash) && Default(config, scope) && Matches(config, env, tree)
    requires PairsUseDepths(scope, hash) ==> config.useDepths
    ensures MapEvals(w, t, env, Exprs(TraitOf(HashSlots(config, scope, hash, omitEmpty), what)), HashTraits(tree, scope, what, hash))
  {
    var es := Exprs(TraitOf(HashSlots(config, scope, hash, omitEmpty), what));
    if !IsTracked(scope.flags, what) {
      assert es == [];
    } else if hash == [] {
      assert es == [EmptyObject];
    } else {
      var vs := HashTraitsEval(w, t, env, tree, config, scope, what, hash);
      var fields := RegisterTrait(Register(hash, PairsSlots(config, scope, hash)), what);
      assert es == [ObjectOf(fields)];
      hide HashSlots, Register, PairsSlots, FieldMap, FieldsEval, HashTraits;
      ObjectEvals(w, t, env, fields, vs);
    }
  }

  lemma {:induction false} ArgsTracked(w: World, t: Template, env: Env, tree: Env, config: Config, scope: Scope, args: Args, omitEmpty: bool)
    requires BasicArgs(args) && ArgsFit(scope, args) && Default(config, scope) && Matches(config, env, tree)
    requires ArgsUseDepths(scope, args) ==> config.useDepths
    ensures ExtrasEval(w, t, env, ExtrasOf(ParamsSlots(config, scope, args.params), HashSlots(config, scope, args.hash, omitEmpty)),
                       TrackingOf(tree, scope, args))
  {
    forall what: Trait
      ensures MapEvals(w, t, env, Exprs(TraitOf(HashSlots(config, scope, args.hash, omitEmpty), what)), HashTraits(tree, scope, what, args.hash))
      ensures AllEval(w, t, env, AllTraits(ParamsSlots(config, scope, args.params), what), ParamTraits(tree, scope, what, args.params))
    {
      HashTraitSlots(w, t, env, tree, config, scope, what, args.hash, omitEmpty);
      TraitsEval(w, t, env, tree, config, scope, what, args.params);
    }
    hide MapEvals, AllEval, HashSlots, ParamsSlots, HashTraits, ParamTraits, AllIds, AllTypes, AllContexts, Exprs;
    var (slots, hash) := (ParamsSlots(config, scope, args.params), HashSlots(config, scope, args.hash, omitEmpty));
    assert TraitOf(hash, TheId) == hash.ids && TraitOf(hash, TheType) == hash.types && TraitOf(hash, TheContext) == hash.contexts;
    assert AllTraits(slots, TheId) == AllIds(slots) && AllTraits(slots, TheType) == AllTypes(slots) && AllTraits(slots, TheContext) == AllContexts(slots);
  }

  lemma {:induction false} NothingTracked(w: World, t: Template, env: Env, config: Config)
    ensures ExtrasEval(w, t, env, ExtrasOf([], NoHash(config)), Untracked)
  {
    var hash := NoHash(config);
    assert Exprs(hash.ids) == if config.flags.trackIds then [EmptyObject] else [];
    assert Exprs(hash.types) == Exprs(hash.contexts) == if config.flags.stringParams then [EmptyObject] else [];
  }

  lemma {:induction false} ObjectEvals(w: World, t: Template, env: Env, fields: seq<Field>, vs: seq<Value>)
    requires FieldsEval(w, t, env, fields, vs)
    ensures Evals(w, t, env, ObjectOf(fields), H(FieldMap(fields, vs)))
  {
    forall f: Frame ensures Eval(w, t, env, f, ObjectOf(fields)).item == H(FieldMap(fields, vs)) {
      EvalFieldsMap(w, t, env, f, fields, vs);
    }
  }

  function HandleOf(config: Config, guid: Option<nat>): Option<Handle> {
    if guid.Some? then Some(Handle(guid.value, config.useDepths)) else None
  }

  function OptionsValue(config: Config, tree: Env, name: string, hash: Option<map<string, Value>>, tracking: Tracking,
                        program: Option<nat>, inverse: Option<nat>): Options {
    Options(name, hash, HandleOf(config, program), HandleOf(config, inverse), tree.data, tracking)
  }

  /** The options of a call without parameters and hash. */
  function BareOptions(config: Config, tree: Env, name: string, program: Option<nat>, inverse: Option<nat>): Options {
    OptionsValue(config, tree, name, Some(map[]), Untracked, program, inverse)
  }

  lemma {:induction false} OptionsEval(w: World, t: Template, env: Env, tree: Env, config: Config, name: string, params: seq<Slots>,
                                       slot: Slots, hash: Option<map<string, Value>>, tracking: Tracking,
                                       program: Option<nat>, inverse: Option<nat>)
    requires Matches(config, env, tree) && Evals(w, t, env, slot.value.expr, HashItem(hash))
    requires ExtrasEval(w, t, env, ExtrasOf(params, slot), tracking)
    ensures Evals(w, t, env, OptionsFor(config, name, params, slot, program, inverse),
                  O(OptionsValue(config, tree, name, hash, tracking, program, inverse)))
  {
    hide Eval, ExtrasEval, EvalExtras;
    var (extras, p, i) := (ExtrasOf(params, slot), ProgramExpr(config, program), ProgramExpr(config, inverse));
    forall f: Frame
      ensures Eval(w, t, env, f, OptionsFor(config, name, params, slot, program, inverse)).item
           == O(OptionsValue(config, tree, name, hash, tracking, program, inverse))
    {
      var f1 := Eval(w, t, env, f, slot.value.expr).frame;
      var f2 := EvalExtras(w, t, env, f1, extras).frame;
      ExtrasAre(w, t, env, f1, extras, tracking);
      ProgramsKeep(w, t, env, f2, config, program);
      ProgramsKeep(w, t, env, f2, config, inverse);
      OptionsSteps(w, t, env, f, name, slot.value.expr, p, i, extras);
    }
  }

  lemma {:induction false} OptionsSteps(w: World, t: Template, env: Env, f: Frame, name: string, hash: JsExpr, program: JsExpr, inverse: JsExpr, extras: Extras)
    ensures var h := Eval(w, t, env, f, hash);
            var k := EvalExtras(w, t, env, h.frame, extras);
            var p := Eval(w, t, env, k.frame, program);
            var i := Eval(w, t, env, p.frame, inverse);
            Eval(w, t, env, f, OptionsOf(name, hash, program, inverse, extras))
            == Result(O(Options(name, HashOf(h.item), AsHandle(p.item), AsHandle(i.item), env.data, k.tracking)), i.frame)
  {
  }

  lemma {:induction false} ProgramsKeep(w: World, t: Template, env: Env, f: Frame, config: Config, guid: Option<nat>)
    ensures Eval(w, t, env, f, ProgramExpr(config, guid)) == Result(P(HandleOf(config, guid)), f)
  {
  }

  lemma {:induction false} BareOptionsEval(w: World, t: Template, env: Env, tree: Env, config: Config, name: string,
                                           program: Option<nat>, inverse: Option<nat>)
    requires Matches(config, env, tree)
    ensures Evals(w, t, env, OptionsFor(config, name, [], NoHash(config), program, inverse),
                  O(BareOptions(config, tree, name, program, inverse)))
  {
    NothingTracked(w, t, env, config);
    OptionsEval(w, t, env, tree, config, name, [], NoHash(config), Some(map[]), Untracked, program, inverse);
  }

  /** What the code of a call evaluates to, its helper running with the programs of the options. */
  function CallResult(w: World, t: Template, env: Env, config: Config, tree: Env, p: Prepared, program: Option<nat>, inverse: Option<nat>): Value {
    match p
    case Ready(v) => v
    case Pending(callee, args, name, hash, tracking) =>
      RunHelper(w, t, env, callee, SelfOf(w, tree), args, OptionsValue(config, tree, name, Some(hash), tracking, program, inverse), [])
  }

  lemma {:induction false} CallEvals(w: World, t: Template, env: Env, tree: Env, config: Config, scope: Scope, call: Call, isSubExpression: bool,
                                     program: Option<nat>, inverse: Option<nat>)
    requires BasicArgs(call.args) && CallFits(scope, call, isSubExpression) && Default(config, scope) && Matches(config, env, tree)
    requires CallUsesDepths(scope, call, isSubExpression) ==> config.useDepths
    ensures Evals(w, t, env, CallCode(config, scope, call, isSubExpression, program, inverse),
                  V(CallResult(w, t, env, config, tree, Prepare(w, tree, scope, call, isSubExpression), program, inverse)))
    decreases call, 4
  {
    hide HelperCode, AmbiguousCallCode, RunHelper, RunTemplate, HashValue, ParamValues, KnownHelper, HelperExpression;
    match Classify(scope, call, isSubExpression)
    case SimpleKind => LambdaEvals(w, t, env, tree, config, scope, call, isSubExpression);
    case HelperKind => HelperEvals(w, t, env, tree, config, scope, call, isSubExpression, program, inverse);
    case AmbiguousKind => AmbiguousEvals(w, t, env, tree, config, scope, call, isSubExpression, program, inverse);
  }

  lemma {:induction false} LambdaEvals(w: World, t: Template, env: Env, tree: Env, config: Config, scope: Scope, call: Call, isSubExpression: bool)
    requires Default(config, scope) && Matches(config, env, tree) && Classify(scope, call, isSubExpression).SimpleKind?
    requires CallUsesDepths(scope, call, isSubExpression) ==> config.useDepths
    ensures var p := Prepare(w, tree, scope, call, isSubExpression);
            p.Ready? && Evals(w, t, env, Lambda(PathEntry(config, scope, call.path, false).expr), V(p.value))
  {
    PathYields(w, t, env, tree, config, scope, call.path, false);
    var e, v := PathEntry(config, scope, call.path, false).expr, PathValue(w, tree, call.path, false);
    hide PathEntry, PathValue, RunTemplate, RunHelper, Classify;
    forall f: Frame
      ensures Eval(w, t, env, f, Lambda(e)).item == V(if w.isFunction(v) then w.lambda(v, env.context) else v)
    {
      assert Eval(w, t, env, f, e).item == V(v);
    }
  }

  lemma {:induction false} PlainCallEvals(w: World, t: Template, env: Env, tree: Env, config: Config, scope: Scope, call: Call, isSubExpression: bool)
    requires BasicArgs(call.args) && CallFits(scope, call, isSubExpression) && Default(config, scope) && Matches(config, env, tree)
    requires CallUsesDepths(scope, call, isSubExpression) ==> config.useDepths
    ensures Evals(w, t, env, CallCode(config, scope, call, isSubExpression, None, None),
                  V(PlainValue(w, tree, Prepare(w, tree, scope, call, isSubExpression))))
    decreases call, 5
  {
    CallEvals(w, t, env, tree, config, scope, call, isSubExpression, None, None);
    match Prepare(w, tree, scope, call, isSubExpression)
    case Ready(_) =>
    case Pending(callee, args, name, hash, tracking) =>
      PlainHelper(w, t, env, callee, SelfOf(w, tree), args, OptionsValue(config, tree, name, Some(hash), tracking, None, None), []);
  }

  lemma {:induction false} CalleeEvals(w: World, t: Template, env: Env, tree: Env, config: Config, scope: Scope, path: Path)
    requires Default(config, scope) && Matches(config, env, tree) && !KnownHelper(scope, path)
    requires path.depth != 0 ==> config.useDepths
    ensures Evals(w, t, env, HelperChain(path.original, SimpleId(path), PathEntry(config, scope, path, true).expr),
                  V(CalleeValue(w, tree, scope, path)))
  {
    PathYields(w, t, env, tree, config, scope, path, true);
    hide PathEntry, PathValue, Truthy;
    var nonHelper, v := PathEntry(config, scope, path, true).expr, PathValue(w, tree, path, true);
    var es := (if SimpleId(path) then [Helper(path.original)] else []) + [nonHelper, Helper("helperMissing")];
    var vs := (if SimpleId(path) then [w.helper(path.original)] else []) + [v, w.helper("helperMissing")];
    forall f: Frame ensures Eval(w, t, env, f, Or(es)).item == V(FirstTruthy(vs)) {
      OrEvals(w, t, env, f, es, vs);
    }
  }

  lemma {:induction false} HelperEvals(w: World, t: Template, env: Env, tree: Env, config: Config, scope: Scope, call: Call, isSubExpression: bool,
                                       program: Option<nat>, inverse: Option<nat>)
    requires BasicArgs(call.args) && ArgsFit(scope, call.args) && Default(config, scope) && Matches(config, env, tree)
    requires Classify(scope, call, isSubExpression).HelperKind?
    requires CallUsesDepths(scope, call, isSubExpression) ==> config.useDepths
    ensures Evals(w, t, env, HelperCode(config, scope, call, program, inverse),
                  V(CallResult(w, t, env, config, tree, Prepare(w, tree, scope, call, isSubExpression), program, inverse)))
    decreases call, 3
  {
    hide ParamsSlots, HashSlots, PathEntry, ParamValues, HashValue, PathValue, HelperChain, OptionsFor, AllValues;
    assert ArgsUseDepths(scope, call.args) ==> CallUsesDepths(scope, call, isSubExpression);
    var params, hash := ParamsSlots(config, scope, call.args.params), HashSlots(config, scope, call.args.hash, false);
    var name := if KnownHelper(scope, call.path) then call.path.parts[0] else call.path.original;
    var h := HashValue(w, tree, scope, call.args.hash);
    ParamsEval(w, t, env, tree, config, scope, call.args.params);
    HashSlotEvals(w, t, env, tree, config, scope, call.args.hash, false);
    ArgsTracked(w, t, env, tree, config, scope, call.args, false);
    var tracking := TrackingOf(tree, scope, call.args);
    OptionsEval(w, t, env, tree, config, name, params, hash, Some(h), tracking, program, inverse);
    var options := OptionsFor(config, name, params, hash, program, inverse);
    var callee := if KnownHelper(scope, call.path) then Helper(name)
                  else HelperChain(name, SimpleId(call.path), PathEntry(config, scope, call.path, true).expr);
    if !KnownHelper(scope, call.path) {
      CalleeEvals(w, t, env, tree, config, scope, call.path);
    }
    var vs := ParamValues(w, tree, scope, call.args.params);
    assert Prepare(w, tree, scope, call, isSubExpression) == Pending(CalleeValue(w, tree, scope, call.path), vs, name, h, tracking);
    var o := OptionsValue(config, tree, name, Some(h), tracking, program, inverse);
    hide RunHelper, RunTemplate, CalleeValue, Evals, AllEval, ExtrasEval, Default, Eval;
    ChainedCallEvals(w, t, env, callee, CalleeValue(w, tree, scope, call.path), AllValues(params), vs, options, o);
  }

  lemma {:induction false} ChainedCallEvals(w: World, t: Template, env: Env, callee: JsExpr, c: Value, args: seq<JsExpr>, vs: seq<Value>,
                                            options: JsExpr, o: Options)
    requires Evals(w, t, env, callee, V(c)) && Evals(w, t, env, options, O(o))
    requires AllEval(w, t, env, args, vs)
    ensures Evals(w, t, env, Invoke(callee, args, options), V(RunHelper(w, t, env, c, SelfOf(w, env), vs, o, [])))
  {
    hide RunHelper, RunTemplate, RunLines, EvalOr, EvalFields;
    forall f: Frame
      ensures Eval(w, t, env, f, Invoke(callee, args, options)).item == V(RunHelper(w, t, env, c, SelfOf(w, env), vs, o, []))
    {
      var x := Eval(w, t, env, f, callee);
      assert x.item == V(c);
      EvalAllValues(w, t, env, x.frame, args, vs);
      var y := EvalAll(w, t, env, x.frame, args);
      assert Eval(w, t, env, y.frame, options).item == O(o);
    }
  }

  lemma {:induction false} AmbiguousEvals(w: World, t: Template, env: Env, tree: Env, config: Config, scope: Scope, call: Call, isSubExpression: bool,
                                          program: Option<nat>, inverse: Option<nat>)
    requires Default(config, scope) && Matches(config, env, tree) && Classify(scope, call, isSubExpression).AmbiguousKind?
    requires CallUsesDepths(scope, call, isSubExpression) ==> config.useDepths
    ensures Evals(w, t, env, AmbiguousCallCode(config, scope, call, program, inverse),
                  V(CallResult(w, t, env, config, tree, Prepare(w, tree, scope, call, isSubExpression), program, inverse)))
    ensures program.Some? || inverse.Some? ==>
              forall f: Frame :: Eval(w, t, env, f, AmbiguousCallCode(config, scope, call, program, inverse)).frame.options
                              == BareOptions(config, tree, call.path.parts[0], program, inverse)
  {
    var name := call.path.parts[0];
    var nonHelper := PathEntry(config, scope, call.path, false).expr;
    PathYields(w, t, env, tree, config, scope, call.path, false);
    var options := OptionsFor(config, name, [], NoHash(config), program, inverse);
    BareOptionsEval(w, t, env, tree, config, name, program, inverse);
    var isBlock := program.Some? || inverse.Some?;
    var c := AmbiguousCallee(w, tree, call.path);
    var o := BareOptions(config, tree, name, program, inverse);
    var result := CallResult(w, t, env, config, tree, Prepare(w, tree, scope, call, isSubExpression), program, inverse);
    assert result == if w.isFunction(c) then RunHelper(w, t, env, c, SelfOf(w, tree), [], o, []) else c;
    hide PathEntry, OptionsFor, AmbiguousCallee, PathValue, Eval, CallResult, Prepare;
    forall f: Frame
      ensures Eval(w, t, env, f, AmbiguousCode(name, nonHelper, options, isBlock)).item == V(result)
      ensures isBlock ==> Eval(w, t, env, f, AmbiguousCode(name, nonHelper, options, isBlock)).frame.options == o
    {
      AmbiguousSteps(w, t, env, tree, f, config, scope, call, options, program, inverse);
    }
  }

  function LookupCode(name: string, nonHelper: JsExpr): JsExpr {
    SetHelper(IfNotNull(SetHelper(Or([Helper(name), nonHelper])), HelperVar, Helper("helperMissing")))
  }

  function InvokeCode(options: JsExpr, isBlock: bool): JsExpr {
    IfFunction(Invoke(HelperVar, [], if isBlock then OptionsVar else options), HelperVar)
  }

  lemma {:induction false} AmbiguousSteps(w: World, t: Template, env: Env, tree: Env, f: Frame, config: Config, scope: Scope, call: Call,
                                          options: JsExpr, program: Option<nat>, inverse: Option<nat>)
    requires |call.path.parts| > 0 && env.context == tree.context
    requires Yields(w, t, env, PathEntry(config, scope, call.path, false).expr, PathValue(w, tree, call.path, false), 1)
    requires options == OptionsFor(config, call.path.parts[0], [], NoHash(config), program, inverse)
    requires Evals(w, t, env, options, O(BareOptions(config, tree, call.path.parts[0], program, inverse)))
    ensures var isBlock := program.Some? || inverse.Some?;
            var c := AmbiguousCallee(w, tree, call.path);
            var o := BareOptions(config, tree, call.path.parts[0], program, inverse);
            var r := Eval(w, t, env, f, AmbiguousCode(call.path.parts[0], PathEntry(config, scope, call.path, false).expr, options, isBlock));
            && r.item == V(if w.isFunction(c) then RunHelper(w, t, env, c, SelfOf(w, tree), [], o, []) else c)
            && (isBlock ==> r.frame.options == o)
  {
    hide Eval, PathEntry, OptionsFor, AmbiguousCallee, PathValue;
    var name := call.path.parts[0];
    var isBlock := program.Some? || inverse.Some?;
    var c := AmbiguousCallee(w, tree, call.path);
    var o := BareOptions(config, tree, name, program, inverse);
    var nonHelper := PathEntry(config, scope, call.path, false).expr;
    LookupEvals(w, t, env, tree, f, call.path, nonHelper);
    var f1 := Eval(w, t, env, f, LookupCode(name, nonHelper)).frame;
    CommaEvals(w, t, env, f, LookupCode(name, nonHelper), if isBlock then Comma(SetOptions(options), InvokeCode(options, true)) else InvokeCode(options, false));
    if isBlock {
      SetOptionsKeepsHelper(w, t, env, f1, config, name, options, program, inverse);
      var f2 := Eval(w, t, env, f1, SetOptions(options)).frame;
      SetOptionsSets(w, t, env, f1, options, o);
      CommaEvals(w, t, env, f1, SetOptions(options), InvokeCode(options, true));
      InvokeEvals(w, t, env, f2, options, true, c, o);
    } else {
      InvokeEvals(w, t, env, f1, options, false, c, o);
    }
  }

  lemma {:induction false} CommaEvals(w: World, t: Template, env: Env, f: Frame, first: JsExpr, second: JsExpr)
    ensures Eval(w, t, env, f, Comma(first, second)) == Eval(w, t, env, Eval(w, t, env, f, first).frame, second)
  {
  }

  lemma {:induction false} SetOptionsSets(w: World, t: Template, env: Env, f: Frame, options: JsExpr, o: Options)
    requires Evals(w, t, env, options, O(o))
    ensures Eval(w, t, env, f, SetOptions(options)).frame.options == o
  {
  }

  lemma {:induction false} LookupEvals(w: World, t: Template, env: Env, tree: Env, f: Frame, path: Path, nonHelper: JsExpr)
    requires |path.parts| > 0
    requires Evals(w, t, env, nonHelper, V(PathValue(w, tree, path, false)))
    ensures Eval(w, t, env, f, LookupCode(path.parts[0], nonHelper)).frame.helper == AmbiguousCallee(w, tree, path)
  {
    hide RunHelper, RunTemplate, RunLines, EvalAll, EvalFields, EvalExtras, PathValue;
    var (name, v) := (path.parts[0], PathValue(w, tree, path, false));
    var or := Or([Helper(name), nonHelper]);
    OrEvals(w, t, env, f, [Helper(name), nonHelper], [w.helper(name), v]);
    var first := Eval(w, t, env, f, SetHelper(or));
    assert first.frame.helper == FirstTruthy([w.helper(name), v]) && first.item == V(first.frame.helper);
    assert Eval(w, t, env, first.frame, HelperVar).item == first.item;
    assert Eval(w, t, env, first.frame, Helper("helperMissing")).item == V(w.helper("helperMissing"));
  }

  lemma {:induction false} InvokeEvals(w: World, t: Template, env: Env, f: Frame, options: JsExpr, isBlock: bool, c: Value, o: Options)
    requires f.helper == c && (if isBlock then f.options == o else Evals(w, t, env, options, O(o)))
    ensures var r := Eval(w, t, env, f, InvokeCode(options, isBlock));
            && r.item == V(if w.isFunction(c) then RunHelper(w, t, env, c, SelfOf(w, env), [], o, []) else c)
            && (isBlock ==> r.frame.options == o)
  {
    var used := if isBlock then OptionsVar else options;
    assert Eval(w, t, env, f, HelperVar) == Result(V(c), f);
    assert EvalAll(w, t, env, f, []) == Results([], f);
    assert Eval(w, t, env, f, used).item == O(o);
    assert isBlock ==> Eval(w, t, env, f, used).frame == f;
  }

  lemma {:induction false} OrEvals(w: World, t: Template, env: Env, f: Frame, es: seq<JsExpr>, vs: seq<Value>)
    requires |es| == |vs| && es != []
    requires forall i :: 0 <= i < |es| ==> Evals(w, t, env, es[i], V(vs[i]))
    ensures EvalOr(w, t, env, f, es).item == V(FirstTruthy(vs))
    ensures Eval(w, t, env, f, Or(es)).item == V(FirstTruthy(vs))
    decreases |es|
  {
    assert Evals(w, t, env, es[0], V(vs[0]));
    if |es| > 1 {
      OrEvals(w, t, env, Eval(w, t, env, f, es[0]).frame, es[1..], vs[1..]);
    }
  }

  /** Building the options of an ambiguous call touches no register but its own. */
  lemma {:induction false} SetOptionsKeepsHelper(w: World, t: Template, env: Env, f: Frame, config: Config, name: string, options: JsExpr,
                                                 program: Option<nat>, inverse: Option<nat>)
    requires options == OptionsFor(config, name, [], NoHash(config), program, inverse)
    ensures Eval(w, t, env, f, SetOptions(options)).frame.helper == f.helper
  {
    hide RunTemplate, RunHelper, RunLines, EvalExtras;
    assert Eval(w, t, env, f, EmptyObject).frame == f;
    NoExtrasKeep(w, t, env, f, config);
    assert options == OptionsOf(name, EmptyObject, ProgramExpr(config, program), ProgramExpr(config, inverse), ExtrasOf([], NoHash(config)));
    ProgramsKeep(w, t, env, f, config, program);
    ProgramsKeep(w, t, env, f, config, inverse);
    hide Eval, EvalExtras;
    OptionsSteps(w, t, env, f, name, EmptyObject, ProgramExpr(config, program), ProgramExpr(config, inverse), ExtrasOf([], NoHash(config)));
    SetOptionsFrame(w, t, env, f, options);
  }

  lemma {:induction false} SetOptionsFrame(w: World, t: Template, env: Env, f: Frame, options: JsExpr)
    ensures Eval(w, t, env, f, SetOptions(options)).frame.helper == Eval(w, t, env, f, options).frame.helper
  {
  }

  lemma {:induction false} NoExtrasKeep(w: World, t: Template, env: Env, f: Frame, config: Config)
    ensures EvalExtras(w, t, env, f, ExtrasOf([], NoHash(config))).frame == f
  {
    assert Eval(w, t, env, f, EmptyObject).frame == f;
    var hash := NoHash(config);
    assert Exprs(hash.ids) == if config.flags.trackIds then [EmptyObject] else [];
    assert Exprs(hash.types) == Exprs(hash.contexts) == if config.flags.stringParams then [EmptyObject] else [];
    assert EvalAll(w, t, env, f, []).frame == f;
  }
}
