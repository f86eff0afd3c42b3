/** The code of every template construct written down directly, without opcodes or
    stacks, and the proof that the opcode machine builds exactly this code. */
module DirectCode {
  import opened Wrappers
  import opened HandlebarsAst
  import opened HandlebarsCompiler
  import opened JsCode
  import opened CodeMachine

  /** What one parameter leaves on the stack. */
  datatype Slots = Slots(contexts: seq<Entry>, types: seq<Entry>, ids: seq<Entry>, value: Entry)

  function Entries(s: Slots): seq<Entry> {
    s.contexts + s.types + s.ids + [s.value]
  }

  function AllEntries(slots: seq<Slots>): seq<Entry> {
    if slots == [] then [] else Entries(slots[0]) + AllEntries(slots[1..])
  }

  function Exprs(entries: seq<Entry>): seq<JsExpr> {
    seq(|entries|, i requires 0 <= i < |entries| => entries[i].expr)
  }

  /** The nested lookups of a path; every level that needs a temporary uses `slot`. */
  function ResolveEntry(entry: Entry, parts: seq<string>, falsy: bool, slot: nat): Entry
    decreases |parts|
  {
    if parts == [] then entry
    else ResolveEntry(Code(WrapEntry(if falsy then Guarded(parts[0]) else NullSafe(parts[0]), entry, slot)), parts[1..], falsy, slot)
  }

  function PathEntry(config: Config, scope: Scope, path: Path, falsy: bool): Entry {
    match PathOpcode(scope, path, falsy, falsy)
    case LookupBlockParam(depth, index, parts) => ResolveEntry(Code(BlockParamVar(depth, index)), path.parts[1..], false, 1)
    case LookupData(depth, parts, _) => ResolveEntry(Lit(DataVar(depth)), parts, true, 1)
    case LookupOnContext(parts, _, _, _) => ResolveEntry(Lit(ContextVar(config, path.depth)), parts, falsy, 1)
    case _ => Lit(ContextVar(config, path.depth))
  }

  function ExprEntry(config: Config, scope: Scope, e: Expr): Entry
    decreases e, 0
  {
    match e
    case PathExpression(path) => PathEntry(config, scope, path, false)
    case LiteralExpression(literal) => Lit(Constant(literal))
    case SubExpression(call) => Code(CallCode(config, scope, call, true, None, None))
  }

  function ParamSlots(config: Config, scope: Scope, e: Expr): Slots
    decreases e, 1
  {
    if config.flags.stringParams then
      var (value, kind) := StringParam(e);
      Slots([Lit(ContextVar(config, ParamDepth(e)))], [Lit(Constant(TextLiteral(kind)))], [],
            if value.Some? then Lit(Constant(value.value)) else ExprEntry(config, scope, e))
    else
      Slots([], [], if config.flags.trackIds then [Lit(IdExpr(ParamId(scope, e)))] else [], ExprEntry(config, scope, e))
  }

  function ParamsSlots(config: Config, scope: Scope, params: seq<Expr>): (slots: seq<Slots>)
    ensures |slots| == |params|
    decreases params, 2
  {
    if params == [] then [] else [ParamSlots(config, scope, params[0])] + ParamsSlots(config, scope, params[1..])
  }

  function PairsSlots(config: Config, scope: Scope, pairs: seq<Pair>): (slots: seq<Slots>)
    ensures |slots| == |pairs|
    decreases pairs, 2
  {
    if pairs == [] then [] else [ParamSlots(config, scope, pairs[0].value)] + PairsSlots(config, scope, pairs[1..])
  }

  function SetTracked(fields: seq<Field>, key: string, entries: seq<Entry>): seq<Field> {
    if entries == [] then fields else AssignedField(fields, key, entries[0].expr)
  }

  /** The registers after the keys have taken their slots, the last key first. */
  function Register(pairs: seq<Pair>, slots: seq<Slots>): HashRegister
    requires |slots| == |pairs|
  {
    if pairs == [] then HashRegister([], [], [], [])
    else
      var r := Register(pairs[1..], slots[1..]);
      var (key, s) := (pairs[0].key, slots[0]);
      HashRegister(AssignedField(r.values, key, s.value.expr), SetTracked(r.types, key, s.types),
                   SetTracked(r.contexts, key, s.contexts), SetTracked(r.ids, key, s.ids))
  }

  function HashSlots(config: Config, scope: Scope, hash: seq<Pair>, omitEmpty: bool): Slots
    decreases hash, 3
  {
    if hash == [] then NoHash(config).(value := Lit(if omitEmpty then Constant(UndefinedLiteral) else EmptyObject))
    else RegisterSlots(config, Register(hash, PairsSlots(config, scope, hash)))
  }

  function RegisterSlots(config: Config, r: HashRegister): Slots {
    Slots(if config.flags.stringParams then [Code(ObjectOf(r.contexts))] else [],
          if config.flags.stringParams then [Code(ObjectOf(r.types))] else [],
          if config.flags.trackIds then [Code(ObjectOf(r.ids))] else [],
          Code(ObjectOf(r.values)))
  }

  function ProgramExpr(config: Config, guid: Option<nat>): JsExpr {
    if guid.Some? then ProgramRef(guid.value, config.useDepths) else NoProgram
  }

  function AllIds(slots: seq<Slots>): seq<JsExpr> {
    if slots == [] then [] else Exprs(slots[0].ids) + AllIds(slots[1..])
  }

  function AllTypes(slots: seq<Slots>): seq<JsExpr> {
    if slots == [] then [] else Exprs(slots[0].types) + AllTypes(slots[1..])
  }

  function AllContexts(slots: seq<Slots>): seq<JsExpr> {
    if slots == [] then [] else Exprs(slots[0].contexts) + AllContexts(slots[1..])
  }

  function AllValues(slots: seq<Slots>): seq<JsExpr> {
    if slots == [] then [] else [slots[0].value.expr] + AllValues(slots[1..])
  }

  function OptionsFor(config: Config, name: string, params: seq<Slots>, hash: Slots, program: Option<nat>, inverse: Option<nat>): JsExpr {
    OptionsOf(name, hash.value.expr, ProgramExpr(config, program), ProgramExpr(config, inverse),
              Extras(Exprs(hash.ids), Exprs(hash.types), Exprs(hash.contexts), AllIds(params), AllTypes(params), AllContexts(params)))
  }

  function NoHash(config: Config): Slots {
    Slots(if config.flags.stringParams then [Code(EmptyObject)] else [],
          if config.flags.stringParams then [Code(EmptyObject)] else [],
          if config.flags.trackIds then [Code(EmptyObject)] else [],
          Lit(EmptyObject))
  }

  function AmbiguousCallCode(config: Config, scope: Scope, call: Call, program: Option<nat>, inverse: Option<nat>): JsExpr
    requires |call.path.parts| > 0
  {
    var name := call.path.parts[0];
    AmbiguousCode(name, PathEntry(config, scope, call.path, false).expr,
                  OptionsFor(config, name, [], NoHash(config), program, inverse), program.Some? || inverse.Some?)
  }

  function HelperCode(config: Config, scope: Scope, call: Call, program: Option<nat>, inverse: Option<nat>): JsExpr
    decreases call, 4
  {
    var params := ParamsSlots(config, scope, call.args.params);
    var hash := HashSlots(config, scope, call.args.hash, false);
    if KnownHelper(scope, call.path) then
      var name := call.path.parts[0];
      Invoke(Helper(name), AllValues(params), OptionsFor(config, name, params, hash, program, inverse))
    else
      var name := call.path.original;
      Invoke(HelperChain(name, SimpleId(call.path), PathEntry(config, scope, call.path, true).expr),
             AllValues(params), OptionsFor(config, name, params, hash, program, inverse))
  }

  function CallCode(config: Config, scope: Scope, call: Call, isSubExpression: bool, program: Option<nat>, inverse: Option<nat>): JsExpr
    decreases call, 5
  {
    match Classify(scope, call, isSubExpression)
    case SimpleKind => Lambda(PathEntry(config, scope, call.path, false).expr)
    case AmbiguousKind => AmbiguousCallCode(config, scope, call, program, inverse)
    case HelperKind => HelperCode(config, scope, call, program, inverse)
  }

  // ----- running the opcodes of an expression

  /** `ops` push `entries` and leave everything a later opcode relies on as it was. */
  predicate Pushes(config: Config, m: Machine, ops: seq<Opcode>, entries: seq<Entry>) {
    var r := Run(config, m, ops);
    r.Some? && Quiet(m, r.value, entries)
  }

  predicate Quiet(m: Machine, m': Machine, entries: seq<Entry>) {
    m' == m.(inlineStack := m.inlineStack + entries, stackVars := m'.stackVars, lastContext := m'.lastContext,
             lastHelper := m'.lastHelper)
  }

  predicate Flat(m: Machine) {
    m.compileStack == [] && m.stackSlot == 0
  }

  predicate Plain(config: Config, scope: Scope) {
    config.flags == scope.flags
  }

  lemma {:induction false} RunAppend(config: Config, m: Machine, a: seq<Opcode>, b: seq<Opcode>)
    ensures Run(config, m, a + b) == (var r := Run(config, m, a); if r.Some? then Run(config, r.value, b) else None)
    decreases |a|
  {
    if a == [] {
      assert a + b == b;
    } else {
      assert (a + b)[1..] == a[1..] + b;
      var r := Step(config, m, a[0]);
      if r.Some? {
        RunAppend(config, r.value, a[1..], b);
      }
    }
  }

  lemma {:induction false} PushesAppend(config: Config, m: Machine, a: seq<Opcode>, x: seq<Entry>, b: seq<Opcode>, y: seq<Entry>)
    requires Pushes(config, m, a, x)
    requires Pushes(config, Run(config, m, a).value, b, y)
    ensures Pushes(config, m, a + b, x + y)
  {
    RunAppend(config, m, a, b);
    assert m.inlineStack + (x + y) == m.inlineStack + x + y;
  }

  lemma {:induction false} RunOne(config: Config, m: Machine, op: Opcode)
    ensures Run(config, m, [op]) == Step(config, m, op)
  {
    var r := Step(config, m, op);
    if r.Some? {
      assert Run(config, r.value, []) == r;
    }
  }

  lemma {:induction false} ResolvesPath(config: Config, m: Machine, base: seq<Entry>, entry: Entry, parts: seq<string>, falsy: bool)
    requires m.inlineStack == base + [entry]
    ensures var r := ResolvePath(m, parts, falsy);
            && r.Some?
            && r.value == m.(inlineStack := base + [ResolveEntry(entry, parts, falsy, m.stackSlot + 1)], stackVars := r.value.stackVars)
            && m.stackVars <= r.value.stackVars <= Max(m.stackVars, m.stackSlot + 1)
    decreases |parts|
  {
    if parts != [] {
      var wrap := if falsy then Guarded(parts[0]) else NullSafe(parts[0]);
      var m' := ReplaceStack(m, wrap).value;
      assert Init(m.inlineStack) == base;
      ResolvesPath(config, m', base, Code(WrapEntry(wrap, entry, m.stackSlot + 1)), parts[1..], falsy);
    }
  }

  lemma {:induction false} LookupPushes(config: Config, m: Machine, depth: nat, entry: Entry, parts: seq<string>, falsy: bool)
    requires m.stackSlot == 0
    ensures var r := ResolvePath(Push(m.(lastContext := depth), entry), parts, falsy);
            r.Some? && Quiet(m, r.value, [ResolveEntry(entry, parts, falsy, 1)])
  {
    ResolvesPath(config, Push(m.(lastContext := depth), entry), m.inlineStack, entry, parts, falsy);
    hide ResolvePath, ResolveEntry;
  }

  lemma {:induction false} PathPushes(config: Config, scope: Scope, m: Machine, path: Path, falsy: bool, strict: bool)
    requires m.stackSlot == 0
    ensures Pushes(config, m, EmitPath(scope, path, falsy, strict), [PathEntry(config, scope, path, falsy)])
  {
    var op := PathOpcode(scope, path, falsy, strict);
    var m1 := m.(lastContext := path.depth);
    assert EmitPath(scope, path, falsy, strict)[1..] == [op];
    RunOne(config, m1, op);
    assert Run(config, m, EmitPath(scope, path, falsy, strict)) == Step(config, m1, op);
    hide Run, BlockParamIndex, ScopedId, ResolvePath, ResolveEntry;
    match op
    case LookupBlockParam(depth, index, parts) => LookupPushes(config, m, path.depth, Code(BlockParamVar(depth, index)), parts[1..], false);
    case LookupData(depth, parts, _) => LookupPushes(config, m, path.depth, Lit(DataVar(depth)), parts, true);
    case LookupOnContext(parts, _, _, _) => LookupPushes(config, m, path.depth, Lit(ContextVar(config, path.depth)), parts, falsy);
    case _ =>
  }

  // ----- popping what was pushed

  predicate Sized(config: Config, s: Slots) {
    && |s.contexts| == |s.types| == (if config.flags.stringParams then 1 else 0)
    && |s.ids| == (if config.flags.trackIds then 1 else 0)
  }

  lemma {:induction false} PopsSlots(config: Config, m: Machine, base: seq<Entry>, s: Slots)
    requires Sized(config, s)
    requires m.inlineStack == base + Entries(s)
    ensures PopTracked(config, m) == Some(Tracked(s.value.expr, Exprs(s.ids), Exprs(s.types), Exprs(s.contexts), m.(inlineStack := base)))
  {
    var below := base + s.contexts + s.types + s.ids;
    assert m.inlineStack == below + [s.value];
    assert Init(m.inlineStack) == below;
    assert |s.ids| == 0 ==> Exprs(s.ids) == [];
    assert |s.types| == 0 ==> Exprs(s.types) == [] && Exprs(s.contexts) == [];
    if config.flags.trackIds && config.flags.stringParams {
      assert below == base + [s.contexts[0]] + [s.types[0]] + [s.ids[0]];
      assert Exprs(s.ids) == [s.ids[0].expr] && Exprs(s.types) == [s.types[0].expr] && Exprs(s.contexts) == [s.contexts[0].expr];
      assert Init(below) == base + [s.contexts[0]] + [s.types[0]];
      assert Init(base + [s.contexts[0]] + [s.types[0]]) == base + [s.contexts[0]];
      assert Init(base + [s.contexts[0]]) == base;
    } else if config.flags.trackIds {
      assert below == base + [s.ids[0]] && Init(below) == base;
      assert Exprs(s.ids) == [s.ids[0].expr];
    } else if config.flags.stringParams {
      assert below == base + [s.contexts[0]] + [s.types[0]];
      assert Exprs(s.types) == [s.types[0].expr] && Exprs(s.contexts) == [s.contexts[0].expr];
      assert Init(below) == base + [s.contexts[0]];
      assert Init(base + [s.contexts[0]]) == base;
    } else {
      assert below == base;
    }
  }

  lemma {:induction false} Snoc(slots: seq<Slots>, s: Slots)
    ensures AllEntries(slots + [s]) == AllEntries(slots) + Entries(s)
    ensures AllValues(slots + [s]) == AllValues(slots) + [s.value.expr]
    ensures AllIds(slots + [s]) == AllIds(slots) + Exprs(s.ids)
    ensures AllTypes(slots + [s]) == AllTypes(slots) + Exprs(s.types)
    ensures AllContexts(slots + [s]) == AllContexts(slots) + Exprs(s.contexts)
  {
    Tail(slots, s);
    if slots != [] {
      Snoc(slots[1..], s);
    }
  }

  lemma {:induction false} Tail<T>(s: seq<T>, x: T)
    ensures s == [] ==> s + [x] == [x] && (s + [x])[1..] == []
    ensures s != [] ==> (s + [x])[0] == s[0] && (s + [x])[1..] == s[1..] + [x]
  {
  }

  lemma {:induction false} PopsParams(config: Config, m: Machine, base: seq<Entry>, slots: seq<Slots>)
    requires forall i :: 0 <= i < |slots| ==> Sized(config, slots[i])
    requires m.inlineStack == base + AllEntries(slots)
    ensures PopParams(config, m, |slots|)
         == Some(Popped(AllValues(slots), AllIds(slots), AllTypes(slots), AllContexts(slots), m.(inlineStack := base)))
    decreases |slots|
  {
    if slots == [] {
      assert m == m.(inlineStack := base);
    } else {
      var init := slots[..|slots| - 1];
      var last := slots[|slots| - 1];
      Splits(slots);
      Snoc(init, last);
      hide AllEntries, AllValues, AllIds, AllTypes, AllContexts, Entries, Exprs;
      PopsSlots(config, m, base + AllEntries(init), last) by {
        assert base + (AllEntries(init) + Entries(last)) == base + AllEntries(init) + Entries(last);
      }
      hide PopTracked, Sized;
      PopsParams(config, m.(inlineStack := base + AllEntries(init)), base, init);
    }
  }

  lemma {:induction false} Splits<T>(s: seq<T>)
    requires s != []
    ensures s == s[..|s| - 1] + [s[|s| - 1]]
  {
  }

  lemma {:induction false} SetsUp(config: Config, m: Machine, base: seq<Entry>, name: string, params: seq<Slots>, hash: Slots,
               program: Option<nat>, inverse: Option<nat>)
    requires forall i :: 0 <= i < |params| ==> Sized(config, params[i])
    requires Sized(config, hash)
    requires m.inlineStack
          == base + AllEntries(params) + [Lit(ProgramExpr(config, program)), Lit(ProgramExpr(config, inverse))] + Entries(hash)
    ensures SetupParams(config, m, name, |params|)
         == Some(Setup(AllValues(params), OptionsFor(config, name, params, hash, program, inverse), m.(inlineStack := base)))
  {

    var below := base + AllEntries(params);
    var p, i := Lit(ProgramExpr(config, program)), Lit(ProgramExpr(config, inverse));
    PopsSlots(config, m, below + [p, i], hash);
    assert Init(below + [p, i]) == below + [p];
    assert Init(below + [p]) == below;
    PopsParams(config, m.(inlineStack := below), base, params);
  }

  // ----- hashes

  /** A slot can be assigned under a key. */
  predicate KeyTakes(key: string, s: Slots) {
    key == "length" ==> LengthOf(s.value.expr).Some? && s.ids == [] && s.types == [] && s.contexts == []
  }

  predicate KeysTake(pairs: seq<Pair>, slots: seq<Slots>)
    requires |slots| == |pairs|
  {
    forall i :: 0 <= i < |pairs| ==> KeyTakes(pairs[i].key, slots[i])
  }

  lemma {:induction false} AssignsKeys(config: Config, m: Machine, base: seq<Entry>, pairs: seq<Pair>, slots: seq<Slots>)
    requires |slots| == |pairs| && KeysTake(pairs, slots)
    requires forall i :: 0 <= i < |slots| ==> Sized(config, slots[i])
    requires m.inlineStack == base + AllEntries(slots)
    requires m.hash == Some(HashRegister([], [], [], []))
    ensures Run(config, m, EmitAssigns(pairs)) == Some(m.(inlineStack := base, hash := Some(Register(pairs, slots))))
    decreases |pairs|
  {
    if pairs == [] {
      assert m.inlineStack == base;
    } else {
      var first := slots[0];
      assert base + AllEntries(slots) == base + Entries(first) + AllEntries(slots[1..]);
      assert KeyTakes(pairs[0].key, first);
      assert KeysTake(pairs[1..], slots[1..]) by {
        forall i | 0 <= i < |pairs[1..]| ensures KeyTakes(pairs[1..][i].key, slots[1..][i]) {
          assert KeyTakes(pairs[i + 1].key, slots[i + 1]);
        }
      }
      AssignsKeys(config, m, base + Entries(first), pairs[1..], slots[1..]);
      var m1 := m.(inlineStack := base + Entries(first), hash := Some(Register(pairs[1..], slots[1..])));
      RunAppend(config, m, EmitAssigns(pairs[1..]), [AssignToHash(pairs[0].key)]);
      RunOne(config, m1, AssignToHash(pairs[0].key));
      PopsSlots(config, m1, base, first);
    }
  }

  // ----- every expression pushes its direct code

  /** Between statements and inside them nothing but block values waits on the compile stack. */
  predicate Ready(config: Config, scope: Scope, m: Machine) {
    Flat(m) && Plain(config, scope) && (m.hash.None? ==> m.hashes == [])
  }

  lemma {:induction false} ExprPushes(config: Config, scope: Scope, m: Machine, e: Expr)
    requires Ready(config, scope, m) && ExprFits(scope, e)
    ensures Pushes(config, m, EmitExpr(scope, e), [ExprEntry(config, scope, e)])
    decreases e, 0
  {
    match e
    case PathExpression(path) => PathPushes(config, scope, m, path, false, false);
    case LiteralExpression(literal) => RunOne(config, m, PushLiteral(literal));
    case SubExpression(call) => CallPushes(config, scope, m, call, true, None, None);
  }

  lemma {:induction false} ParamPushes(config: Config, scope: Scope, m: Machine, e: Expr)
    requires Ready(config, scope, m) && ExprFits(scope, e) && !BothTracked(scope.flags)
    ensures Pushes(config, m, EmitParam(scope, e), Entries(ParamSlots(config, scope, e)))
    ensures Sized(config, ParamSlots(config, scope, e))
    decreases e, 1
  {
    var slots := ParamSlots(config, scope, e);
    if config.flags.stringParams {
      var (value, kind) := StringParam(e);
      var lead := [GetContext(ParamDepth(e)), PushStringParam(value, kind)];
      var m1 := m.(lastContext := ParamDepth(e));
      assert lead[1..] == [PushStringParam(value, kind)];
      RunOne(config, m1, PushStringParam(value, kind));
      if value.Some? {
        assert EmitParam(scope, e) == lead;
        assert Entries(slots) == slots.contexts + slots.types + [slots.value];
      } else {
        assert Pushes(config, m, lead, slots.contexts + slots.types);
        ExprPushes(config, scope, Run(config, m, lead).value, e);
        PushesAppend(config, m, lead, slots.contexts + slots.types, EmitExpr(scope, e), [slots.value]);
        assert Entries(slots) == slots.contexts + slots.types + [slots.value];
      }
    } else if config.flags.trackIds {
      RunOne(config, m, PushId(ParamId(scope, e)));
      assert Pushes(config, m, [PushId(ParamId(scope, e))], slots.ids);
      ExprPushes(config, scope, Run(config, m, [PushId(ParamId(scope, e))]).value, e);
      PushesAppend(config, m, [PushId(ParamId(scope, e))], slots.ids, EmitExpr(scope, e), [slots.value]);
      assert Entries(slots) == slots.ids + [slots.value];
    } else {
      ExprPushes(config, scope, m, e);
      assert EmitParam(scope, e) == EmitExpr(scope, e);
      assert Entries(slots) == [slots.value];
    }
  }

  lemma {:induction false} ParamsPush(config: Config, scope: Scope, m: Machine, params: seq<Expr>)
    requires Ready(config, scope, m) && ParamsFit(scope, params)
    ensures Pushes(config, m, EmitParams(scope, params), AllEntries(ParamsSlots(config, scope, params)))
    ensures forall i :: 0 <= i < |params| ==> Sized(config, ParamsSlots(config, scope, params)[i])
    decreases params, 2
  {
    if params == [] {
      assert m.inlineStack + [] == m.inlineStack;
    } else {
      ParamPushes(config, scope, m, params[0]);
      var m1 := Run(config, m, EmitParam(scope, params[0])).value;
      ParamsPush(config, scope, m1, params[1..]);
      PushesAppend(config, m, EmitParam(scope, params[0]), Entries(ParamSlots(config, scope, params[0])),
                   EmitParams(scope, params[1..]), AllEntries(ParamsSlots(config, scope, params[1..])));
      assert ParamsSlots(config, scope, params)[1..] == ParamsSlots(config, scope, params[1..]);
    }
  }

  predicate ValuesFit(scope: Scope, pairs: seq<Pair>) {
    pairs == [] || (ExprFits(scope, pairs[0].value) && ValuesFit(scope, pairs[1..]))
  }

  lemma {:induction false} PairsPush(config: Config, scope: Scope, m: Machine, pairs: seq<Pair>)
    requires Ready(config, scope, m) && ValuesFit(scope, pairs) && (pairs == [] || !BothTracked(scope.flags))
    ensures Pushes(config, m, EmitPairs(scope, pairs), AllEntries(PairsSlots(config, scope, pairs)))
    ensures forall i :: 0 <= i < |pairs| ==> Sized(config, PairsSlots(config, scope, pairs)[i])
    decreases pairs, 2
  {
    if pairs == [] {
      assert m.inlineStack + [] == m.inlineStack;
    } else {
      var first := pairs[0].value;
      ParamPushes(config, scope, m, first);
      var m1 := Run(config, m, EmitParam(scope, first)).value;
      PairsPush(config, scope, m1, pairs[1..]);
      PushesAppend(config, m, EmitParam(scope, first), Entries(ParamSlots(config, scope, first)),
                   EmitPairs(scope, pairs[1..]), AllEntries(PairsSlots(config, scope, pairs[1..])));
      assert PairsSlots(config, scope, pairs)[1..] == PairsSlots(config, scope, pairs[1..]);
    }
  }

  lemma {:induction false} ResolvedNoLength(entry: Entry, parts: seq<string>, falsy: bool, slot: nat)
    requires !entry.expr.Constant?
    ensures !ResolveEntry(entry, parts, falsy, slot).expr.Constant?
    decreases |parts|
  {
    if parts != [] {
      ResolvedNoLength(Code(WrapEntry(if falsy then Guarded(parts[0]) else NullSafe(parts[0]), entry, slot)), parts[1..], falsy, slot);
    }
  }

  /** Only a literal is coded as a constant. */
  lemma {:induction false} ConstantCode(config: Config, scope: Scope, e: Expr)
    ensures ExprEntry(config, scope, e).expr.Constant? <==> e.LiteralExpression?
  {
    if e.SubExpression? {
      var code := CallCode(config, scope, e.call, true, None, None);
      match Classify(scope, e.call, true)
      case SimpleKind => assert code.Lambda?;
      case HelperKind => assert code == HelperCode(config, scope, e.call, None, None);
      case AmbiguousKind =>
    } else if e.PathExpression? {
      var context := Lit(ContextVar(config, e.path.depth));
      match PathOpcode(scope, e.path, false, false)
      case LookupBlockParam(depth, index, _) => ResolvedNoLength(Code(BlockParamVar(depth, index)), e.path.parts[1..], false, 1);
      case LookupData(depth, parts, _) => ResolvedNoLength(Lit(DataVar(depth)), parts, true, 1);
      case LookupOnContext(parts, _, _, _) => ResolvedNoLength(context, parts, false, 1);
      case _ =>
    }
  }

  /** Exactly the keys that fit can be assigned and printed. */
  lemma {:induction false} KeyFitsExactly(config: Config, scope: Scope, pair: Pair)
    requires Plain(config, scope)
    ensures KeyFits(scope, pair) <==> pair.key != "hasOwnProperty" && KeyTakes(pair.key, ParamSlots(config, scope, pair.value))
  {
    ConstantCode(config, scope, pair.value);
  }

  lemma {:induction false} KeysFit(config: Config, scope: Scope, pairs: seq<Pair>)
    requires Plain(config, scope) && PairsFit(scope, pairs)
    ensures ValuesFit(scope, pairs) && KeysTake(pairs, PairsSlots(config, scope, pairs))
    ensures forall i :: 0 <= i < |pairs| ==> pairs[i].key != "hasOwnProperty"
    ensures pairs != [] ==> !BothTracked(scope.flags)
    decreases |pairs|
  {
    if pairs != [] {
      KeysFit(config, scope, pairs[1..]);
      KeyFitsExactly(config, scope, pairs[0]);
      var slots := PairsSlots(config, scope, pairs);
      assert slots[0] == ParamSlots(config, scope, pairs[0].value) && slots[1..] == PairsSlots(config, scope, pairs[1..]);
      forall i | 0 <= i < |pairs| ensures KeyTakes(pairs[i].key, slots[i]) && pairs[i].key != "hasOwnProperty" {
        if i > 0 {
          assert pairs[i] == pairs[1..][i - 1] && slots[i] == slots[1..][i - 1];
        }
      }
    }
  }

  lemma {:induction false} TruncatePrints(fields: seq<Field>, length: nat)
    requires Printable(fields)
    ensures Printable(Truncate(fields, length))
    decreases |fields|
  {
    if fields != [] {
      TruncatePrints(fields[1..], length);
    }
  }

  lemma {:induction false} SetPrints(fields: seq<Field>, key: string, value: JsExpr)
    requires Printable(fields) && key != "hasOwnProperty"
    ensures Printable(SetField(fields, key, value))
    decreases |fields|
  {
    if fields != [] && fields[0].key != key {
      SetPrints(fields[1..], key, value);
    }
  }

  lemma {:induction false} AssignedPrints(fields: seq<Field>, key: string, value: JsExpr)
    requires Printable(fields) && key != "hasOwnProperty"
    ensures Printable(AssignedField(fields, key, value))
  {
    SetPrints(fields, key, value);
    if key == "length" && LengthOf(value).Some? {
      TruncatePrints(fields, LengthOf(value).value);
    }
  }

  lemma {:induction false} RegisterPrints(config: Config, pairs: seq<Pair>, slots: seq<Slots>)
    requires |slots| == |pairs| && forall i :: 0 <= i < |pairs| ==> pairs[i].key != "hasOwnProperty"
    ensures RegisterPrintable(config, Register(pairs, slots))
    ensures var r := Register(pairs, slots); Printable(r.ids) && Printable(r.contexts) && Printable(r.types)
    decreases |pairs|
  {
    if pairs != [] {
      hide Printable, AssignedField;
      RegisterPrints(config, pairs[1..], slots[1..]);
      var (r, key, s) := (Register(pairs[1..], slots[1..]), pairs[0].key, slots[0]);
      AssignedPrints(r.values, key, s.value.expr);
      if s.types != [] { AssignedPrints(r.types, key, s.types[0].expr); }
      if s.contexts != [] { AssignedPrints(r.contexts, key, s.contexts[0].expr); }
      if s.ids != [] { AssignedPrints(r.ids, key, s.ids[0].expr); }
    } else {
      assert Printable([]);
    }
  }

  /** Closing a hash pushes its registers and brings the enclosing hash back. */
  lemma {:induction false} PopsHash(config: Config, m: Machine, m1: Machine)
    requires m.hash.None? ==> m.hashes == []
    requires m1.hash.Some? && m1.hashes == (if m.hash.Some? then m.hashes + [m.hash.value] else m.hashes)
    requires !BothTracked(config.flags) && RegisterPrintable(config, m1.hash.value)
    ensures PopHashOp(config, m1)
         == Some(m1.(hash := m.hash, hashes := m.hashes, inlineStack := m1.inlineStack + Entries(RegisterSlots(config, m1.hash.value))))
  {
    var r := m1.hash.value;
    if m.hash.Some? {
      assert Init(m1.hashes) == m.hashes;
    }
    if config.flags.stringParams {
      var (x, y, z) := (Code(ObjectOf(r.contexts)), Code(ObjectOf(r.types)), Code(ObjectOf(r.values)));
      assert Entries(RegisterSlots(config, r)) == [x, y, z];
      assert m1.inlineStack + [x] + [y] + [z] == m1.inlineStack + [x, y, z];
    } else if config.flags.trackIds {
      assert Entries(RegisterSlots(config, r)) == [Code(ObjectOf(r.ids)), Code(ObjectOf(r.values))];
      assert m1.inlineStack + [Code(ObjectOf(r.ids))] + [Code(ObjectOf(r.values))] == m1.inlineStack + [Code(ObjectOf(r.ids)), Code(ObjectOf(r.values))];
    } else {
      assert Entries(RegisterSlots(config, r)) == [Code(ObjectOf(r.values))];
    }
  }

  lemma {:induction false} HashPushes(config: Config, scope: Scope, m: Machine, hash: seq<Pair>, omitEmpty: bool)
    requires Ready(config, scope, m) && PairsFit(scope, hash)
    ensures Pushes(config, m, EmitHash(scope, hash, omitEmpty), Entries(HashSlots(config, scope, hash, omitEmpty)))
    ensures Sized(config, HashSlots(config, scope, hash, omitEmpty))
    decreases hash, 3
  {
    if hash == [] {
      RunOne(config, m, EmptyHash(omitEmpty));
    } else {
      FullHashPushes(config, scope, m, hash);
    }
  }

  /** Up to the closing of a hash its pairs have gone into a register of their own. */
  lemma {:induction false} PairsRegistered(config: Config, scope: Scope, m: Machine, hash: seq<Pair>) returns (m3: Machine)
    requires Ready(config, scope, m) && PairsFit(scope, hash) && hash != []
    ensures Run(config, m, [PushHash] + EmitPairs(scope, hash) + EmitAssigns(hash)) == Some(m3)
    ensures Quiet(m, m3.(hash := m.hash, hashes := m.hashes), [])
    ensures m3.hash == Some(Register(hash, PairsSlots(config, scope, hash)))
    ensures m3.hashes == if m.hash.Some? then m.hashes + [m.hash.value] else m.hashes
    decreases hash, 3, 0
  {
    var m1 := m.(hash := Some(HashRegister([], [], [], [])), hashes := if m.hash.Some? then m.hashes + [m.hash.value] else m.hashes);
    RunOne(config, m, PushHash);
    KeysFit(config, scope, hash);
    hide Run, KeysTake, PairsSlots, EmitPairs, EmitAssigns, Entries, Register, Step, PairsFit;
    PairsPush(config, scope, m1, hash);
    var m2 := Run(config, m1, EmitPairs(scope, hash)).value;
    var slots := PairsSlots(config, scope, hash);
    AssignsKeys(config, m2, m.inlineStack, hash, slots);
    m3 := m2.(inlineStack := m.inlineStack, hash := Some(Register(hash, slots)));
    RunAppend(config, m, [PushHash], EmitPairs(scope, hash));
    RunAppend(config, m, [PushHash] + EmitPairs(scope, hash), EmitAssigns(hash));
    assert m.inlineStack + [] == m.inlineStack;
  }

  lemma {:induction false} FullHashPushes(config: Config, scope: Scope, m: Machine, hash: seq<Pair>)
    requires Ready(config, scope, m) && PairsFit(scope, hash) && hash != []
    ensures Pushes(config, m, EmitHash(scope, hash, false), Entries(HashSlots(config, scope, hash, false)))
    ensures Sized(config, HashSlots(config, scope, hash, false))
    decreases hash, 3, 1
  {
    var m3 := PairsRegistered(config, scope, m, hash);
    var slots := PairsSlots(config, scope, hash);
    KeysFit(config, scope, hash);
    RegisterPrints(config, hash, slots);
    assert HashSlots(config, scope, hash, false) == RegisterSlots(config, Register(hash, slots));
    hide Pushes, Run, KeysTake, RegisterPrintable, PairsSlots, EmitPairs, EmitAssigns, Entries, Register, HashSlots, PairsFit;
    ClosesHash(config, m, [PushHash] + EmitPairs(scope, hash) + EmitAssigns(hash), m3, Register(hash, slots));
  }

  lemma {:induction false} ClosesHash(config: Config, m: Machine, ops: seq<Opcode>, m3: Machine, r: HashRegister)
    requires (m.hash.None? ==> m.hashes == []) && !BothTracked(config.flags) && RegisterPrintable(config, r)
    requires Run(config, m, ops) == Some(m3) && Quiet(m, m3.(hash := m.hash, hashes := m.hashes), [])
    requires m3.hash == Some(r) && m3.hashes == if m.hash.Some? then m.hashes + [m.hash.value] else m.hashes
    ensures Pushes(config, m, ops + [PopHash], Entries(RegisterSlots(config, r)))
  {
    RunAppend(config, m, ops, [PopHash]);
    RunOne(config, m3, PopHash);
    PopsHash(config, m, m3);
    assert m.inlineStack + [] == m.inlineStack;
    hide Run, PopHashOp, RegisterPrintable, Entries, RegisterSlots;
  }

  lemma {:induction false} RunFour(config: Config, m: Machine, a: seq<Opcode>, m1: Machine, b: seq<Opcode>, m2: Machine,
                                   c: seq<Opcode>, m3: Machine, d: seq<Opcode>)
    requires Run(config, m, a) == Some(m1) && Run(config, m1, b) == Some(m2) && Run(config, m2, c) == Some(m3)
    ensures Run(config, m, a + b + c + d) == Run(config, m3, d)
  {
    RunAppend(config, m, a, b);
    RunAppend(config, m, a + b, c);
    RunAppend(config, m, a + b + c, d);
  }

  lemma {:induction false} SetupPushes(config: Config, scope: Scope, m: Machine, args: Args,
                                       program: Option<nat>, inverse: Option<nat>, omitEmpty: bool)
    requires Ready(config, scope, m) && ArgsFit(scope, args)
    ensures Pushes(config, m, EmitSetup(scope, args, program, inverse, omitEmpty),
                   AllEntries(ParamsSlots(config, scope, args.params))
                   + [Lit(ProgramExpr(config, program)), Lit(ProgramExpr(config, inverse))]
                   + Entries(HashSlots(config, scope, args.hash, omitEmpty)))
    ensures Sized(config, HashSlots(config, scope, args.hash, omitEmpty))
    ensures forall i :: 0 <= i < |args.params| ==> Sized(config, ParamsSlots(config, scope, args.params)[i])
    decreases args, 4
  {
    var params := AllEntries(ParamsSlots(config, scope, args.params));
    ParamsPush(config, scope, m, args.params);
    var m1 := Run(config, m, EmitParams(scope, args.params)).value;
    ProgramsPush(config, m1, program, inverse);
    PushesAppend(config, m, EmitParams(scope, args.params), params, [PushProgram(program), PushProgram(inverse)],
                 [Lit(ProgramExpr(config, program)), Lit(ProgramExpr(config, inverse))]);
    var lead := EmitParams(scope, args.params) + [PushProgram(program), PushProgram(inverse)];
    var m2 := Run(config, m, lead).value;
    HashPushes(config, scope, m2, args.hash, omitEmpty);
    PushesAppend(config, m, lead, params + [Lit(ProgramExpr(config, program)), Lit(ProgramExpr(config, inverse))],
                 EmitHash(scope, args.hash, omitEmpty), Entries(HashSlots(config, scope, args.hash, omitEmpty)));
  }

  lemma {:induction false} ProgramsPush(config: Config, m: Machine, program: Option<nat>, inverse: Option<nat>)
    ensures Pushes(config, m, [PushProgram(program), PushProgram(inverse)],
                   [Lit(ProgramExpr(config, program)), Lit(ProgramExpr(config, inverse))])
  {
    var ops := [PushProgram(program), PushProgram(inverse)];
    assert ops[1..] == [PushProgram(inverse)];
    RunOne(config, Step(config, m, PushProgram(program)).value, PushProgram(inverse));
  }

  lemma {:induction false} CallPushes(config: Config, scope: Scope, m: Machine, call: Call, isSubExpression: bool,
                                      program: Option<nat>, inverse: Option<nat>)
    requires Ready(config, scope, m) && CallFits(scope, call, isSubExpression)
    ensures Pushes(config, m, EmitCall(scope, call, isSubExpression, program, inverse),
                   [Code(CallCode(config, scope, call, isSubExpression, program, inverse))])
    ensures Classify(scope, call, isSubExpression).AmbiguousKind? ==>
              Run(config, m, EmitCall(scope, call, isSubExpression, program, inverse)).value.lastHelper == Helper(call.path.parts[0])
    decreases call, 5
  {
    match Classify(scope, call, isSubExpression)
    case SimpleKind =>
      PathPushes(config, scope, m, call.path, false, true);
      var m1 := Run(config, m, EmitPath(scope, call.path, false, true)).value;
      RunAppend(config, m, EmitPath(scope, call.path, false, true), [ResolvePossibleLambda]);
      RunOne(config, m1, ResolvePossibleLambda);
      assert Init(m1.inlineStack) == m.inlineStack;
    case HelperKind => HelperPushes(config, scope, m, call, program, inverse);
    case AmbiguousKind => AmbiguousPushes(config, scope, m, call, program, inverse);
  }

  /** The stack of a call once its parameters, programs and hash are in place. */
  function CallStack(config: Config, params: seq<Slots>, hash: Slots, program: Option<nat>, inverse: Option<nat>): seq<Entry> {
    AllEntries(params) + [Lit(ProgramExpr(config, program)), Lit(ProgramExpr(config, inverse))] + Entries(hash)
  }

  lemma {:induction false} HelperPushes(config: Config, scope: Scope, m: Machine, call: Call, program: Option<nat>, inverse: Option<nat>)
    requires Ready(config, scope, m) && ArgsFit(scope, call.args)
    ensures Pushes(config, m, EmitHelper(scope, call, program, inverse), [Code(HelperCode(config, scope, call, program, inverse))])
    decreases call, 4
  {
    hide EmitSetup, ParamsSlots, HashSlots, AllEntries, Step, Run, EmitPath, PathEntry, SetupParams, Entries, Sized;
    var params, hash := ParamsSlots(config, scope, call.args.params), HashSlots(config, scope, call.args.hash, false);
    var setup := EmitSetup(scope, call.args, program, inverse, false);
    SetupPushes(config, scope, m, call.args, program, inverse, false);
    var m1 := Run(config, m, setup).value;
    assert m1.inlineStack == m.inlineStack + CallStack(config, params, hash, program, inverse);
    if KnownHelper(scope, call.path) {
      var op := InvokeKnownHelper(|call.args.params|, call.path.parts[0]);
      InvokesKnown(config, m1, m.inlineStack, call.path.parts[0], params, hash, program, inverse);
      RunAppend(config, m, setup, [op]);
      RunOne(config, m1, op);
    } else {
      var op := InvokeHelper(|call.args.params|, call.path.original, SimpleId(call.path));
      var path := EmitPath(scope, call.path, true, true);
      PathPushes(config, scope, m1, call.path, true, true);
      var m2 := Run(config, m1, path).value;
      InvokesHelper(config, m2, m.inlineStack, call.path.original, SimpleId(call.path), params, hash, program, inverse,
                    PathEntry(config, scope, call.path, true));
      RunAppend(config, m, setup, path);
      RunAppend(config, m, setup + path, [op]);
      RunOne(config, m2, op);
      assert setup + (path + [op]) == setup + path + [op];
    }
  }

  lemma {:induction false} InvokesKnown(config: Config, m: Machine, base: seq<Entry>, name: string, params: seq<Slots>, hash: Slots,
                     program: Option<nat>, inverse: Option<nat>)
    requires forall i :: 0 <= i < |params| ==> Sized(config, params[i])
    requires Sized(config, hash)
    requires m.inlineStack == base + CallStack(config, params, hash, program, inverse)
    ensures Step(config, m, InvokeKnownHelper(|params|, name))
         == Some(PushCode(m.(inlineStack := base),
                          Invoke(Helper(name), AllValues(params), OptionsFor(config, name, params, hash, program, inverse))))
  {
    hide SetupParams, AllEntries, AllValues, OptionsFor, Entries;
    assert m.inlineStack == base + AllEntries(params) + [Lit(ProgramExpr(config, program)), Lit(ProgramExpr(config, inverse))] + Entries(hash);
    SetsUp(config, m, base, name, params, hash, program, inverse);
  }

  lemma {:induction false} InvokesHelper(config: Config, m: Machine, base: seq<Entry>, name: string, simple: bool, params: seq<Slots>, hash: Slots,
                      program: Option<nat>, inverse: Option<nat>, nonHelper: Entry)
    requires forall i :: 0 <= i < |params| ==> Sized(config, params[i])
    requires Sized(config, hash)
    requires m.inlineStack == base + CallStack(config, params, hash, program, inverse) + [nonHelper]
    ensures Step(config, m, InvokeHelper(|params|, name, simple))
         == Some(PushCode(m.(inlineStack := base),
                          Invoke(HelperChain(name, simple, nonHelper.expr), AllValues(params),
                                 OptionsFor(config, name, params, hash, program, inverse))))
  {
    hide SetupParams, AllEntries, AllValues, OptionsFor, Entries, HelperChain;
    var below := base + CallStack(config, params, hash, program, inverse);
    assert Init(m.inlineStack) == below;
    assert below == base + AllEntries(params) + [Lit(ProgramExpr(config, program)), Lit(ProgramExpr(config, inverse))] + Entries(hash);
    SetsUp(config, m.(inlineStack := below), base, name, params, hash, program, inverse);
  }

  lemma {:induction false} InvokesAmbiguous(config: Config, m: Machine, base: seq<Entry>, name: string, isBlock: bool,
                         program: Option<nat>, inverse: Option<nat>, nonHelper: Entry)
    requires m.inlineStack == base + [Lit(ProgramExpr(config, program)), Lit(ProgramExpr(config, inverse))] + [nonHelper]
    ensures Step(config, m, InvokeAmbiguous(name, isBlock))
         == Some(PushCode(m.(inlineStack := base, lastHelper := Helper(name)),
                          AmbiguousCode(name, nonHelper.expr, OptionsFor(config, name, [], NoHash(config), program, inverse), isBlock)))
  {
    hide SetupParams, OptionsFor, AmbiguousCode;
    var below := base + [Lit(ProgramExpr(config, program)), Lit(ProgramExpr(config, inverse))];
    assert Init(m.inlineStack) == below;
    EmptyHashPushes(config, m.(inlineStack := below), false);
    var m1 := EmptyHashOp(config, m.(inlineStack := below), false);
    assert m1.inlineStack == base + AllEntries([])
                             + [Lit(ProgramExpr(config, program)), Lit(ProgramExpr(config, inverse))] + Entries(NoHash(config));
    SetsUp(config, m1, base, name, [], NoHash(config), program, inverse);
  }

  lemma {:induction false} EmptyHashPushes(config: Config, m: Machine, omitEmpty: bool)
    ensures EmptyHashOp(config, m, omitEmpty)
         == m.(inlineStack := m.inlineStack + Entries(HashSlots(config, Scope(config.flags, []), [], omitEmpty)))
    ensures HashSlots(config, Scope(config.flags, []), [], false) == NoHash(config)
  {
  }

  lemma {:induction false} AmbiguousPushes(config: Config, scope: Scope, m: Machine, call: Call, program: Option<nat>, inverse: Option<nat>)
    requires Ready(config, scope, m) && |call.path.parts| > 0
    ensures var ops := [GetContext(call.path.depth), PushProgram(program), PushProgram(inverse)]
                       + EmitPath(scope, call.path, false, true) + [InvokeAmbiguous(call.path.parts[0], program.Some? || inverse.Some?)];
            && Pushes(config, m, ops, [Code(AmbiguousCallCode(config, scope, call, program, inverse))])
            && Run(config, m, ops).value.lastHelper == Helper(call.path.parts[0])
  {
    hide PathEntry, EmitPath, OptionsFor, AmbiguousCode;
    var name := call.path.parts[0];
    var op := InvokeAmbiguous(name, program.Some? || inverse.Some?);
    var programs := [PushProgram(program), PushProgram(inverse)];
    var path := EmitPath(scope, call.path, false, true);
    var m0 := m.(lastContext := call.path.depth);
    RunOne(config, m, GetContext(call.path.depth));
    ProgramsPush(config, m0, program, inverse);
    var m1 := Run(config, m0, programs).value;
    PathPushes(config, scope, m1, call.path, false, true);
    var m2 := Run(config, m1, path).value;
    InvokesAmbiguous(config, m2, m.inlineStack, name, program.Some? || inverse.Some?, program, inverse,
                     PathEntry(config, scope, call.path, false));
    RunOne(config, m2, op);
    RunFour(config, m, [GetContext(call.path.depth)], m0, programs, m1, path, m2, [op]);
    assert [GetContext(call.path.depth)] + programs == [GetContext(call.path.depth), PushProgram(program), PushProgram(inverse)];
  }
}
