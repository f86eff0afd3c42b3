/** `mergeSource`: the appended lines of a program are joined into sums, and the body
    returns what appending every fragment in source order would give. */
module BufferMerging {
  import opened Wrappers
  import opened HandlebarsAst
  import opened JsCode
  import opened JsValues
  import opened TemplateSemantics
  import opened Execution

  // ----- what the marks come to

  /** The end of the run of appended lines that `i` is in. */
  function RunEnd(lines: seq<Line>, i: nat): (end: nat)
    requires i <= |lines|
    ensures i <= end <= |lines|
    ensures forall k :: i <= k < end ==> lines[k].Appended?
    ensures end < |lines| ==> !lines[end].Appended?
    decreases |lines| - i
  {
    if i < |lines| && lines[i].Appended? then RunEnd(lines, i + 1) else i
  }

  /** Whether `i` is the first line of a run. */
  predicate RunStart(lines: seq<Line>, i: nat)
    requires i < |lines|
  {
    lines[i].Appended? && (i == 0 || !lines[i - 1].Appended?)
  }

  predicate AppendOnly(lines: seq<Line>, isSimple: bool) {
    isSimple || forall i :: 0 <= i < |lines| ==> lines[i].Appended?
  }

  function MarkOf(lines: seq<Line>, i: nat, appendOnly: bool): SourceLine
    requires i < |lines|
  {
    if !lines[i].Appended? then SourceLine(lines[i], NoPrefix, false)
    else
      SourceLine(lines[i],
                 if !RunStart(lines, i) then Plus
                 else if RunEnd(lines, i) == |lines| then (if appendOnly then ReturnSum else ReturnBufferPlus)
                 else if i == 0 then NoPrefix
                 else BufferPlus,
                 i + 1 == |lines| || !lines[i + 1].Appended?)
  }

  function Marks(lines: seq<Line>, appendOnly: bool): seq<SourceLine> {
    seq(|lines|, i requires 0 <= i < |lines| => MarkOf(lines, i, appendOnly))
  }

  predicate EndsAppended(lines: seq<Line>) {
    lines != [] && lines[|lines| - 1].Appended?
  }

  function Closing(lines: seq<Line>, isSimple: bool): seq<SourceLine> {
    if EndsAppended(lines) then []
    else if !AppendOnly(lines, isSimple) then [SourceLine(ReturnBuffer, NoPrefix, false)]
    else if lines == [] then [SourceLine(Return(Constant(TextLiteral(""))), NoPrefix, false)]
    else []
  }

  function Merge(lines: seq<Line>, isSimple: bool): Body {
    Body(if AppendOnly(lines, isSimple) then NoBuffer else if lines[0].Appended? then BufferFromFirst else EmptyBuffer,
         Marks(lines, AppendOnly(lines, isSimple)) + Closing(lines, isSimple))
  }

  // ----- the pass over the source list

  function Unmarked(lines: seq<Line>): seq<SourceLine> {
    seq(|lines|, i requires 0 <= i < |lines| => SourceLine(lines[i], NoPrefix, false))
  }

  /** The list of source lines that code generation fills and `mergeSource` marks. */
  class CodeGen {
    var source: seq<SourceLine>

    constructor ()
      ensures source == []
    {
      source := [];
    }

    method Push(line: Line)
      modifies this
      ensures source == old(source) + [SourceLine(line, NoPrefix, false)]
    {
      source := source + [SourceLine(line, NoPrefix, false)];
    }

    method Prepend(i: nat, prefix: Prefix)
      requires i < |source|
      modifies this
      ensures source == old(source)[i := old(source)[i].(prefix := prefix)]
    {
      source := source[i := source[i].(prefix := prefix)];
    }

    method AddSemicolon(i: nat)
      requires i < |source|
      modifies this
      ensures source == old(source)[i := old(source)[i].(semicolon := true)]
    {
      source := source[i := source[i].(semicolon := true)];
    }

    ghost predicate Scanned(lines: seq<Line>, i: nat, isSimple: bool, scan: Scan)
      reads this
    {
      ScannedTo(source, lines, i, isSimple, scan)
    }

    /** The visit of one line. */
    method Visit(ghost lines: seq<Line>, i: nat, isSimple: bool, scan: Scan) returns (next: Scan)
      requires i < |lines| && Scanned(lines, i, isSimple, scan)
      requires isSimple ==> forall k :: 0 <= k < |lines| ==> !lines[k].Appended?
      modifies this
      ensures Scanned(lines, i + 1, isSimple, next)
    {
      Bounds(source, lines, i, isSimple, scan);
      hide ScannedTo, RunEnd, RunStart, MarkOf;
      next := scan;
      if source[i].line.Appended? {
        AppendedNext(source, lines, i, isSimple, scan);
        if scan.bufferStart.Some? {
          Prepend(i, Plus);
        } else {
          next := next.(bufferStart := Some(i));
        }
        next := next.(bufferEnd := Some(i));
      } else {
        StatementNext(source, lines, i, isSimple, scan);
        if scan.bufferStart.Some? {
          if !scan.sourceSeen {
            next := next.(appendFirst := true);
          } else {
            Prepend(scan.bufferStart.value, BufferPlus);
          }
          AddSemicolon(scan.bufferEnd.value);
          next := next.(bufferStart := None, bufferEnd := None);
        }
        next := next.(sourceSeen := true);
        if !isSimple {
          next := next.(appendOnly := false);
        }
      }
    }

    method MergeSource(ghost lines: seq<Line>, isSimple: bool) returns (bufferVar: BufferVar)
      requires source == Unmarked(lines)
      requires isSimple ==> forall i :: 0 <= i < |lines| ==> !lines[i].Appended?
      modifies this
      ensures Body(bufferVar, source) == Merge(lines, isSimple)
    {
      hide RunEnd, RunStart, MarkOf, Marks, AppendOnly, EndsAppended, ScannedTo, Unmarked;
      var scan := Scan(true, false, false, None, None);
      ScanStarts(lines, isSimple);
      assert |source| == |lines| by { UnmarkedLength(lines); }
      var i, n := 0, |source|;
      while i < n
        invariant i <= n == |lines| && Scanned(lines, i, isSimple, scan)
      {
        scan := Visit(lines, i, isSimple, scan);
        i := i + 1;
      }
      ScanEnds(source, lines, isSimple, scan);
      if scan.appendOnly {
        bufferVar := NoBuffer;
        if scan.bufferStart.Some? {
          CloseRun(lines, isSimple, scan, ReturnSum);
        } else if !scan.sourceSeen {
          Push(Return(Constant(TextLiteral(""))));
        }
      } else {
        bufferVar := if scan.appendFirst then BufferFromFirst else EmptyBuffer;
        if scan.bufferStart.Some? {
          CloseRun(lines, isSimple, scan, ReturnBufferPlus);
        } else {
          Push(ReturnBuffer);
        }
      }
    }

    /** The run that reaches the end of the function is returned. */
    method CloseRun(ghost lines: seq<Line>, isSimple: bool, scan: Scan, prefix: Prefix)
      requires Scanned(lines, |lines|, isSimple, scan) && scan.bufferStart.Some?
      requires prefix == if scan.appendOnly then ReturnSum else ReturnBufferPlus
      modifies this
      ensures source == Marks(lines, scan.appendOnly) && EndsAppended(lines)
    {
      RunsUpTo(lines, scan.bufferStart.value, |lines|);
      MarksUpTo(lines, scan.bufferStart.value, scan.appendOnly);
      Prepend(scan.bufferStart.value, prefix);
      AddSemicolon(scan.bufferEnd.value);
    }
  }

  /** The variables of the scan. */
  datatype Scan = Scan(appendOnly: bool, appendFirst: bool, sourceSeen: bool, bufferStart: Option<nat>, bufferEnd: Option<nat>)

  /** What the scan knows before line `i`; the open run, if any, starts at `scan.bufferStart`. */
  ghost predicate ScannedTo(source: seq<SourceLine>, lines: seq<Line>, i: nat, isSimple: bool, scan: Scan) {
    && i <= |lines| == |source|
    && (forall k :: 0 <= k < |lines| ==> source[k].line == lines[k])
    && (forall k :: i <= k < |lines| ==> source[k] == SourceLine(lines[k], NoPrefix, false))
    && (scan.sourceSeen <==> exists k :: 0 <= k < i && !lines[k].Appended?)
    && scan.appendOnly == (isSimple || !scan.sourceSeen)
    && scan.appendFirst == (scan.sourceSeen && lines[0].Appended?)
    && (if scan.bufferStart.None? then
          && scan.bufferEnd.None?
          && (i > 0 ==> !lines[i - 1].Appended?)
          && forall k :: 0 <= k < i ==> source[k] == MarkOf(lines, k, false)
        else
          var start := scan.bufferStart.value;
          && start < i && RunStart(lines, start) && scan.bufferEnd == Some(i - 1)
          && (forall k :: start <= k < i ==> lines[k].Appended?)
          && (forall k :: 0 <= k < start ==> source[k] == MarkOf(lines, k, false))
          && (forall k :: start <= k < i ==>
                source[k] == SourceLine(lines[k], if k == start then NoPrefix else Plus, false)))
  }

  lemma {:induction false} UnmarkedLength(lines: seq<Line>)
    ensures |Unmarked(lines)| == |lines|
  {
  }

  lemma {:induction false} ScanStarts(lines: seq<Line>, isSimple: bool)
    ensures ScannedTo(Unmarked(lines), lines, 0, isSimple, Scan(true, false, false, None, None))
  {
  }

  /** The lines a step of the scan touches. */
  lemma {:induction false} Bounds(source: seq<SourceLine>, lines: seq<Line>, i: nat, isSimple: bool, scan: Scan)
    requires i < |lines| && ScannedTo(source, lines, i, isSimple, scan)
    ensures |source| == |lines| && source[i].line == lines[i]
    ensures scan.bufferStart.Some? ==> scan.bufferEnd.Some? && scan.bufferStart.value <= scan.bufferEnd.value < |source|
  {
  }

  lemma {:induction false} AppendedNext(source: seq<SourceLine>, lines: seq<Line>, i: nat, isSimple: bool, scan: Scan)
    requires i < |lines| && ScannedTo(source, lines, i, isSimple, scan) && lines[i].Appended?
    requires isSimple ==> forall k :: 0 <= k < |lines| ==> !lines[k].Appended?
    ensures scan.bufferStart.None? ==>
              ScannedTo(source, lines, i + 1, isSimple, scan.(bufferStart := Some(i), bufferEnd := Some(i)))
    ensures scan.bufferStart.Some? ==>
              ScannedTo(source[i := source[i].(prefix := Plus)], lines, i + 1, isSimple, scan.(bufferEnd := Some(i)))
  {
    assert lines[i].Appended?;
  }

  /** The scan variables after a line that appends nothing. */
  function Seen(scan: Scan, isSimple: bool): Scan {
    Scan(scan.appendOnly && isSimple, scan.appendFirst || (scan.bufferStart.Some? && !scan.sourceSeen), true, None, None)
  }

  lemma {:induction false} StatementNext(source: seq<SourceLine>, lines: seq<Line>, i: nat, isSimple: bool, scan: Scan)
    requires i < |lines| && ScannedTo(source, lines, i, isSimple, scan) && !lines[i].Appended?
    requires isSimple ==> forall k :: 0 <= k < |lines| ==> !lines[k].Appended?
    ensures scan.bufferStart.None? ==> ScannedTo(source, lines, i + 1, isSimple, Seen(scan, isSimple))
    ensures scan.bufferStart.Some? ==> scan.bufferEnd.Some? && scan.bufferStart.value <= scan.bufferEnd.value < |source|
    ensures scan.bufferStart.Some? ==>
              var start, end := scan.bufferStart.value, scan.bufferEnd.value;
              var begun := if scan.sourceSeen then source[start := source[start].(prefix := BufferPlus)] else source;
              ScannedTo(begun[end := begun[end].(semicolon := true)], lines, i + 1, isSimple, Seen(scan, isSimple))
  {
    if scan.bufferStart.Some? {
      RunsUpTo(lines, scan.bufferStart.value, i);
      if !scan.sourceSeen {
        StartsAtZero(lines, scan.bufferStart.value, i);
      }
    }
  }

  /** What the scan has found out when no line is left. */
  lemma {:induction false} ScanEnds(source: seq<SourceLine>, lines: seq<Line>, isSimple: bool, scan: Scan)
    requires ScannedTo(source, lines, |lines|, isSimple, scan)
    requires isSimple ==> forall k :: 0 <= k < |lines| ==> !lines[k].Appended?
    ensures scan.appendOnly == AppendOnly(lines, isSimple)
    ensures !scan.appendOnly ==> lines != [] && scan.appendFirst == lines[0].Appended?
    ensures scan.bufferStart.Some? == EndsAppended(lines)
    ensures scan.bufferStart.None? ==> source == Marks(lines, scan.appendOnly)
    ensures scan.appendOnly && scan.bufferStart.None? ==> scan.sourceSeen == (lines != [])
  {
    if scan.bufferStart.None? {
      MarksUpTo(lines, |lines|, scan.appendOnly);
    }
  }

  lemma {:induction false} StartsAtZero(lines: seq<Line>, start: nat, i: nat)
    requires start < i <= |lines| && RunStart(lines, start)
    requires forall k :: 0 <= k < i ==> lines[k].Appended?
    ensures start == 0
  {
    assert !(start > 0);
  }

  lemma {:induction false} RunsUpTo(lines: seq<Line>, i: nat, end: nat)
    requires i < end <= |lines| && RunStart(lines, i)
    requires forall k :: i <= k < end ==> lines[k].Appended?
    requires end < |lines| ==> !lines[end].Appended?
    ensures forall k :: i <= k < end ==> RunEnd(lines, k) == end
    ensures forall k :: i < k < end ==> !RunStart(lines, k)
  {
    forall k | i <= k < end ensures RunEnd(lines, k) == end {
      assert !(RunEnd(lines, k) < end);
    }
  }

  /** Before the last run the marks do not depend on how the function ends. */
  lemma {:induction false} MarksUpTo(lines: seq<Line>, end: nat, appendOnly: bool)
    requires end <= |lines|
    requires end > 0 ==> !lines[end - 1].Appended?
    ensures forall k :: 0 <= k < end ==> MarkOf(lines, k, appendOnly) == MarkOf(lines, k, false)
  {
    forall k | 0 <= k < end && lines[k].Appended? ensures RunEnd(lines, k) < |lines| {
      assert !(RunEnd(lines, k) == |lines|);
    }
  }

  // ----- appending in source order

  /** What a program has written so far, and whether every appended fragment was a string. */
  datatype Written = Written(frame: Frame, text: string, clean: bool)

  /** The lines run one by one, each fragment appended where its line stands. */
  function RunInOrder(w: World, t: Template, env: Env, f: Frame, text: string, lines: seq<Line>): Written
    decreases |lines|
  {
    if lines == [] then Written(f, text, true)
    else if lines[0].Appended? then
      var r := Eval(w, t, env, f, lines[0].value);
      var v := AsValue(r.item);
      var rest := RunInOrder(w, t, env, r.frame, text + TextOf(w, v), lines[1..]);
      Written(rest.frame, rest.text, v.Str? && rest.clean)
    else
      var flow := RunStatement(w, t, env, f, Str(text), lines[0]);
      if flow.Running? && flow.buffer.Str? then RunInOrder(w, t, env, flow.frame, flow.buffer.text, lines[1..])
      else Written(f, text, false)
  }

  /** The lines a program of several statements consists of. */
  predicate Buffered(line: Line) {
    line.Appended? || line.Assign? || line.AppendIf? || (line.UnlessHelper? && line.target.Temp?)
  }

  function Fragments(lines: seq<Line>): seq<JsExpr> {
    seq(|lines|, i requires 0 <= i < |lines| => if lines[i].Appended? then lines[i].value else NoProgram)
  }

  function Concat(vs: seq<Value>): string {
    if vs == [] then "" else (if vs[0].Str? then vs[0].text else "") + Concat(vs[1..])
  }

  predicate AllStrings(vs: seq<Value>) {
    forall i :: 0 <= i < |vs| ==> vs[i].Str?
  }

  lemma {:induction false} SumOfStrings(w: World, first: string, rest: seq<Value>)
    requires AllStrings(rest)
    ensures SumOf(w, Str(first), rest) == Str(first + Concat(rest))
    decreases |rest|
  {
    if rest == [] {
      assert first + "" == first;
    } else {
      SumOfStrings(w, first + rest[0].text, rest[1..]);
      assert first + rest[0].text + Concat(rest[1..]) == first + (rest[0].text + Concat(rest[1..]));
    }
  }

  /** A run of appended lines, evaluated as one sum or line by line. */
  lemma {:induction false} RunOfAppends(w: World, t: Template, env: Env, f: Frame, text: string, run: seq<Line>, tail: seq<Line>)
    requires forall i :: 0 <= i < |run| ==> run[i].Appended?
    ensures var r := EvalAll(w, t, env, f, Fragments(run));
            var whole := RunInOrder(w, t, env, f, text, run + tail);
            whole.clean ==> AllStrings(r.values) && whole == RunInOrder(w, t, env, r.frame, text + Concat(r.values), tail)
    decreases |run|
  {
    if run == [] {
      assert run + tail == tail && text + "" == text && Fragments(run) == [];
    } else {
      var e := run[0].value;
      var r0 := Eval(w, t, env, f, e);
      var v := AsValue(r0.item);
      assert (run + tail)[1..] == run[1..] + tail && (run + tail)[0] == run[0];
      assert Fragments(run)[1..] == Fragments(run[1..]);
      RunOfAppends(w, t, env, r0.frame, text + TextOf(w, v), run[1..], tail);
      var r := EvalAll(w, t, env, f, Fragments(run));
      assert r.values[1..] == EvalAll(w, t, env, r0.frame, Fragments(run[1..])).values;
      if RunInOrder(w, t, env, f, text, run + tail).clean {
        assert text + (v.text + Concat(r.values[1..])) == text + v.text + Concat(r.values[1..]);
      }
    }
  }

  lemma {:induction false} MarkedRun(lines: seq<Line>, i: nat, appendOnly: bool, extra: seq<SourceLine>)
    requires i < |lines| && lines[i].Appended?
    ensures var rest := Marks(lines, appendOnly)[i..] + extra;
            SumLength(rest) == Some(RunEnd(lines, i) - i)
    decreases |lines| - i
  {
    var rest := Marks(lines, appendOnly)[i..] + extra;
    if i + 1 < |lines| && lines[i + 1].Appended? {
      assert rest[1..] == Marks(lines, appendOnly)[i + 1..] + extra;
      assert rest[1] == MarkOf(lines, i + 1, appendOnly);
      MarkedRun(lines, i + 1, appendOnly, extra);
    }
  }

  /** Where a run or a statement begins. */
  predicate Boundary(lines: seq<Line>, i: nat)
    requires i <= |lines|
  {
    i == 0 || i == |lines| || !lines[i].Appended? || !lines[i - 1].Appended?
  }

  /** From every boundary on, the marked body returns what in-order appending writes. */
  lemma {:induction false} MergedFrom(w: World, t: Template, env: Env, f: Frame, text: string, lines: seq<Line>, i: nat)
    requires i <= |lines| && Boundary(lines, i)
    requires forall k :: 0 <= k < |lines| ==> Buffered(lines[k])
    requires i == 0 ==> text == ""
    requires i == |lines| ==> !EndsAppended(lines)
    requires i > 0 && AppendOnly(lines, false) ==> i == |lines|
    ensures var whole := RunInOrder(w, t, env, f, text, lines[i..]);
            var opening := i == 0 && Merge(lines, false).bufferVar.BufferFromFirst?;
            var buffer := if opening || AppendOnly(lines, false) then Undefined else Str(text);
            whole.clean ==> RunLines(w, t, env, f, buffer, Merge(lines, false).lines[i..], opening) == Returned(Str(whole.text))
    decreases |lines| - i
  {
    if i == |lines| {
      ClosedBody(w, t, env, f, text, lines);
    } else if lines[i].Appended? {
      MergedRun(w, t, env, f, text, lines, i);
    } else {
      MergedStatement(w, t, env, f, text, lines, i);
    }
  }

  lemma {:induction false} ClosedBody(w: World, t: Template, env: Env, f: Frame, text: string, lines: seq<Line>)
    requires !EndsAppended(lines) && (lines == [] ==> text == "")
    ensures var buffer := if AppendOnly(lines, false) then Undefined else Str(text);
            RunLines(w, t, env, f, buffer, Merge(lines, false).lines[|lines|..], false) == Returned(Str(text))
  {
    assert Merge(lines, false).lines[|lines|..] == Closing(lines, false);
    if AppendOnly(lines, false) {
      assert lines == [] && text == "";
      assert Eval(w, t, env, f, Constant(TextLiteral(""))).item == V(Str(""));
      assert RunStatement(w, t, env, f, Undefined, Return(Constant(TextLiteral("")))) == Returned(Str(""));
    }
  }

  lemma {:induction false} MergedStatement(w: World, t: Template, env: Env, f: Frame, text: string, lines: seq<Line>, i: nat)
    requires i < |lines| && !lines[i].Appended?
    requires forall k :: 0 <= k < |lines| ==> Buffered(lines[k])
    requires i == 0 ==> text == ""
    ensures var whole := RunInOrder(w, t, env, f, text, lines[i..]);
            whole.clean ==> RunLines(w, t, env, f, Str(text), Merge(lines, false).lines[i..], false) == Returned(Str(whole.text))
    ensures !AppendOnly(lines, false) && (i == 0 ==> !Merge(lines, false).bufferVar.BufferFromFirst?)
    decreases |lines| - i, 0
  {
    var rest := Merge(lines, false).lines[i..];
    assert rest[0] == MarkOf(lines, i, false) && rest[1..] == Merge(lines, false).lines[i + 1..];
    assert lines[i..][0] == lines[i] && lines[i..][1..] == lines[i + 1..];
    var flow := RunStatement(w, t, env, f, Str(text), lines[i]);
    if flow.Running? && flow.buffer.Str? {
      MergedFrom(w, t, env, flow.frame, flow.buffer.text, lines, i + 1);
    }
  }

  lemma {:induction false} MergedRun(w: World, t: Template, env: Env, f: Frame, text: string, lines: seq<Line>, i: nat)
    requires i < |lines| && RunStart(lines, i)
    requires forall k :: 0 <= k < |lines| ==> Buffered(lines[k])
    requires i == 0 ==> text == ""
    requires i > 0 ==> !AppendOnly(lines, false)
    ensures var whole := RunInOrder(w, t, env, f, text, lines[i..]);
            var opening := i == 0 && Merge(lines, false).bufferVar.BufferFromFirst?;
            var buffer := if opening || AppendOnly(lines, false) then Undefined else Str(text);
            whole.clean ==> RunLines(w, t, env, f, buffer, Merge(lines, false).lines[i..], opening) == Returned(Str(whole.text))
    decreases |lines| - i, 0
  {
    hide RunLines, EvalAll, RunInOrder, SumOf, Concat, SumLength, RunTemplate, SumExprs, Buffered;
    var appendOnly := AppendOnly(lines, false);
    var j := RunEnd(lines, i);
    var marked := Merge(lines, false).lines;
    var rest := marked[i..];
    var run := lines[i..j];
    MarkedRun(lines, i, appendOnly, Closing(lines, false));
    assert rest == Marks(lines, appendOnly)[i..] + Closing(lines, false);
    assert rest[0] == MarkOf(lines, i, appendOnly);
    RunExprs(lines, i, appendOnly);
    assert rest[..j - i] == Marks(lines, appendOnly)[i..j];
    var r := EvalAll(w, t, env, f, Fragments(run));
    assert lines[i..] == run + lines[j..];
    RunOfAppends(w, t, env, f, text, run, lines[j..]);
    assert rest[j - i..] == marked[j..];
    var whole := RunInOrder(w, t, env, f, text, lines[i..]);
    if whole.clean {
      SumTexts(w, text, r.values);
      assert i == 0 ==> text + Concat(r.values) == Concat(r.values);
      var opening := i == 0 && Merge(lines, false).bufferVar.BufferFromFirst?;
      var buffer := if opening || appendOnly then Undefined else Str(text);
      RunStep(w, t, env, f, buffer, rest, j - i, opening);
      if j == |lines| {
        AllToTheEnd(lines, i);
        assert lines[j..] == [];
        NothingLeft(w, t, env, r.frame, text + Concat(r.values));
      } else {
        MergedFrom(w, t, env, r.frame, text + Concat(r.values), lines, j);
      }
    }
  }

  lemma {:induction false} NothingLeft(w: World, t: Template, env: Env, f: Frame, text: string)
    ensures RunInOrder(w, t, env, f, text, []) == Written(f, text, true)
  {
  }

  lemma {:induction false} SumTexts(w: World, text: string, values: seq<Value>)
    requires values != [] && AllStrings(values)
    ensures SumOf(w, values[0], values[1..]) == Str(Concat(values))
    ensures SumOf(w, Str(text), values) == Str(text + Concat(values))
  {
    SumOfStrings(w, values[0].text, values[1..]);
    SumOfStrings(w, text, values);
  }

  lemma {:induction false} RunExprs(lines: seq<Line>, i: nat, appendOnly: bool)
    requires i < |lines|
    ensures SumExprs(Marks(lines, appendOnly)[i..RunEnd(lines, i)]) == Fragments(lines[i..RunEnd(lines, i)])
  {
  }

  lemma {:induction false} AllToTheEnd(lines: seq<Line>, i: nat)
    requires i < |lines| && RunStart(lines, i) && RunEnd(lines, i) == |lines|
    ensures i == 0 ==> AppendOnly(lines, false)
    ensures EndsAppended(lines)
  {
  }

  /** One sum of a marked body. */
  lemma {:induction false} RunStep(w: World, t: Template, env: Env, f: Frame, buffer: Value, rest: seq<SourceLine>, n: nat, opening: bool)
    requires rest != [] && rest[0].line.Appended? && SumLength(rest) == Some(n)
    ensures var r := EvalAll(w, t, env, f, SumExprs(rest[..n]));
            var sum := SumOf(w, r.values[0], r.values[1..]);
            var whole := RunLines(w, t, env, f, buffer, rest, opening);
            match rest[0].prefix
            case NoPrefix => whole == RunLines(w, t, env, r.frame, if opening then sum else buffer, rest[n..], false)
            case BufferPlus => opening || whole == RunLines(w, t, env, r.frame, PlusOf(w, buffer, sum), rest[n..], false)
            case ReturnSum => opening || whole == Returned(sum)
            case ReturnBufferPlus => opening || whole == Returned(SumOf(w, buffer, r.values))
            case Plus => whole == Malformed
  {
  }

  /** Merging refines sequential append. In a program that is not simple, if every appended fragment is a
      string when its turn comes, the merged body returns all fragments joined in source order. */
  lemma {:induction false} MergeRefinesAppend(w: World, t: Template, env: Env, lines: seq<Line>)
    requires forall k :: 0 <= k < |lines| ==> Buffered(lines[k])
    requires t.body == Merge(lines, false)
    ensures var whole := RunInOrder(w, t, env, EmptyFrame, "", lines);
            whole.clean ==> RunTemplate(w, t, env) == Str(whole.text)
  {
    assert lines[0..] == lines && t.body.lines[0..] == t.body.lines;
    if lines == [] {
      ClosedBody(w, t, env, EmptyFrame, "", lines);
    } else {
      MergedFrom(w, t, env, EmptyFrame, "", lines, 0);
    }
  }
}
