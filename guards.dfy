/**
 * The `#if` / `#endif` lines of an extension, read the way the Swift
 * compiler reads them: each `#if` opens a guard, each `#endif` closes the
 * innermost open one. The emitter's closing lines carry a remark naming
 * the guard they close.
 */
module Guards {
  import opened Wrappers
  import opened Strings
  import opened Declarations
  import opened Layout

  const IfPrefix := "#if "
  const EndifPrefix := "#endif // "

  /** The remark the emitter puts after `#endif // ` for a guard condition. */
  function EndifRemark(condition: string): string {
    if StartsWith(condition, "canImport(") then "required canImports" else condition
  }

  predicate IsIf(e: Emitted) {
    e.Line? && StartsWith(e.text, IfPrefix)
  }

  predicate IsEndif(e: Emitted) {
    e.Line? && StartsWith(e.text, "#endif")
  }

  /**
   * One step of the reading: `open` lists the open conditions, innermost
   * last. An `#endif` must close some guard and name the innermost one.
   */
  function GuardStep(e: Emitted, open: seq<string>): Option<seq<string>> {
    if IsIf(e) then Some(open + [e.text[|IfPrefix|..]])
    else if IsEndif(e) then
      if |open| > 0 && e.text == EndifPrefix + EndifRemark(open[|open| - 1]) then Some(open[..|open| - 1]) else None
    else Some(open)
  }

  /** The open conditions after reading `es`, or `None` if a line closes a guard wrongly. */
  function Scan(es: seq<Emitted>, open: seq<string>): Option<seq<string>>
    decreases |es|
  {
    if |es| == 0 then Some(open)
    else
      match GuardStep(es[0], open)
      case None => None
      case Some(next) => Scan(es[1..], next)
  }

  function ScanFrom(o: Option<seq<string>>, es: seq<Emitted>): Option<seq<string>> {
    match o
    case None => None
    case Some(open) => Scan(es, open)
  }

  lemma {:induction false} ScanConcat(a: seq<Emitted>, b: seq<Emitted>, open: seq<string>)
    ensures Scan(a + b, open) == ScanFrom(Scan(a, open), b)
    decreases |a|
  {
    if |a| > 0 {
      assert (a + b)[0] == a[0];
      assert (a + b)[1..] == a[1..] + b;
      match GuardStep(a[0], open)
      case None =>
      case Some(next) => ScanConcat(a[1..], b, next);
    } else {
      assert a + b == b;
    }
  }

  /** A line that neither opens nor closes a guard. */
  predicate Neutral(e: Emitted) {
    !IsIf(e) && !IsEndif(e)
  }

  lemma {:induction false} ScanNeutral(es: seq<Emitted>, open: seq<string>)
    requires forall k :: 0 <= k < |es| ==> Neutral(es[k])
    ensures Scan(es, open) == Some(open)
    decreases |es|
  {
    if |es| > 0 {
      assert Neutral(es[0]);
      ScanNeutral(es[1..], open);
    }
  }

  /** A written line whose text starts with neither `#if ` nor `#endif` is neutral. */
  lemma NeutralByFirstChar(level: nat, text: string)
    requires |text| > 0 && text[0] != '#'
    ensures Neutral(Line(level, text))
  {
    FirstCharRulesOut(text, IfPrefix);
    FirstCharRulesOut(text, "#endif");
  }

  lemma ScanSingle(e: Emitted, open: seq<string>)
    ensures Scan([e], open) == GuardStep(e, open)
  {
    assert [e][1..] == [];
  }

  lemma OpenGuardStep(level: nat, condition: string, open: seq<string>)
    ensures Scan([Line(level, IfPrefix + condition)], open) == Some(open + [condition])
  {
    StartsWithConcat(IfPrefix, condition);
    assert (IfPrefix + condition)[|IfPrefix|..] == condition;
    ScanSingle(Line(level, IfPrefix + condition), open);
  }

  lemma CloseGuardStep(level: nat, condition: string, open: seq<string>)
    ensures Scan([Line(level, EndifPrefix + EndifRemark(condition))], open + [condition]) == Some(open)
  {
    var text := EndifPrefix + EndifRemark(condition);
    StartsWithConcat(EndifPrefix, EndifRemark(condition));
    StartsWithTransitive(text, EndifPrefix, "#endif");
    assert text[..|IfPrefix|][1] != IfPrefix[1];
    assert (open + [condition])[..|open|] == open;
    ScanSingle(Line(level, text), open + [condition]);
  }

  /** `#if` lines for `conditions`, outermost first. */
  function IfLines(conditions: seq<string>, level: nat): seq<Emitted> {
    seq(|conditions|, i requires 0 <= i < |conditions| => Line(level, IfPrefix + conditions[i]))
  }

  /** `#endif` lines closing `conditions`, innermost first. */
  function EndifLines(conditions: seq<string>, level: nat): seq<Emitted>
    decreases |conditions|
  {
    if |conditions| == 0 then []
    else [Line(level, EndifPrefix + EndifRemark(conditions[|conditions| - 1]))] + EndifLines(conditions[..|conditions| - 1], level)
  }

  lemma {:induction false} ScanIfLines(conditions: seq<string>, level: nat, open: seq<string>)
    ensures Scan(IfLines(conditions, level), open) == Some(open + conditions)
    decreases |conditions|
  {
    if |conditions| == 0 {
      assert open + conditions == open;
    } else {
      var rest := conditions[1..];
      assert IfLines(conditions, level) == [Line(level, IfPrefix + conditions[0])] + IfLines(rest, level);
      ScanConcat([Line(level, IfPrefix + conditions[0])], IfLines(rest, level), open);
      OpenGuardStep(level, conditions[0], open);
      ScanIfLines(rest, level, open + [conditions[0]]);
      assert open + [conditions[0]] + rest == open + conditions;
    }
  }

  lemma {:induction false} ScanEndifLines(conditions: seq<string>, level: nat, open: seq<string>)
    ensures Scan(EndifLines(conditions, level), open + conditions) == Some(open)
    decreases |conditions|
  {
    if |conditions| == 0 {
      assert open + conditions == open;
    } else {
      var n := |conditions| - 1;
      var init := conditions[..n];
      var first := Line(level, EndifPrefix + EndifRemark(conditions[n]));
      ScanConcat([first], EndifLines(init, level), open + conditions);
      assert open + conditions == (open + init) + [conditions[n]];
      CloseGuardStep(level, conditions[n], open + init);
      ScanEndifLines(init, level, open);
    }
  }

  /** The conditions the emitter opens, outermost first. */
  function GuardConditions(x: Extension): seq<string> {
    (if x.minimumSwiftVersion.Some? then [SwiftCondition(x.minimumSwiftVersion.value)] else [])
    + (if |x.requiredImports| > 0 then [ImportsCondition(x.requiredImports)] else [])
  }

  lemma ImportsConditionStartsWithCanImport(imports: seq<string>)
    requires |imports| > 0
    ensures StartsWith(ImportsCondition(imports), "canImport(")
  {
    JoinedStartsWithFirst(CanImports(imports), " && ");
    StartsWithConcat("canImport(", imports[0] + ")");
    assert CanImports(imports)[0] == "canImport(" + (imports[0] + ")");
    StartsWithTransitive(ImportsCondition(imports), CanImports(imports)[0], "canImport(");
  }

  lemma ImportsEndifRemark(imports: seq<string>)
    requires |imports| > 0
    ensures EndifPrefix + EndifRemark(ImportsCondition(imports)) == ImportsEndif
  {
    ImportsConditionStartsWithCanImport(imports);
  }

  lemma SwiftConditionRemark(v: SwiftVersion)
    ensures EndifPrefix + EndifRemark(SwiftCondition(v)) == EndifPrefix + SwiftCondition(v)
  {
    FirstCharRulesOut(SwiftCondition(v), "canImport(");
  }

  lemma OpeningGuardsAreIfLines(x: Extension, level: nat)
    ensures OpeningGuards(x, level) == IfLines(GuardConditions(x), level)
  {
  }

  lemma EndifLinesOne(a: string, level: nat)
    ensures EndifLines([a], level) == [Line(level, EndifPrefix + EndifRemark(a))]
  {
    assert [a][..0] == [];
  }

  lemma EndifLinesTwo(a: string, b: string, level: nat)
    ensures EndifLines([a, b], level) == [Line(level, EndifPrefix + EndifRemark(b)), Line(level, EndifPrefix + EndifRemark(a))]
  {
    assert [a, b][..1] == [a];
    EndifLinesOne(a, level);
  }

  lemma ClosingGuardsAreEndifLines(x: Extension, level: nat)
    ensures ClosingGuards(x, level) == EndifLines(GuardConditions(x), level)
  {
    if |x.requiredImports| > 0 {
      var ic := ImportsCondition(x.requiredImports);
      ImportsEndifRemark(x.requiredImports);
      if x.minimumSwiftVersion.Some? {
        var sc := SwiftCondition(x.minimumSwiftVersion.value);
        SwiftConditionRemark(x.minimumSwiftVersion.value);
        assert GuardConditions(x) == [sc, ic];
        EndifLinesTwo(sc, ic, level);
      } else {
        assert GuardConditions(x) == [ic];
        EndifLinesOne(ic, level);
      }
    } else if x.minimumSwiftVersion.Some? {
      var sc := SwiftCondition(x.minimumSwiftVersion.value);
      SwiftConditionRemark(x.minimumSwiftVersion.value);
      assert GuardConditions(x) == [sc];
      EndifLinesOne(sc, level);
    } else {
      assert GuardConditions(x) == [];
    }
  }

  predicate AllNeutral(es: seq<Emitted>) {
    forall k :: 0 <= k < |es| ==> Neutral(es[k])
  }

  lemma AllNeutralConcat(a: seq<Emitted>, b: seq<Emitted>)
    requires AllNeutral(a) && AllNeutral(b)
    ensures AllNeutral(a + b)
  {
    forall k | 0 <= k < |a + b|
      ensures Neutral((a + b)[k])
    {
      if k >= |a| {
        assert (a + b)[k] == b[k - |a|];
      }
    }
  }

  /** Units the emitter does not write as whole lines of its own. */
  predicate NoOwnLines(es: seq<Emitted>) {
    forall k :: 0 <= k < |es| ==> !es[k].Line?
  }

  lemma NoOwnLinesConcat(a: seq<Emitted>, b: seq<Emitted>)
    requires NoOwnLines(a) && NoOwnLines(b)
    ensures NoOwnLines(a + b)
  {
    forall k | 0 <= k < |a + b|
      ensures !(a + b)[k].Line?
    {
      if k >= |a| {
        assert (a + b)[k] == b[k - |a|];
      }
    }
  }

  lemma {:induction false} TypeDefinitionBlockNoOwnLines(ts: seq<TypeDefinition>, omitPublic: bool, r: Rendering, level: nat)
    ensures NoOwnLines(TypeDefinitionBlock(ts, omitPublic, r, level))
    decreases |ts|
  {
    if |ts| > 0 {
      TypeDefinitionBlockNoOwnLines(ts[..|ts| - 1], omitPublic, r, level);
      NoOwnLinesConcat(TypeDefinitionBlock(ts[..|ts| - 1], omitPublic, r, level),
                       [BlankLine(level), Nested(r.typeDefinition(ts[|ts| - 1], omitPublic, level))]);
    }
  }

  lemma {:induction false} FunctionBlockNoOwnLines(fs: seq<FunctionDefinition>, omitPublic: bool, isStatic: bool, r: Rendering, level: nat)
    ensures NoOwnLines(FunctionBlock(fs, omitPublic, isStatic, r, level))
    decreases |fs|
  {
    if |fs| > 0 {
      FunctionBlockNoOwnLines(fs[..|fs| - 1], omitPublic, isStatic, r, level);
      NoOwnLinesConcat(FunctionBlock(fs[..|fs| - 1], omitPublic, isStatic, r, level),
                       [BlankLine(level), Nested(r.functionDefinition(fs[|fs| - 1], omitPublic, isStatic, level))]);
    }
  }

  lemma {:induction false} VariableItemsNoOwnLines(vs: seq<InstanceVariable>, r: Rendering, level: nat)
    ensures NoOwnLines(VariableItems(vs, r, level))
    decreases |vs|
  {
    if |vs| > 0 {
      var init := vs[..|vs| - 1];
      var gap: seq<Emitted> := if |vs| > 1 && vs[|vs| - 2].comment.Some? then [BlankLine(level)] else [];
      VariableItemsNoOwnLines(init, r, level);
      NoOwnLinesConcat(VariableItems(init, r, level), gap);
      NoOwnLinesConcat(VariableItems(init, r, level) + gap, [Nested(r.instanceVariable(vs[|vs| - 1], true, level))]);
    }
  }

  /** The body consists of blank lines and nested emitters' output only. */
  lemma BodyLinesNoOwnLines(x: Extension, r: Rendering, level: nat)
    ensures NoOwnLines(BodyLines(x, r, level))
  {
    var td := TypeDefinitionBlock(x.typeDefinitions, x.isPublic, r, level);
    var gap: seq<Emitted> := if |x.typeVariables| > 0 then [BlankLine(level)] else [];
    var vi := VariableItems(x.typeVariables, r, level);
    var tf := FunctionBlock(x.typeFunctions, x.isPublic, true, r, level);
    var fs := FunctionBlock(x.functions, x.isPublic, false, r, level);
    TypeDefinitionBlockNoOwnLines(x.typeDefinitions, x.isPublic, r, level);
    VariableItemsNoOwnLines(x.typeVariables, r, level);
    FunctionBlockNoOwnLines(x.typeFunctions, x.isPublic, true, r, level);
    FunctionBlockNoOwnLines(x.functions, x.isPublic, false, r, level);
    NoOwnLinesConcat(gap, vi);
    NoOwnLinesConcat(td, gap + vi);
    NoOwnLinesConcat(td + (gap + vi), tf);
    NoOwnLinesConcat(td + (gap + vi) + tf, fs);
  }

  lemma HeaderTextFirstChar(x: Extension, cfg: Configuration, r: Rendering)
    ensures |HeaderText(x, cfg, r)| > 0 && HeaderText(x, cfg, r)[0] != '#'
  {
    var rest := r.typeName(x.extendedType) + ConformanceClause(x, cfg, r);
    assert HeaderText(x, cfg, r) == VisibilityPrefix(x) + (ExtensionKeyword + rest);
  }

  lemma AvailabilityNeutral(x: Extension, level: nat)
    ensures AllNeutral(AvailabilityLines(x, level))
  {
    if ConcurrencyModule in x.requiredImports {
      NeutralByFirstChar(level, AvailabilityAttribute);
    }
  }

  lemma HeaderNeutral(x: Extension, cfg: Configuration, r: Rendering, level: nat)
    ensures AllNeutral(HeaderLines(x, cfg, r, level))
  {
    HeaderTextFirstChar(x, cfg, r);
    if |x.genericConstraints| > 0 {
      NeutralByFirstChar(level, HeaderText(x, cfg, r));
      NeutralByFirstChar(level + 1, WhereClause(x, cfg, r));
      NeutralByFirstChar(level, "{");
    } else {
      NeutralByFirstChar(level, HeaderText(x, cfg, r) + " {");
    }
  }

  /** Between the opening and the closing guards the emitter writes no guard line. */
  lemma MiddleNeutral(x: Extension, cfg: Configuration, r: Rendering, level: nat)
    ensures AllNeutral(AvailabilityLines(x, level) + HeaderLines(x, cfg, r, level) + BodyLines(x, r, level + 1) + [Line(level, "}")])
  {
    var av := AvailabilityLines(x, level);
    var hl := HeaderLines(x, cfg, r, level);
    var bl := BodyLines(x, r, level + 1);
    AvailabilityNeutral(x, level);
    HeaderNeutral(x, cfg, r, level);
    BodyLinesNoOwnLines(x, r, level + 1);
    assert AllNeutral(bl);
    NeutralByFirstChar(level, "}");
    AllNeutralConcat(av, hl);
    AllNeutralConcat(av + hl, bl);
    AllNeutralConcat(av + hl + bl, [Line(level, "}")]);
  }

  lemma Regroup(a: seq<Emitted>, b: seq<Emitted>, c: seq<Emitted>, d: seq<Emitted>, e: seq<Emitted>, f: seq<Emitted>)
    ensures a + b + c + d + e + f == a + (b + c + d + e) + f
  {
  }

  /** Guard lines around neutral units open `conditions` and close them all again. */
  lemma ScanWrapped(conditions: seq<string>, level: nat, m: seq<Emitted>)
    requires AllNeutral(m)
    ensures Scan(IfLines(conditions, level) + m, []) == Some(conditions)
    ensures Scan(IfLines(conditions, level) + m + EndifLines(conditions, level), []) == Some([])
  {
    var og := IfLines(conditions, level);
    ScanIfLines(conditions, level, []);
    assert [] + conditions == conditions;
    ScanNeutral(m, conditions);
    ScanConcat(og, m, []);
    ScanEndifLines(conditions, level, []);
    ScanConcat(og + m, EndifLines(conditions, level), []);
  }

  /**
   * Reading everything up to the opening brace leaves exactly the emitted
   * guards open: the Swift version guard outermost, then the imports guard.
   */
  lemma ScanThroughHeader(x: Extension, cfg: Configuration, r: Rendering, level: nat)
    ensures Scan(OpeningGuards(x, level) + AvailabilityLines(x, level) + HeaderLines(x, cfg, r, level), [])
            == Some(GuardConditions(x))
  {
    AvailabilityNeutral(x, level);
    HeaderNeutral(x, cfg, r, level);
    OpeningGuardsAreIfLines(x, level);
    ScanAfterIfLines(GuardConditions(x), level, OpeningGuards(x, level), AvailabilityLines(x, level), HeaderLines(x, cfg, r, level));
  }

  lemma ScanAfterIfLines(conditions: seq<string>, level: nat, og: seq<Emitted>, a: seq<Emitted>, b: seq<Emitted>)
    requires og == IfLines(conditions, level)
    requires AllNeutral(a) && AllNeutral(b)
    ensures Scan(og + a + b, []) == Some(conditions)
  {
    AllNeutralConcat(a, b);
    ScanWrapped(conditions, level, a + b);
    assert og + a + b == og + (a + b);
  }

  /**
   * Every `#if` the emitter writes is closed by its own `#endif`, innermost
   * first, and no `#endif` is written without its `#if`.
   */
  lemma ScanExtensionBalanced(x: Extension, cfg: Configuration, r: Rendering, level: nat)
    ensures Scan(ExtensionLines(x, cfg, r, level), []) == Some([])
  {
    var m := AvailabilityLines(x, level) + HeaderLines(x, cfg, r, level) + BodyLines(x, r, level + 1) + [Line(level, "}")];
    MiddleNeutral(x, cfg, r, level);
    OpeningGuardsAreIfLines(x, level);
    ClosingGuardsAreEndifLines(x, level);
    ScanWrapped(GuardConditions(x), level, m);
    Regroup(OpeningGuards(x, level), AvailabilityLines(x, level), HeaderLines(x, cfg, r, level),
            BodyLines(x, r, level + 1), [Line(level, "}")], ClosingGuards(x, level));
  }
}
