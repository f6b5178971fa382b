/**
 * What `generateExtension` writes, as a sequence of emitted units: whole
 * lines it writes itself, blank lines, and the text of nested emitters.
 * `RenderAll` turns the sequence into the characters the buffer receives.
 */
module Layout {
  import opened Wrappers
  import opened Strings
  import opened Declarations

  datatype Emitted =
    | Line(level: nat, text: string)  // `writeln(text)` at indentation `level`
    | BlankLine(level: nat)           // `writeln()` at indentation `level`
    | Nested(output: string)          // what a nested emitter appends

  lemma AppendAssoc(s: string, a: string, b: string)
    ensures s + (a + b) == s + a + b
  {
  }

  lemma Associate5(s: string, a: string, b: string, c: string, d: string, e: string)
    ensures s + (a + b + c + d + e) == s + a + b + c + d + e
  {
  }

  lemma Associate(s: string, a: string, b: string, c: string)
    ensures s + (a + b + c) == s + a + b + c
  {
  }

  function Indentation(cfg: Configuration, level: nat): string {
    Repeat(cfg.indent, level)
  }

  /** `writeln(s)` writes the indentation, then `s` if any, then a line end. */
  function Render(e: Emitted, cfg: Configuration): string {
    match e
    case Line(level, text) => Indentation(cfg, level) + text + cfg.eol
    case BlankLine(level) => Indentation(cfg, level) + cfg.eol
    case Nested(output) => output
  }

  function RenderAll(es: seq<Emitted>, cfg: Configuration): string {
    if |es| == 0 then "" else RenderAll(es[..|es| - 1], cfg) + Render(es[|es| - 1], cfg)
  }

  lemma RenderAllSnoc(es: seq<Emitted>, e: Emitted, cfg: Configuration)
    ensures RenderAll(es + [e], cfg) == RenderAll(es, cfg) + Render(e, cfg)
  {
    assert (es + [e])[..|es|] == es;
  }

  /** Emitting two runs one after the other writes the text of each, in order. */
  lemma {:induction false} RenderAllConcat(a: seq<Emitted>, b: seq<Emitted>, cfg: Configuration)
    ensures RenderAll(a + b, cfg) == RenderAll(a, cfg) + RenderAll(b, cfg)
  {
    if |b| > 0 {
      var last := b[|b| - 1];
      var init := b[..|b| - 1];
      assert a + b == (a + init) + [last];
      assert b == init + [last];
      RenderAllSnoc(a + init, last, cfg);
      RenderAllSnoc(init, last, cfg);
      RenderAllConcat(a, init, cfg);
    } else {
      assert a + b == a;
    }
  }

  const PublicKeyword := "public "
  const ExtensionKeyword := "extension "
  /** The one import whose presence adds the availability line. */
  const ConcurrencyModule := "_Concurrency"
  const AvailabilityAttribute := "@available" + "(macOS 10.15, iOS 13, tvOS 13, watchOS 6, *)"
  const ImportsEndif := "#endif // required canImports"

  /** `swift(>=M.m)` */
  function SwiftCondition(v: SwiftVersion): string {
    "swift(>=" + IntToString(v.major) + "." + IntToString(v.minor) + ")"
  }

  /** Each import wrapped as `canImport(x)`. */
  function CanImports(imports: seq<string>): seq<string> {
    seq(|imports|, i requires 0 <= i < |imports| => "canImport(" + imports[i] + ")")
  }

  function ImportsCondition(imports: seq<string>): string {
    Joined(CanImports(imports), " && ")
  }

  /** The `#if` lines, outermost first. */
  function OpeningGuards(x: Extension, level: nat): seq<Emitted> {
    (if x.minimumSwiftVersion.Some? then [Line(level, "#if " + SwiftCondition(x.minimumSwiftVersion.value))] else [])
    + (if |x.requiredImports| > 0 then [Line(level, "#if " + ImportsCondition(x.requiredImports))] else [])
  }

  function AvailabilityLines(x: Extension, level: nat): seq<Emitted> {
    if ConcurrencyModule in x.requiredImports then [Line(level, AvailabilityAttribute)] else []
  }

  /** `map(string(for:))` over type references. */
  function TypeNames(r: Rendering, ts: seq<TypeReference>): seq<string> {
    seq(|ts|, i requires 0 <= i < |ts| => r.typeName(ts[i]))
  }

  function ConstraintNames(r: Rendering, cs: seq<GenericConstraint>): seq<string> {
    seq(|cs|, i requires 0 <= i < |cs| => r.constraint(cs[i]))
  }

  function ConformanceClause(x: Extension, cfg: Configuration, r: Rendering): string {
    if |x.conformances| == 0 then ""
    else cfg.typeConformanceSeparator + Joined(TypeNames(r, x.conformances), cfg.identifierListSeparator)
  }

  /** `public ` only for a public extension that declares no conformance. */
  function VisibilityPrefix(x: Extension): string {
    if x.isPublic && |x.conformances| == 0 then PublicKeyword else ""
  }

  /** The header up to, not including, the opening brace. */
  function HeaderText(x: Extension, cfg: Configuration, r: Rendering): string {
    VisibilityPrefix(x) + ExtensionKeyword + r.typeName(x.extendedType) + ConformanceClause(x, cfg, r)
  }

  function WhereClause(x: Extension, cfg: Configuration, r: Rendering): string {
    "where " + Joined(ConstraintNames(r, x.genericConstraints), cfg.identifierListSeparator)
  }

  /** The header and the opening brace. */
  function HeaderLines(x: Extension, cfg: Configuration, r: Rendering, level: nat): seq<Emitted> {
    if |x.genericConstraints| > 0 then
      [Line(level, HeaderText(x, cfg, r)), Line(level + 1, WhereClause(x, cfg, r)), Line(level, "{")]
    else
      [Line(level, HeaderText(x, cfg, r) + " {")]
  }

  /** Each nested type, after a blank line. */
  function TypeDefinitionBlock(ts: seq<TypeDefinition>, omitPublic: bool, r: Rendering, level: nat): seq<Emitted> {
    if |ts| == 0 then []
    else TypeDefinitionBlock(ts[..|ts| - 1], omitPublic, r, level)
         + [BlankLine(level), Nested(r.typeDefinition(ts[|ts| - 1], omitPublic, level))]
  }

  /** Each static variable, after a blank line when the one before it has a comment. */
  function VariableItems(vs: seq<InstanceVariable>, r: Rendering, level: nat): seq<Emitted> {
    if |vs| == 0 then []
    else VariableItems(vs[..|vs| - 1], r, level)
         + (if |vs| > 1 && vs[|vs| - 2].comment.Some? then [BlankLine(level)] else [])
         + [Nested(r.instanceVariable(vs[|vs| - 1], true, level))]
  }

  /** The static variables, after one blank line when there are any. */
  function VariableBlock(vs: seq<InstanceVariable>, r: Rendering, level: nat): seq<Emitted> {
    (if |vs| > 0 then [BlankLine(level)] else []) + VariableItems(vs, r, level)
  }

  /** Each function, after a blank line. */
  function FunctionBlock(fs: seq<FunctionDefinition>, omitPublic: bool, isStatic: bool, r: Rendering, level: nat): seq<Emitted> {
    if |fs| == 0 then []
    else FunctionBlock(fs[..|fs| - 1], omitPublic, isStatic, r, level)
         + [BlankLine(level), Nested(r.functionDefinition(fs[|fs| - 1], omitPublic, isStatic, level))]
  }

  /** The members, in their fixed order, at the body's indentation `level`. */
  function BodyLines(x: Extension, r: Rendering, level: nat): seq<Emitted> {
    TypeDefinitionBlock(x.typeDefinitions, x.isPublic, r, level)
    + VariableBlock(x.typeVariables, r, level)
    + FunctionBlock(x.typeFunctions, x.isPublic, true, r, level)
    + FunctionBlock(x.functions, x.isPublic, false, r, level)
  }

  /** The `#endif` lines, innermost first. */
  function ClosingGuards(x: Extension, level: nat): seq<Emitted> {
    (if |x.requiredImports| > 0 then [Line(level, ImportsEndif)] else [])
    + (if x.minimumSwiftVersion.Some? then [Line(level, "#endif // " + SwiftCondition(x.minimumSwiftVersion.value))] else [])
  }

  /** Everything `generateExtension` writes when called at indentation `level`. */
  function ExtensionLines(x: Extension, cfg: Configuration, r: Rendering, level: nat): seq<Emitted> {
    OpeningGuards(x, level) + AvailabilityLines(x, level) + HeaderLines(x, cfg, r, level)
    + BodyLines(x, r, level + 1) + [Line(level, "}")] + ClosingGuards(x, level)
  }

  /** The line end `appendEOLIfMissing` adds to a non-empty buffer that lacks one. */
  function LineBreakBefore(s: string, cfg: Configuration): string {
    if |s| > 0 && !EndsWith(s, cfg.eol) then cfg.eol else ""
  }

  /*
   * The same text written out line by line, as the write steps of
   * `generateExtension` produce it; the lemmas below equate each with the
   * rendering of its part of `ExtensionLines`.
   */

  function SwiftGuardText(x: Extension, cfg: Configuration, level: nat): string {
    if x.minimumSwiftVersion.Some? then Render(Line(level, "#if " + SwiftCondition(x.minimumSwiftVersion.value)), cfg) else ""
  }

  function ImportsGuardText(x: Extension, cfg: Configuration, level: nat): string {
    if |x.requiredImports| > 0 then Render(Line(level, "#if " + ImportsCondition(x.requiredImports)), cfg) else ""
  }

  function AvailabilityText(x: Extension, cfg: Configuration, level: nat): string {
    if ConcurrencyModule in x.requiredImports then Render(Line(level, AvailabilityAttribute), cfg) else ""
  }

  function OpeningGuardsText(x: Extension, cfg: Configuration, level: nat): string {
    SwiftGuardText(x, cfg, level) + ImportsGuardText(x, cfg, level) + AvailabilityText(x, cfg, level)
  }

  /** What follows the header on its line: the `where` clause and the brace, or ` {`. */
  function BraceText(x: Extension, cfg: Configuration, r: Rendering, level: nat): string {
    if |x.genericConstraints| > 0 then
      cfg.eol + Render(Line(level + 1, WhereClause(x, cfg, r)), cfg) + Render(Line(level, "{"), cfg)
    else
      " {" + cfg.eol
  }

  function ClosingGuardsText(x: Extension, cfg: Configuration, level: nat): string {
    (if |x.requiredImports| > 0 then Render(Line(level, ImportsEndif), cfg) else "")
    + (if x.minimumSwiftVersion.Some? then Render(Line(level, "#endif // " + SwiftCondition(x.minimumSwiftVersion.value)), cfg) else "")
  }

  lemma RenderSingle(e: Emitted, cfg: Configuration)
    ensures RenderAll([e], cfg) == Render(e, cfg)
  {
    RenderAllSnoc([], e, cfg);
  }

  lemma RenderOpeningGuards(x: Extension, cfg: Configuration, level: nat)
    ensures RenderAll(OpeningGuards(x, level) + AvailabilityLines(x, level), cfg) == OpeningGuardsText(x, cfg, level)
  {
    var a := if x.minimumSwiftVersion.Some? then [Line(level, "#if " + SwiftCondition(x.minimumSwiftVersion.value))] else [];
    var b := if |x.requiredImports| > 0 then [Line(level, "#if " + ImportsCondition(x.requiredImports))] else [];
    var c := AvailabilityLines(x, level);
    RenderAllConcat(a + b, c, cfg);
    RenderAllConcat(a, b, cfg);
    if x.minimumSwiftVersion.Some? { RenderSingle(a[0], cfg); }
    if |x.requiredImports| > 0 { RenderSingle(b[0], cfg); }
    if ConcurrencyModule in x.requiredImports { RenderSingle(c[0], cfg); }
  }

  lemma RenderHeaderLines(s: string, x: Extension, cfg: Configuration, r: Rendering, level: nat)
    ensures s + RenderAll(HeaderLines(x, cfg, r, level), cfg)
         == s + Indentation(cfg, level) + VisibilityPrefix(x) + ExtensionKeyword + r.typeName(x.extendedType)
            + ConformanceClause(x, cfg, r) + BraceText(x, cfg, r, level)
  {
    var lines := HeaderLines(x, cfg, r, level);
    var t := s + Indentation(cfg, level);
    var header := HeaderText(x, cfg, r);
    HeaderTextInSteps(t, x, cfg, r);
    if |x.genericConstraints| > 0 {
      var where := Render(lines[1], cfg);
      var brace := Render(lines[2], cfg);
      RenderSingle(lines[0], cfg);
      assert lines[..2] == [lines[0]] + [lines[1]];
      RenderAllSnoc([lines[0]], lines[1], cfg);
      assert lines == lines[..2] + [lines[2]];
      RenderAllSnoc(lines[..2], lines[2], cfg);
      assert RenderAll(lines, cfg) == Indentation(cfg, level) + header + cfg.eol + where + brace;
      calc {
        s + RenderAll(lines, cfg);
        s + (Indentation(cfg, level) + header + cfg.eol + where + brace);
        { Associate5(s, Indentation(cfg, level), header, cfg.eol, where, brace); }
        t + header + cfg.eol + where + brace;
        { Associate(t + header, cfg.eol, where, brace); }
        t + header + (cfg.eol + where + brace);
      }
    } else {
      RenderSingle(lines[0], cfg);
      calc {
        s + RenderAll(lines, cfg);
        s + (Indentation(cfg, level) + (header + " {") + cfg.eol);
        { Associate(s, Indentation(cfg, level), header + " {", cfg.eol); }
        t + (header + " {") + cfg.eol;
        { AppendAssoc(t, header, " {"); }
        t + header + " {" + cfg.eol;
        { AppendAssoc(t + header, " {", cfg.eol); }
        t + header + (" {" + cfg.eol);
      }
    }
  }

  lemma RenderClosingGuards(x: Extension, cfg: Configuration, level: nat)
    ensures RenderAll(ClosingGuards(x, level), cfg) == ClosingGuardsText(x, cfg, level)
  {
    var a := if |x.requiredImports| > 0 then [Line(level, ImportsEndif)] else [];
    var b := if x.minimumSwiftVersion.Some? then [Line(level, "#endif // " + SwiftCondition(x.minimumSwiftVersion.value))] else [];
    RenderAllConcat(a, b, cfg);
    if |x.requiredImports| > 0 { RenderSingle(a[0], cfg); }
    if x.minimumSwiftVersion.Some? { RenderSingle(b[0], cfg); }
  }

  lemma HeaderTextInSteps(s: string, x: Extension, cfg: Configuration, r: Rendering)
    ensures s + HeaderText(x, cfg, r)
         == s + VisibilityPrefix(x) + ExtensionKeyword + r.typeName(x.extendedType) + ConformanceClause(x, cfg, r)
  {
  }

  lemma RenderLineInSteps(s: string, level: nat, text: string, cfg: Configuration)
    ensures s + Render(Line(level, text), cfg) == s + Indentation(cfg, level) + text + cfg.eol
  {
  }

  lemma TypeDefinitionBlockStep(ts: seq<TypeDefinition>, i: nat, omitPublic: bool, r: Rendering, level: nat, cfg: Configuration)
    requires i < |ts|
    ensures RenderAll(TypeDefinitionBlock(ts[..i + 1], omitPublic, r, level), cfg)
         == RenderAll(TypeDefinitionBlock(ts[..i], omitPublic, r, level), cfg) + Render(BlankLine(level), cfg)
            + r.typeDefinition(ts[i], omitPublic, level)
  {
    var block := TypeDefinitionBlock(ts[..i], omitPublic, r, level);
    assert ts[..i + 1][..i] == ts[..i];
    assert TypeDefinitionBlock(ts[..i + 1], omitPublic, r, level)
        == block + [BlankLine(level)] + [Nested(r.typeDefinition(ts[i], omitPublic, level))];
    RenderAllSnoc(block, BlankLine(level), cfg);
    RenderAllSnoc(block + [BlankLine(level)], Nested(r.typeDefinition(ts[i], omitPublic, level)), cfg);
  }

  lemma FunctionBlockStep(fs: seq<FunctionDefinition>, i: nat, omitPublic: bool, isStatic: bool, r: Rendering, level: nat, cfg: Configuration)
    requires i < |fs|
    ensures RenderAll(FunctionBlock(fs[..i + 1], omitPublic, isStatic, r, level), cfg)
         == RenderAll(FunctionBlock(fs[..i], omitPublic, isStatic, r, level), cfg) + Render(BlankLine(level), cfg)
            + r.functionDefinition(fs[i], omitPublic, isStatic, level)
  {
    var block := FunctionBlock(fs[..i], omitPublic, isStatic, r, level);
    assert fs[..i + 1][..i] == fs[..i];
    assert FunctionBlock(fs[..i + 1], omitPublic, isStatic, r, level)
        == block + [BlankLine(level)] + [Nested(r.functionDefinition(fs[i], omitPublic, isStatic, level))];
    RenderAllSnoc(block, BlankLine(level), cfg);
    RenderAllSnoc(block + [BlankLine(level)], Nested(r.functionDefinition(fs[i], omitPublic, isStatic, level)), cfg);
  }

  /** The blank line before variable `i`, if the variable before it has a comment. */
  function SpacingText(vs: seq<InstanceVariable>, i: nat, cfg: Configuration, level: nat): string
    requires i < |vs|
  {
    if i > 0 && vs[i - 1].comment.Some? then Render(BlankLine(level), cfg) else ""
  }

  lemma VariableItemsStep(vs: seq<InstanceVariable>, i: nat, r: Rendering, level: nat, cfg: Configuration)
    requires i < |vs|
    ensures RenderAll(VariableItems(vs[..i + 1], r, level), cfg)
         == RenderAll(VariableItems(vs[..i], r, level), cfg) + SpacingText(vs, i, cfg, level)
            + r.instanceVariable(vs[i], true, level)
  {
    var items := VariableItems(vs[..i], r, level);
    var spacing := if i > 0 && vs[i - 1].comment.Some? then [BlankLine(level)] else [];
    var item := Nested(r.instanceVariable(vs[i], true, level));
    assert vs[..i + 1][..i] == vs[..i];
    assert VariableItems(vs[..i + 1], r, level) == items + spacing + [item];
    RenderAllSnoc(items + spacing, item, cfg);
    RenderAllConcat(items, spacing, cfg);
    RenderOptional(i > 0 && vs[i - 1].comment.Some?, BlankLine(level), cfg);
  }

  lemma RenderOptional(present: bool, e: Emitted, cfg: Configuration)
    ensures RenderAll(if present then [e] else [], cfg) == if present then Render(e, cfg) else ""
  {
    if present {
      RenderAllSnoc([], e, cfg);
    }
  }

  lemma VariableBlockText(vs: seq<InstanceVariable>, r: Rendering, level: nat, cfg: Configuration)
    ensures RenderAll(VariableBlock(vs, r, level), cfg)
         == (if |vs| > 0 then Render(BlankLine(level), cfg) else "") + RenderAll(VariableItems(vs, r, level), cfg)
  {
    RenderAllConcat(if |vs| > 0 then [BlankLine(level)] else [], VariableItems(vs, r, level), cfg);
    RenderOptional(|vs| > 0, BlankLine(level), cfg);
  }

  /** The body's text: the four member blocks, in order. */
  function BodyText(x: Extension, cfg: Configuration, r: Rendering, level: nat): string {
    RenderAll(TypeDefinitionBlock(x.typeDefinitions, x.isPublic, r, level), cfg)
    + RenderAll(VariableBlock(x.typeVariables, r, level), cfg)
    + RenderAll(FunctionBlock(x.typeFunctions, x.isPublic, true, r, level), cfg)
    + RenderAll(FunctionBlock(x.functions, x.isPublic, false, r, level), cfg)
  }

  /** The closing brace and the `#endif` lines. */
  function EndText(x: Extension, cfg: Configuration, level: nat): string {
    Render(Line(level, "}"), cfg) + ClosingGuardsText(x, cfg, level)
  }

  lemma RenderBody(x: Extension, cfg: Configuration, r: Rendering, level: nat)
    ensures RenderAll(BodyLines(x, r, level), cfg) == BodyText(x, cfg, r, level)
  {
    var a := TypeDefinitionBlock(x.typeDefinitions, x.isPublic, r, level);
    var b := VariableBlock(x.typeVariables, r, level);
    var c := FunctionBlock(x.typeFunctions, x.isPublic, true, r, level);
    var d := FunctionBlock(x.functions, x.isPublic, false, r, level);
    RenderAllConcat(a + b + c, d, cfg);
    RenderAllConcat(a + b, c, cfg);
    RenderAllConcat(a, b, cfg);
  }

  /** The header line up to the brace: indentation, `public `, `extension `, the type, the conformances. */
  function HeaderLineText(x: Extension, cfg: Configuration, r: Rendering, level: nat): string {
    Indentation(cfg, level) + VisibilityPrefix(x) + ExtensionKeyword + r.typeName(x.extendedType) + ConformanceClause(x, cfg, r)
  }

  /** Everything up to and including the opening brace's line. */
  function OpeningText(x: Extension, cfg: Configuration, r: Rendering, level: nat): string {
    OpeningGuardsText(x, cfg, level) + HeaderLineText(x, cfg, r, level) + BraceText(x, cfg, r, level)
  }

  /** The body, one level deeper, then the closing brace and the `#endif` lines. */
  function ClosingText(x: Extension, cfg: Configuration, r: Rendering, level: nat): string {
    BodyText(x, cfg, r, level + 1) + EndText(x, cfg, level)
  }

  /**
   * The buffer after `generateExtension(x)` on buffer `s` at indentation
   * `level`, in the order the emitter writes it. `AfterExtensionLayout`
   * shows this is the buffer followed by the rendering of `ExtensionLines`.
   */
  function AfterExtension(s: string, x: Extension, cfg: Configuration, r: Rendering, level: nat): string {
    s + LineBreakBefore(s, cfg) + OpeningText(x, cfg, r, level) + ClosingText(x, cfg, r, level)
  }

  lemma RenderOpening(x: Extension, cfg: Configuration, r: Rendering, level: nat)
    ensures RenderAll(OpeningGuards(x, level) + AvailabilityLines(x, level) + HeaderLines(x, cfg, r, level), cfg)
         == OpeningText(x, cfg, r, level)
  {
    var a := OpeningGuards(x, level) + AvailabilityLines(x, level);
    RenderAllConcat(a, HeaderLines(x, cfg, r, level), cfg);
    RenderOpeningGuards(x, cfg, level);
    RenderHeaderLines(OpeningGuardsText(x, cfg, level), x, cfg, r, level);
    Associate5(OpeningGuardsText(x, cfg, level), Indentation(cfg, level), VisibilityPrefix(x), ExtensionKeyword,
               r.typeName(x.extendedType), ConformanceClause(x, cfg, r));
  }

  lemma RenderClosing(x: Extension, cfg: Configuration, r: Rendering, level: nat)
    ensures RenderAll(BodyLines(x, r, level + 1) + [Line(level, "}")] + ClosingGuards(x, level), cfg)
         == ClosingText(x, cfg, r, level)
  {
    var c := BodyLines(x, r, level + 1);
    var d := [Line(level, "}")];
    var e := ClosingGuards(x, level);
    RenderAllConcat(c + d, e, cfg);
    RenderAllConcat(c, d, cfg);
    RenderBody(x, cfg, r, level + 1);
    RenderSingle(Line(level, "}"), cfg);
    RenderClosingGuards(x, cfg, level);
    AppendAssoc(BodyText(x, cfg, r, level + 1), Render(Line(level, "}"), cfg), ClosingGuardsText(x, cfg, level));
  }

  lemma AfterExtensionLayout(s: string, x: Extension, cfg: Configuration, r: Rendering, level: nat)
    ensures AfterExtension(s, x, cfg, r, level) == s + LineBreakBefore(s, cfg) + RenderAll(ExtensionLines(x, cfg, r, level), cfg)
  {
    var opening := OpeningGuards(x, level) + AvailabilityLines(x, level) + HeaderLines(x, cfg, r, level);
    var closing := BodyLines(x, r, level + 1) + [Line(level, "}")] + ClosingGuards(x, level);
    assert ExtensionLines(x, cfg, r, level) == opening + closing;
    RenderAllConcat(opening, closing, cfg);
    RenderOpening(x, cfg, r, level);
    RenderClosing(x, cfg, r, level);
    AppendAssoc(s + LineBreakBefore(s, cfg), OpeningText(x, cfg, r, level), ClosingText(x, cfg, r, level));
  }
}
