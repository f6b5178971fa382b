/**
 * Properties of the extension's header: the access keyword, the
 * conformance list, the generic `where` clause and where the opening brace
 * goes, the availability attribute, and the text of the guard conditions.
 */
module Header {
  import opened Wrappers
  import opened Strings
  import opened Declarations
  import opened Layout
  import opened Guards

  /** Index of the first header line: after the `#if` lines and the availability line. */
  function HeaderIndex(x: Extension): nat {
    |GuardConditions(x)| + if ConcurrencyModule in x.requiredImports then 1 else 0
  }

  lemma OpeningGuardsLength(x: Extension, level: nat)
    ensures |OpeningGuards(x, level)| + |AvailabilityLines(x, level)| == HeaderIndex(x)
  {
  }

  lemma InThird<T>(a: seq<T>, b: seq<T>, c: seq<T>, d: seq<T>, e: seq<T>, f: seq<T>, k: nat)
    requires k < |c|
    ensures |a| + |b| + k < |a + b + c + d + e + f|
    ensures (a + b + c + d + e + f)[|a| + |b| + k] == c[k]
  {
    assert (a + b + c + d + e + f) == (a + b) + c + (d + e + f);
  }

  lemma InFirst<T>(a: seq<T>, b: seq<T>, c: seq<T>, d: seq<T>, e: seq<T>, f: seq<T>, k: nat)
    requires k < |a|
    ensures (a + b + c + d + e + f)[k] == a[k]
  {
    assert (a + b + c + d + e + f) == a + (b + c + d + e + f);
  }

  lemma InSecond<T>(a: seq<T>, b: seq<T>, c: seq<T>, d: seq<T>, e: seq<T>, f: seq<T>, k: nat)
    requires k < |b|
    ensures (a + b + c + d + e + f)[|a| + k] == b[k]
  {
    assert (a + b + c + d + e + f) == a + b + (c + d + e + f);
  }

  lemma InLast<T>(a: seq<T>, b: seq<T>, c: seq<T>, d: seq<T>, e: seq<T>, f: seq<T>, k: nat)
    requires k < |f|
    ensures |a + b + c + d + e| + k < |a + b + c + d + e + f|
    ensures (a + b + c + d + e + f)[|a + b + c + d + e| + k] == f[k]
  {
  }

  /** `public ` opens the header exactly for a public extension that declares no conformance. */
  lemma PublicKeywordIff(x: Extension, cfg: Configuration, r: Rendering)
    ensures StartsWith(HeaderText(x, cfg, r), PublicKeyword) <==> x.isPublic && |x.conformances| == 0
  {
    var rest := ExtensionKeyword + r.typeName(x.extendedType) + ConformanceClause(x, cfg, r);
    assert HeaderText(x, cfg, r) == VisibilityPrefix(x) + rest;
    if x.isPublic && |x.conformances| == 0 {
      StartsWithConcat(PublicKeyword, rest);
    } else {
      assert HeaderText(x, cfg, r) == rest;
      FirstCharRulesOut(rest, PublicKeyword);
    }
  }

  /** After the optional keyword comes `extension ` and the extended type's name. */
  lemma HeaderNamesExtendedType(x: Extension, cfg: Configuration, r: Rendering)
    ensures StartsWith(HeaderText(x, cfg, r), VisibilityPrefix(x) + ExtensionKeyword + r.typeName(x.extendedType))
  {
    StartsWithConcat(VisibilityPrefix(x) + ExtensionKeyword + r.typeName(x.extendedType), ConformanceClause(x, cfg, r));
  }

  lemma TypeNamesSlices(r: Rendering, ts: seq<TypeReference>, i: nat)
    requires i <= |ts|
    ensures TypeNames(r, ts[..i]) == TypeNames(r, ts)[..i]
    ensures TypeNames(r, ts[i..]) == TypeNames(r, ts)[i..]
  {
  }

  /** Without conformances the header ends right after the type name. */
  lemma NoConformanceNoClause(x: Extension, cfg: Configuration, r: Rendering)
    requires |x.conformances| == 0
    ensures HeaderText(x, cfg, r) == VisibilityPrefix(x) + ExtensionKeyword + r.typeName(x.extendedType)
  {
  }

  /** A single conformance follows the conformance separator directly. */
  lemma SingleConformance(x: Extension, cfg: Configuration, r: Rendering)
    requires |x.conformances| == 1
    ensures ConformanceClause(x, cfg, r) == cfg.typeConformanceSeparator + r.typeName(x.conformances[0])
  {
  }

  /**
   * The conformances appear in their declared order: cutting the list after
   * the `i`-th one cuts the clause at one list separator, with the first `i`
   * conformances before it and the rest after it.
   */
  lemma ConformancesInOrder(x: Extension, cfg: Configuration, r: Rendering, i: nat)
    requires 0 < i < |x.conformances|
    ensures ConformanceClause(x, cfg, r)
         == cfg.typeConformanceSeparator + Joined(TypeNames(r, x.conformances[..i]), cfg.identifierListSeparator)
            + cfg.identifierListSeparator + Joined(TypeNames(r, x.conformances[i..]), cfg.identifierListSeparator)
  {
    var names := TypeNames(r, x.conformances);
    var sep := cfg.identifierListSeparator;
    JoinedSplit(names, sep, i);
    TypeNamesSlices(r, x.conformances, i);
    AppendAssoc(cfg.typeConformanceSeparator, Joined(names[..i], sep) + sep, Joined(names[i..], sep));
    AppendAssoc(cfg.typeConformanceSeparator, Joined(names[..i], sep), sep);
  }

  /** The clause opens with the separator and the first conformance. */
  lemma ConformancesStartWithFirst(x: Extension, cfg: Configuration, r: Rendering)
    requires |x.conformances| > 0
    ensures StartsWith(ConformanceClause(x, cfg, r), cfg.typeConformanceSeparator + r.typeName(x.conformances[0]))
  {
    var names := TypeNames(r, x.conformances);
    var joined := Joined(names, cfg.identifierListSeparator);
    JoinedStartsWithFirst(names, cfg.identifierListSeparator);
    assert joined == names[0] + joined[|names[0]|..];
    AppendAssoc(cfg.typeConformanceSeparator, names[0], joined[|names[0]|..]);
    StartsWithConcat(cfg.typeConformanceSeparator + names[0], joined[|names[0]|..]);
  }

  /**
   * With generic constraints the header line ends bare, the `where` clause
   * follows one level deeper and the brace comes on a line of its own.
   */
  lemma BraceAfterWhereClause(x: Extension, cfg: Configuration, r: Rendering, level: nat)
    requires |x.genericConstraints| > 0
    ensures var es := ExtensionLines(x, cfg, r, level);
            var h := HeaderIndex(x);
            h + 2 < |es|
            && es[h] == Line(level, HeaderText(x, cfg, r))
            && es[h + 1] == Line(level + 1, WhereClause(x, cfg, r))
            && es[h + 2] == Line(level, "{")
  {
    var og := OpeningGuards(x, level);
    var av := AvailabilityLines(x, level);
    var hl := HeaderLines(x, cfg, r, level);
    var bl := BodyLines(x, r, level + 1);
    var cg := ClosingGuards(x, level);
    OpeningGuardsLength(x, level);
    InThird(og, av, hl, bl, [Line(level, "}")], cg, 0);
    InThird(og, av, hl, bl, [Line(level, "}")], cg, 1);
    InThird(og, av, hl, bl, [Line(level, "}")], cg, 2);
  }

  /** Without generic constraints the brace ends the header line. */
  lemma BraceOnHeaderLine(x: Extension, cfg: Configuration, r: Rendering, level: nat)
    requires |x.genericConstraints| == 0
    ensures var es := ExtensionLines(x, cfg, r, level);
            var h := HeaderIndex(x);
            h < |es| && es[h] == Line(level, HeaderText(x, cfg, r) + " {")
  {
    var og := OpeningGuards(x, level);
    var av := AvailabilityLines(x, level);
    var hl := HeaderLines(x, cfg, r, level);
    var bl := BodyLines(x, r, level + 1);
    var cg := ClosingGuards(x, level);
    OpeningGuardsLength(x, level);
    InThird(og, av, hl, bl, [Line(level, "}")], cg, 0);
  }

  lemma ConstraintNamesSlices(r: Rendering, cs: seq<GenericConstraint>, i: nat)
    requires i <= |cs|
    ensures ConstraintNames(r, cs[..i]) == ConstraintNames(r, cs)[..i]
    ensures ConstraintNames(r, cs[i..]) == ConstraintNames(r, cs)[i..]
  {
  }

  /** The `where` clause lists the constraints in their declared order. */
  lemma ConstraintsInOrder(x: Extension, cfg: Configuration, r: Rendering, i: nat)
    requires 0 < i < |x.genericConstraints|
    ensures WhereClause(x, cfg, r)
         == "where " + Joined(ConstraintNames(r, x.genericConstraints[..i]), cfg.identifierListSeparator)
            + cfg.identifierListSeparator + Joined(ConstraintNames(r, x.genericConstraints[i..]), cfg.identifierListSeparator)
  {
    var names := ConstraintNames(r, x.genericConstraints);
    var sep := cfg.identifierListSeparator;
    JoinedSplit(names, sep, i);
    ConstraintNamesSlices(r, x.genericConstraints, i);
    AppendAssoc("where ", Joined(names[..i], sep) + sep, Joined(names[i..], sep));
    AppendAssoc("where ", Joined(names[..i], sep), sep);
  }

  lemma OpeningGuardsStartWithHash(x: Extension, level: nat, k: nat)
    requires k < |OpeningGuards(x, level)|
    ensures IsIf(OpeningGuards(x, level)[k])
    ensures OpeningGuards(x, level)[k].text[0] == '#'
  {
    OpeningGuardsAreIfLines(x, level);
    var c := GuardConditions(x)[k];
    StartsWithConcat(IfPrefix, c);
  }

  lemma NotAvailabilityLine(level: nat, text: string)
    requires |text| > 0 && text[0] != '@'
    ensures Line(level, text) != Line(level, AvailabilityAttribute)
  {
    assert AvailabilityAttribute[0] == '@';
  }

  lemma OpeningGuardsLackAvailability(x: Extension, level: nat)
    ensures Line(level, AvailabilityAttribute) !in OpeningGuards(x, level)
  {
    forall k | 0 <= k < |OpeningGuards(x, level)|
      ensures OpeningGuards(x, level)[k] != Line(level, AvailabilityAttribute)
    {
      OpeningGuardsStartWithHash(x, level, k);
      assert AvailabilityAttribute[0] == '@';
    }
  }

  lemma HeaderLinesLackAvailability(x: Extension, cfg: Configuration, r: Rendering, level: nat)
    ensures Line(level, AvailabilityAttribute) !in HeaderLines(x, cfg, r, level)
  {
    var rest := ExtensionKeyword + r.typeName(x.extendedType) + ConformanceClause(x, cfg, r);
    assert HeaderText(x, cfg, r) == VisibilityPrefix(x) + rest;
    assert HeaderText(x, cfg, r)[0] != '@';
    NotAvailabilityLine(level, HeaderText(x, cfg, r));
    NotAvailabilityLine(level, HeaderText(x, cfg, r) + " {");
    NotAvailabilityLine(level + 1, WhereClause(x, cfg, r));
    NotAvailabilityLine(level, "{");
  }

  lemma ClosingGuardsLackAvailability(x: Extension, level: nat)
    ensures Line(level, AvailabilityAttribute) !in ClosingGuards(x, level)
  {
    NotAvailabilityLine(level, ImportsEndif);
    if x.minimumSwiftVersion.Some? {
      NotAvailabilityLine(level, EndifPrefix + SwiftCondition(x.minimumSwiftVersion.value));
    }
  }

  lemma BodyLacksAvailability(x: Extension, r: Rendering, level: nat, line: Emitted)
    requires line.Line?
    ensures line !in BodyLines(x, r, level)
  {
    BodyLinesNoOwnLines(x, r, level);
  }

  /**
   * The availability attribute is written exactly when `_Concurrency` is
   * among the required imports.
   */
  lemma AvailabilityIff(x: Extension, cfg: Configuration, r: Rendering, level: nat)
    ensures Line(level, AvailabilityAttribute) in ExtensionLines(x, cfg, r, level)
            <==> ConcurrencyModule in x.requiredImports
  {
    var line := Line(level, AvailabilityAttribute);
    var og := OpeningGuards(x, level);
    var av := AvailabilityLines(x, level);
    var hl := HeaderLines(x, cfg, r, level);
    var bl := BodyLines(x, r, level + 1);
    var cg := ClosingGuards(x, level);
    assert ExtensionLines(x, cfg, r, level) == og + av + hl + bl + [Line(level, "}")] + cg;
    if ConcurrencyModule in x.requiredImports {
      InSecond(og, av, hl, bl, [Line(level, "}")], cg, 0);
    } else {
      OpeningGuardsLackAvailability(x, level);
      HeaderLinesLackAvailability(x, cfg, r, level);
      BodyLacksAvailability(x, r, level + 1, line);
      NotAvailabilityLine(level, "}");
      ClosingGuardsLackAvailability(x, level);
    }
  }

  /** When written, the attribute comes after every `#if` line and right before the header. */
  lemma AvailabilityPlacement(x: Extension, cfg: Configuration, r: Rendering, level: nat)
    requires ConcurrencyModule in x.requiredImports
    ensures var es := ExtensionLines(x, cfg, r, level);
            var h := HeaderIndex(x);
            0 < h < |es|
            && (forall k :: 0 <= k < h - 1 ==> IsIf(es[k]))
            && es[h - 1] == Line(level, AvailabilityAttribute)
            && es[h].Line? && es[h].level == level && StartsWith(es[h].text, HeaderText(x, cfg, r))
  {
    var es := ExtensionLines(x, cfg, r, level);
    var og := OpeningGuards(x, level);
    var av := AvailabilityLines(x, level);
    var hl := HeaderLines(x, cfg, r, level);
    var bl := BodyLines(x, r, level + 1);
    var cg := ClosingGuards(x, level);
    OpeningGuardsLength(x, level);
    forall k | 0 <= k < |og|
      ensures IsIf(es[k])
    {
      InFirst(og, av, hl, bl, [Line(level, "}")], cg, k);
      OpeningGuardsStartWithHash(x, level, k);
    }
    InSecond(og, av, hl, bl, [Line(level, "}")], cg, 0);
    InThird(og, av, hl, bl, [Line(level, "}")], cg, 0);
    StartsWithConcat(HeaderText(x, cfg, r), " {");
  }

  lemma CanImportsSlices(imports: seq<string>, i: nat)
    requires i <= |imports|
    ensures CanImports(imports[..i]) == CanImports(imports)[..i]
    ensures CanImports(imports[i..]) == CanImports(imports)[i..]
  {
  }

  /** One import gives the single condition `canImport(name)`. */
  lemma SingleImportCondition(name: string)
    ensures ImportsCondition([name]) == "canImport(" + name + ")"
  {
  }

  /** The imports are tested in their declared order, joined by ` && `. */
  lemma ImportsConditionSplit(imports: seq<string>, i: nat)
    requires 0 < i < |imports|
    ensures ImportsCondition(imports) == ImportsCondition(imports[..i]) + " && " + ImportsCondition(imports[i..])
  {
    JoinedSplit(CanImports(imports), " && ", i);
    CanImportsSlices(imports, i);
  }

  /** Two version guards have the same text only for the same major and minor version. */
  lemma SwiftConditionInjective(v: SwiftVersion, w: SwiftVersion)
    requires SwiftCondition(v) == SwiftCondition(w)
    ensures v == w
  {
    var p := "swift(>=";
    var a := IntToString(v.major) + "." + IntToString(v.minor);
    var b := IntToString(w.major) + "." + IntToString(w.minor);
    assert SwiftCondition(v) == p + a + ")";
    assert SwiftCondition(w) == p + b + ")";
    assert a == SwiftCondition(v)[|p|..|SwiftCondition(v)| - 1];
    assert b == SwiftCondition(w)[|p|..|SwiftCondition(w)| - 1];
    NoDotInIntToString(v.major);
    NoDotInIntToString(w.major);
    SplitAtDot(IntToString(v.major), IntToString(v.minor), IntToString(w.major), IntToString(w.minor));
    ParseIntRoundTrip(v.major);
    ParseIntRoundTrip(w.major);
    ParseIntRoundTrip(v.minor);
    ParseIntRoundTrip(w.minor);
  }

  /**
   * The Swift version guard is the first line written and its `#endif`,
   * naming the same condition, the last.
   */
  lemma SwiftGuardPlacement(x: Extension, cfg: Configuration, r: Rendering, level: nat)
    requires x.minimumSwiftVersion.Some?
    ensures var es := ExtensionLines(x, cfg, r, level);
            |es| >= 2
            && es[0] == Line(level, IfPrefix + SwiftCondition(x.minimumSwiftVersion.value))
            && es[|es| - 1] == Line(level, EndifPrefix + SwiftCondition(x.minimumSwiftVersion.value))
  {
    var og := OpeningGuards(x, level);
    var av := AvailabilityLines(x, level);
    var hl := HeaderLines(x, cfg, r, level);
    var bl := BodyLines(x, r, level + 1);
    var cg := ClosingGuards(x, level);
    InFirst(og, av, hl, bl, [Line(level, "}")], cg, 0);
    InLast(og, av, hl, bl, [Line(level, "}")], cg, |cg| - 1);
  }

  /**
   * The imports guard is opened right after the version guard, if any, and
   * closed with `#endif // required canImports` right before the version's
   * `#endif`, so it nests inside it.
   */
  lemma ImportsGuardPlacement(x: Extension, cfg: Configuration, r: Rendering, level: nat)
    requires |x.requiredImports| > 0
    ensures var es := ExtensionLines(x, cfg, r, level);
            var k := if x.minimumSwiftVersion.Some? then 1 else 0;
            k < |es| - 1 - k
            && es[k] == Line(level, IfPrefix + ImportsCondition(x.requiredImports))
            && es[|es| - 1 - k] == Line(level, ImportsEndif)
  {
    var og := OpeningGuards(x, level);
    var av := AvailabilityLines(x, level);
    var hl := HeaderLines(x, cfg, r, level);
    var bl := BodyLines(x, r, level + 1);
    var cg := ClosingGuards(x, level);
    var k := if x.minimumSwiftVersion.Some? then 1 else 0;
    assert |hl| > 0;
    InFirst(og, av, hl, bl, [Line(level, "}")], cg, k);
    InLast(og, av, hl, bl, [Line(level, "}")], cg, 0);
  }
}
