/**
 * Properties of the output buffer across a call of `generateExtension`:
 * the line end written first, that the buffer only grows, and that the
 * output ends a line so that a following emission starts on a fresh one.
 */
module Buffer {
  import opened Wrappers
  import opened Strings
  import opened Declarations
  import opened Layout

  /** After the line break the buffer is empty or ends a line. */
  lemma AfterLineBreak(s: string, cfg: Configuration)
    ensures var t := s + LineBreakBefore(s, cfg);
            t == "" || EndsWith(t, cfg.eol)
  {
    if |s| > 0 && !EndsWith(s, cfg.eol) {
      EndsWithConcat(s, cfg.eol);
    } else {
      assert s + LineBreakBefore(s, cfg) == s;
    }
  }

  /** Adding the missing line break twice adds it once. */
  lemma LineBreakIdempotent(s: string, cfg: Configuration)
    ensures LineBreakBefore(s + LineBreakBefore(s, cfg), cfg) == ""
  {
    AfterLineBreak(s, cfg);
  }

  lemma PrefixOfFour(s: string, a: string, b: string, c: string)
    ensures StartsWith(s + a + b + c, s)
  {
    assert (s + a + b + c)[..|s|] == s;
  }

  /** The buffer is only appended to. */
  lemma AfterExtensionExtends(s: string, x: Extension, cfg: Configuration, r: Rendering, level: nat)
    ensures StartsWith(AfterExtension(s, x, cfg, r, level), s)
  {
    PrefixOfFour(s, LineBreakBefore(s, cfg), OpeningText(x, cfg, r, level), ClosingText(x, cfg, r, level));
  }

  lemma RenderedLineEnds(level: nat, text: string, cfg: Configuration)
    ensures EndsWith(Render(Line(level, text), cfg), cfg.eol)
  {
    EndsWithConcat(Indentation(cfg, level) + text, cfg.eol);
  }

  lemma ClosingGuardsTextEnds(x: Extension, cfg: Configuration, level: nat)
    ensures ClosingGuardsText(x, cfg, level) == "" || EndsWith(ClosingGuardsText(x, cfg, level), cfg.eol)
  {
    var imports := if |x.requiredImports| > 0 then Render(Line(level, ImportsEndif), cfg) else "";
    if x.minimumSwiftVersion.Some? {
      var text := "#endif // " + SwiftCondition(x.minimumSwiftVersion.value);
      RenderedLineEnds(level, text, cfg);
      EndsWithExtend(imports, Render(Line(level, text), cfg), cfg.eol);
    } else if |x.requiredImports| > 0 {
      RenderedLineEnds(level, ImportsEndif, cfg);
      assert ClosingGuardsText(x, cfg, level) == imports;
    }
  }

  lemma EndsWithEither(a: string, b: string, suffix: string)
    requires EndsWith(a, suffix)
    requires b == "" || EndsWith(b, suffix)
    ensures EndsWith(a + b, suffix)
  {
    if b == "" {
      assert a + b == a;
    } else {
      EndsWithExtend(a, b, suffix);
    }
  }

  lemma EndTextEnds(x: Extension, cfg: Configuration, level: nat)
    ensures EndsWith(EndText(x, cfg, level), cfg.eol)
  {
    RenderedLineEnds(level, "}", cfg);
    ClosingGuardsTextEnds(x, cfg, level);
    EndsWithEither(Render(Line(level, "}"), cfg), ClosingGuardsText(x, cfg, level), cfg.eol);
  }

  /** The emitted extension ends with a line end. */
  lemma AfterExtensionEndsLine(s: string, x: Extension, cfg: Configuration, r: Rendering, level: nat)
    ensures EndsWith(AfterExtension(s, x, cfg, r, level), cfg.eol)
  {
    EndTextEnds(x, cfg, level);
    EndsWithExtend(BodyText(x, cfg, r, level + 1), EndText(x, cfg, level), cfg.eol);
    EndsWithExtend(s + LineBreakBefore(s, cfg) + OpeningText(x, cfg, r, level), ClosingText(x, cfg, r, level), cfg.eol);
  }

  /**
   * Two extensions emitted back to back are not separated by an extra line
   * end: the second one starts right after the first one's closing line.
   */
  lemma BackToBack(s: string, x: Extension, y: Extension, cfg: Configuration, r: Rendering, level: nat)
    ensures var t := AfterExtension(s, x, cfg, r, level);
            AfterExtension(t, y, cfg, r, level) == t + OpeningText(y, cfg, r, level) + ClosingText(y, cfg, r, level)
  {
    var t := AfterExtension(s, x, cfg, r, level);
    AfterExtensionEndsLine(s, x, cfg, r, level);
    assert LineBreakBefore(t, cfg) == "";
    assert t + LineBreakBefore(t, cfg) == t;
  }
}
