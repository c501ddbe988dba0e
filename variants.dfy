/** How the two variants of `transform` relate. */
module Variants {
  import opened Instrumentation
  import MainTransformer
  import SrcTransformer

  /** On a present name outside the excluded families the two variants behave identically. */
  lemma AgreeOutsideExclusion(transformMe: set<ClassId>, className: string,
                              cls: Option<ClassId>, origBytes: seq<byte>, instrument: Rewriter)
    requires !MainTransformer.Excluded(className)
    ensures MainTransformer.Transform(transformMe, Some(className), cls, origBytes, instrument)
         == SrcTransformer.Transform(transformMe, Some(className), cls, origBytes, instrument)
  {
  }

  /** The `Main/` variant is the stricter one: every class it rewrites is rewritten, to the
      same bytes, by the `src/` variant, and on a present name whatever it does other than
      return `null` (rewrite or throw) the `src/` variant does too. */
  lemma MainRewritesAreSrcRewrites(transformMe: set<ClassId>, className: Option<string>,
                                   cls: Option<ClassId>, origBytes: seq<byte>, instrument: Rewriter)
    ensures var m := MainTransformer.Transform(transformMe, className, cls, origBytes, instrument);
            m.Rewritten? ==> m == SrcTransformer.Transform(transformMe, className, cls, origBytes, instrument)
    ensures var m := MainTransformer.Transform(transformMe, className, cls, origBytes, instrument);
            className.Some? && m != NoChange ==>
              m == SrcTransformer.Transform(transformMe, className, cls, origBytes, instrument)
  {
  }

  /** On an excluded name the `Main/` variant always gives `null`, so the variants differ
      exactly where the `src/` variant does something else: a registered class, which it hands
      to the rewriter, and an absent class, on which its membership test throws. */
  lemma DifferOnExcluded(transformMe: set<ClassId>, className: string, cls: Option<ClassId>,
                         origBytes: seq<byte>, instrument: Rewriter)
    requires MainTransformer.Excluded(className)
    ensures MainTransformer.Transform(transformMe, Some(className), cls, origBytes, instrument) == NoChange
    ensures cls.Some? && cls.value in transformMe ==>
              SrcTransformer.Transform(transformMe, Some(className), cls, origBytes, instrument)
              == Instrument(instrument, origBytes)
    ensures cls.None? ==>
              SrcTransformer.Transform(transformMe, Some(className), cls, origBytes, instrument)
              == Failed(NullPointerException)
    ensures SrcTransformer.Transform(transformMe, Some(className), cls, origBytes, instrument) == NoChange
            <==> cls.Some? && cls.value !in transformMe
  {
  }

  /** A missing name makes the `Main/` variant throw, while the `src/` variant, which never
      reads the name, rewrites a registered class as usual. */
  lemma DifferOnNullName(transformMe: set<ClassId>, c: ClassId, origBytes: seq<byte>,
                         instrument: Rewriter)
    requires c in transformMe
    ensures MainTransformer.Transform(transformMe, None, Some(c), origBytes, instrument)
         == Failed(NullPointerException)
    ensures SrcTransformer.Transform(transformMe, None, Some(c), origBytes, instrument)
         == Instrument(instrument, origBytes)
  {
  }
}
