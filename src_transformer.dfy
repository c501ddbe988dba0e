/** The variant under `src/`: `transform` rewrites a class exactly when it is registered;
    its name plays no part. */
module SrcTransformer {
  import opened Instrumentation

  /** `transform(loader, className, cls, protectionDomain, origBytes)`; the loader and the
      protection domain do not affect it and are left out. The name, which may be null, is
      never read. */
  function Transform(transformMe: set<ClassId>, className: Option<string>, cls: Option<ClassId>,
                     origBytes: seq<byte>, instrument: Rewriter): (o: Outcome)
    ensures cls.None? ==> o == Failed(NullPointerException)
    ensures cls.Some? && cls.value !in transformMe ==> o == NoChange
    ensures cls.Some? && cls.value in transformMe ==> o == Instrument(instrument, origBytes)
  {
    match Contains(transformMe, cls)
    case Err(e) => Failed(e)
    case Ok(false) => NoChange
    case Ok(true) => Instrument(instrument, origBytes)
  }

  /** The decision ignores the class name: any two names, a missing one included, give the
      same outcome, so a registered `sandbox/` class is rewritten like any other. */
  lemma NameIrrelevant(transformMe: set<ClassId>, name1: Option<string>, name2: Option<string>,
                       cls: Option<ClassId>, origBytes: seq<byte>, instrument: Rewriter)
    ensures Transform(transformMe, name1, cls, origBytes, instrument)
         == Transform(transformMe, name2, cls, origBytes, instrument)
  {
  }

  /** New bytes come back exactly when the class is registered and the rewriter succeeds. */
  lemma RewrittenExactlyWhenRegistered(transformMe: set<ClassId>, className: Option<string>,
                                       cls: Option<ClassId>, origBytes: seq<byte>,
                                       instrument: Rewriter)
    ensures Transform(transformMe, className, cls, origBytes, instrument).Rewritten? <==>
            cls.Some? && cls.value in transformMe && instrument(origBytes).Ok?
  {
  }

  /** Every outcome is `null`, the rewriter's result, or the membership test's exception;
      a replacement is always the rewriter's output, never the original bytes as a fallback. */
  lemma NoSilentFallback(transformMe: set<ClassId>, className: Option<string>, cls: Option<ClassId>,
                         origBytes: seq<byte>, instrument: Rewriter)
    ensures var o := Transform(transformMe, className, cls, origBytes, instrument);
            o == NoChange || o == Failed(NullPointerException) || o == Instrument(instrument, origBytes)
    ensures var o := Transform(transformMe, className, cls, origBytes, instrument);
            o.Rewritten? ==> instrument(origBytes) == Ok(o.bytes)
    ensures Transform(transformMe, className, cls, origBytes, instrument) == Rewritten(origBytes) ==>
              instrument(origBytes) == Ok(origBytes)
  {
  }

  /** A `RuntimeException` or `StackOverflowError` (or any other failure) of a rewrite the
      gate asked for reaches the caller unchanged. */
  lemma RewriteFailurePropagates(transformMe: set<ClassId>, className: Option<string>, c: ClassId,
                                 origBytes: seq<byte>, instrument: Rewriter)
    requires c in transformMe
    requires instrument(origBytes).Err?
    ensures Transform(transformMe, className, Some(c), origBytes, instrument)
         == Failed(instrument(origBytes).error)
  {
  }

  /** Registering more classes never stops a class from being rewritten, and registering
      another class does not change what happens to this one. */
  lemma RegistrationMonotone(transformMe: set<ClassId>, added: ClassId, className: Option<string>,
                             cls: Option<ClassId>, origBytes: seq<byte>, instrument: Rewriter)
    ensures var before := Transform(transformMe, className, cls, origBytes, instrument);
            var after := Transform(transformMe + {added}, className, cls, origBytes, instrument);
            (before != NoChange ==> after == before) &&
            (cls != Some(added) ==> after == before)
  {
  }
}
