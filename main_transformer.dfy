/** The variant under `Main/`: `transform` first skips four families of classes by the prefix
    of their binary name, then skips classes that are not registered, and rewrites the rest. */
module MainTransformer {
  import opened Instrumentation
  import opened Names

  /** The prefixes tested, in order, before the registration set is consulted. */
  const ExcludedPrefixes: seq<string> :=
    ["java/lang/ThreadLocal", "java/lang/Class", "java/lang/reflect/Array", "sandbox/"]

  /** A class the transformer never touches, whatever the registration set holds. */
  predicate Excluded(className: string)
  {
    exists prefix :: prefix in ExcludedPrefixes && StartsWith(className, prefix)
  }

  /** `transform(loader, className, cls, protectionDomain, origBytes)`; the loader and the
      protection domain do not affect it and are left out. A class loader may define a class
      without a name, and then `className` is null and the first `startsWith` call throws. */
  function Transform(transformMe: set<ClassId>, className: Option<string>, cls: Option<ClassId>,
                     origBytes: seq<byte>, instrument: Rewriter): (o: Outcome)
    ensures className.None? ==> o == Failed(NullPointerException)
    ensures className.Some? && Excluded(className.value) ==> o == NoChange
    ensures className.Some? && !Excluded(className.value) && cls.None? ==>
              o == Failed(NullPointerException)
    ensures className.Some? && !Excluded(className.value) && cls.Some? && cls.value !in transformMe ==>
              o == NoChange
    ensures className.Some? && !Excluded(className.value) && cls.Some? && cls.value in transformMe ==>
              o == Instrument(instrument, origBytes)
  {
    match className
    case None => Failed(NullPointerException)
    case Some(name) =>
      if StartsWith(name, ExcludedPrefixes[0]) then NoChange
      else if StartsWith(name, ExcludedPrefixes[1]) then NoChange
      else if StartsWith(name, ExcludedPrefixes[2]) then NoChange
      else if StartsWith(name, ExcludedPrefixes[3]) then NoChange
      else
        match Contains(transformMe, cls)
        case Err(e) => Failed(e)
        case Ok(false) => NoChange
        case Ok(true) => Instrument(instrument, origBytes)
  }

  /** A missing name throws before any prefix or membership test, whatever the registration
      set, the class identity, the bytes and the rewriter are. */
  lemma NullNameThrows(transformMe: set<ClassId>, cls: Option<ClassId>, origBytes: seq<byte>,
                       instrument: Rewriter)
    ensures Transform(transformMe, None, cls, origBytes, instrument) == Failed(NullPointerException)
    ensures Transform(transformMe, None, cls, origBytes, instrument)
         == Transform({}, None, None, [], instrument)
  {
  }

  /** Every name that extends an excluded name is excluded too: exclusion is by prefix. */
  lemma ExclusionIsPrefixClosed(className: string, longer: string)
    requires Excluded(className) && StartsWith(longer, className)
    ensures Excluded(longer)
  {
    var prefix :| prefix in ExcludedPrefixes && StartsWith(className, prefix);
    StartsWithTransitive(longer, className, prefix);
  }

  /** Any name made by appending to an excluded prefix is excluded. */
  lemma ExcludedPrefixExtended(i: nat, suffix: string)
    requires i < |ExcludedPrefixes|
    ensures Excluded(ExcludedPrefixes[i] + suffix)
  {
    StartsWithSelf(ExcludedPrefixes[i]);
    StartsWithExtended(ExcludedPrefixes[i], ExcludedPrefixes[i], suffix);
  }

  /** `java/lang/ClassLoader` is skipped because it starts with `java/lang/Class`. */
  lemma ClassLoaderIsExcluded()
    ensures Excluded("java/lang/ClassLoader")
  {
    var name := "java/lang/ClassLoader";
    StartsWithIsPrefix(name, ExcludedPrefixes[1]);
    assert name[..15] == ExcludedPrefixes[1];
  }

  /** A name outside all four families is not excluded. */
  lemma ApplicationClassNotExcluded()
    ensures !Excluded("app/Widget")
  {
  }

  /** Exclusion takes priority over registration: an excluded class gives `null` for every
      registration set and every class identity, so presenting it again changes nothing. */
  lemma ExclusionOverridesRegistration(transformMe: set<ClassId>, className: string,
                                       cls: Option<ClassId>, origBytes: seq<byte>,
                                       instrument: Rewriter)
    requires Excluded(className)
    ensures Transform(transformMe, Some(className), cls, origBytes, instrument) == NoChange
    ensures Transform(transformMe, Some(className), cls, origBytes, instrument)
         == Transform({}, Some(className), None, [], instrument)
  {
  }

  /** New bytes come back exactly when the name is present and not excluded, the class is registered
      and the rewriter succeeds. */
  lemma RewrittenExactlyWhenRegistered(transformMe: set<ClassId>, className: Option<string>,
                                       cls: Option<ClassId>, origBytes: seq<byte>,
                                       instrument: Rewriter)
    ensures Transform(transformMe, className, cls, origBytes, instrument).Rewritten? <==>
            className.Some? && !Excluded(className.value) && cls.Some? && cls.value in transformMe &&
            instrument(origBytes).Ok?
  {
  }

  /** Every outcome is `null`, the rewriter's result, or a `NullPointerException` from a missing
      name or class;
      a replacement is always the rewriter's output, never the original bytes as a fallback. */
  lemma NoSilentFallback(transformMe: set<ClassId>, className: Option<string>, cls: Option<ClassId>,
                         origBytes: seq<byte>, instrument: Rewriter)
    ensures var o := Transform(transformMe, className, cls, origBytes, instrument);
            o == NoChange || o == Failed(NullPointerException) || o == Instrument(instrument, origBytes)
    ensures var o := Transform(transformMe, className, cls, origBytes, instrument);
            o.Rewritten? ==> instrument(origBytes) == Ok(o.bytes)
    ensures Transform(transformMe, className, cls, origBytes, instrument) == Rewritten(origBytes) ==>
              instrument(origBytes) == Ok(origBytes)
  {
  }

  /** A failure of a rewrite the gate asked for reaches the caller unchanged: it is neither
      turned into `null` nor into the original bytes. */
  lemma RewriteFailurePropagates(transformMe: set<ClassId>, className: string, c: ClassId,
                                 origBytes: seq<byte>, instrument: Rewriter)
    requires !Excluded(className) && c in transformMe
    requires instrument(origBytes).Err?
    ensures Transform(transformMe, Some(className), Some(c), origBytes, instrument)
         == Failed(instrument(origBytes).error)
  {
  }

  /** Registering more classes never stops a class from being rewritten, and registering
      another class does not change what happens to this one. */
  lemma RegistrationMonotone(transformMe: set<ClassId>, added: ClassId, className: Option<string>,
                             cls: Option<ClassId>, origBytes: seq<byte>, instrument: Rewriter)
    ensures var before := Transform(transformMe, className, cls, origBytes, instrument);
            var after := Transform(transformMe + {added}, className, cls, origBytes, instrument);
            (before != NoChange ==> after == before) &&
            (cls != Some(added) ==> after == before)
  {
  }
}
