/**
 * Properties of the whole translation: one entry per recognised child in
 * document order, diagnostics in document order, siblings translated
 * independently of each other, and the duplicate-manager check that reports
 * without stopping the build.
 */
module CacheParserProperties {
  import opened Wrappers
  import opened JavaText
  import opened Dom
  import opened CacheBeanDefinitionParser

  /** Appending the contributions of two runs of iterations is appending their parts. */
  lemma {:induction false} ConcatSplits(p: seq<Translation>, q: seq<Translation>)
    ensures Concat(p + q).entries == Concat(p).entries + Concat(q).entries
    ensures Concat(p + q).errors == Concat(p).errors + Concat(q).errors
    decreases |p|
  {
    if |p| == 0 {
      assert p + q == q;
    } else {
      assert (p + q)[1..] == p[1..] + q;
      assert (p + q)[0] == p[0];
      ConcatSplits(p[1..], q);
    }
  }

  /**
   * Translating a document split in two is translating each part and
   * concatenating: entries and diagnostics of earlier children come first,
   * and no child changes what its siblings contribute.
   */
  lemma CollectionSplits(a: seq<Element>, b: seq<Element>, env: Environment)
    ensures CreateCacheCollection(a + b, env).entries
         == CreateCacheCollection(a, env).entries + CreateCacheCollection(b, env).entries
    ensures CreateCacheCollection(a + b, env).errors
         == CreateCacheCollection(a, env).errors + CreateCacheCollection(b, env).errors
  {
    assert Contributions(a + b, env) == Contributions(a, env) + Contributions(b, env);
    ConcatSplits(Contributions(a, env), Contributions(b, env));
  }

  /** The first child's contribution comes first, then the rest's. */
  lemma CollectionUnfolds(children: seq<Element>, env: Environment)
    requires |children| > 0
    ensures CreateCacheCollection(children, env).entries
         == TranslateChild(children[0], env).entries + CreateCacheCollection(children[1..], env).entries
    ensures CreateCacheCollection(children, env).errors
         == TranslateChild(children[0], env).errors + CreateCacheCollection(children[1..], env).errors
  {
    var parts := Contributions(children, env);
    assert parts[1..] == Contributions(children[1..], env);
  }

  /** A single child contributes what its iteration contributes. */
  lemma CollectionOfOne(e: Element, env: Environment)
    ensures CreateCacheCollection([e], env).entries == TranslateChild(e, env).entries
    ensures CreateCacheCollection([e], env).errors == TranslateChild(e, env).errors
  {
    CollectionUnfolds([e], env);
    assert [e][1..] == [];
  }

  /** The i-th entry comes from the i-th recognised child, in document order. */
  lemma {:induction false} EntriesFollowRecognisedChildren(children: seq<Element>, env: Environment)
    ensures |CreateCacheCollection(children, env).entries| == |Recognised(children)|
    ensures forall i :: 0 <= i < |Recognised(children)| ==>
              IsCacheElementName(Recognised(children)[i].localName)
              && CreateCacheCollection(children, env).entries[i] == ExpectedEntry(Recognised(children)[i], env)
    decreases |children|
  {
    if |children| > 0 {
      CollectionUnfolds(children, env);
      EntriesFollowRecognisedChildren(children[1..], env);
    }
  }

  /** A child's diagnostics are the `Unknown element detected` one exactly when its tag is not recognised. */
  lemma ChildUnknownCount(e: Element)
    ensures multiset(ChildErrors(e))[UnknownElementMessage]
         == if IsCacheElementName(e.localName) then 0 else 1
  {
  }

  /** Exactly one `Unknown element detected` per child whose tag is not recognised. */
  lemma {:induction false} UnknownElementsCounted(children: seq<Element>, env: Environment)
    ensures multiset(CreateCacheCollection(children, env).errors)[UnknownElementMessage]
         == |children| - |Recognised(children)|
    decreases |children|
  {
    if |children| > 0 {
      CollectionUnfolds(children, env);
      UnknownElementsCounted(children[1..], env);
      ChildUnknownCount(children[0]);
    }
  }

  /** A child raises no diagnostic exactly when its tag is recognised and its required attributes have text. */
  lemma ChildErrorsEmptyIffValid(e: Element)
    ensures ChildErrors(e) == [] <==> ChildValid(e)
  {
    if e.localName == CacheClusterElementName {
      MissingAttributesOne(e, "name");
    } else if e.localName == CacheElementName {
      MissingAttributesTwo(e, "name", "address");
    }
  }

  /** The translation raises no diagnostic exactly when every child is valid. */
  lemma {:induction false} CleanIffAllChildrenValid(children: seq<Element>, env: Environment)
    ensures CreateCacheCollection(children, env).errors == []
        <==> forall i :: 0 <= i < |children| ==> ChildValid(children[i])
    decreases |children|
  {
    if |children| > 0 {
      var rest := children[1..];
      CollectionUnfolds(children, env);
      CleanIffAllChildrenValid(rest, env);
      ChildErrorsEmptyIffValid(children[0]);
      assert forall i :: 0 < i < |children| ==> children[i] == rest[i - 1];
    }
  }

  /**
   * A `cache-ref` child is never validated: whatever its `ref` (even empty)
   * it adds the reference at its place and no diagnostic.
   */
  lemma CacheRefNeverReports(a: seq<Element>, e: Element, b: seq<Element>, env: Environment)
    requires e.localName == CacheRefElementName
    ensures CreateCacheCollection(a + [e] + b, env).entries
         == CreateCacheCollection(a, env).entries + [Ref(GetAttribute(e, "ref"))] + CreateCacheCollection(b, env).entries
    ensures CreateCacheCollection(a + [e] + b, env).errors == CreateCacheCollection(a + b, env).errors
  {
    var ca, cb, t := CreateCacheCollection(a, env), CreateCacheCollection(b, env), TranslateChild(e, env);
    var eb := CreateCacheCollection([e] + b, env);
    assert a + [e] + b == a + ([e] + b);
    CollectionSplits(a, [e] + b, env);
    CollectionSplits([e], b, env);
    CollectionSplits(a, b, env);
    CollectionOfOne(e, env);
    assert eb.entries == t.entries + cb.entries;
    assert eb.errors == cb.errors;
    assert ca.entries + (t.entries + cb.entries) == ca.entries + t.entries + cb.entries;
  }

  /** An unrecognised child adds no entry and one diagnostic at its place; its siblings are still translated. */
  lemma UnknownChildOnlyReports(a: seq<Element>, e: Element, b: seq<Element>, env: Environment)
    requires !IsCacheElementName(e.localName)
    ensures CreateCacheCollection(a + [e] + b, env).entries == CreateCacheCollection(a + b, env).entries
    ensures CreateCacheCollection(a + [e] + b, env).errors
         == CreateCacheCollection(a, env).errors + [UnknownElementMessage] + CreateCacheCollection(b, env).errors
  {
    var ca, cb, t := CreateCacheCollection(a, env), CreateCacheCollection(b, env), TranslateChild(e, env);
    var eb := CreateCacheCollection([e] + b, env);
    assert a + [e] + b == a + ([e] + b);
    CollectionSplits(a, [e] + b, env);
    CollectionSplits([e], b, env);
    CollectionSplits(a, b, env);
    CollectionOfOne(e, env);
    assert eb.entries == cb.entries;
    assert eb.errors == t.errors + cb.errors;
    assert ca.errors + (t.errors + cb.errors) == ca.errors + t.errors + cb.errors;
  }

  /**
   * A `cache` child without `name` and without `address` still adds its
   * entry, with both fields null, and reports `name` before `address`.
   */
  lemma MissingRequiredKeepsEntry(e: Element, env: Environment)
    requires e.localName == CacheElementName
    requires !HasText(GetAttribute(e, "name")) && !HasText(GetAttribute(e, "address"))
    ensures TranslateChild(e, env).entries == [Cache(StaticMemcached(None), None, TextOf(e, "expiration"))]
    ensures TranslateChild(e, env).errors == [RequiredMessage("name"), RequiredMessage("address")]
  {
    MissingAttributesTwo(e, "name", "address");
  }

  /**
   * Every ElastiCache-backed entry uses its cache name as the cluster id and
   * the shared resolver; every entry's `expiration` is present exactly when
   * the child's attribute has text.
   */
  lemma EntriesWiring(children: seq<Element>, env: Environment)
    ensures |CreateCacheCollection(children, env).entries| == |Recognised(children)|
    ensures forall i :: 0 <= i < |Recognised(children)| ==>
      var entry := CreateCacheCollection(children, env).entries[i];
      var child := Recognised(children)[i];
      && (entry.Cache? <==> child.localName != CacheRefElementName)
      && (entry.Ref? ==> entry.ref == GetAttribute(child, "ref"))
      && (entry.Cache? ==> (entry.expiration.Some? <==> HasText(GetAttribute(child, "expiration"))))
      && (entry.Cache? && entry.client.ElastiCacheMemcached? ==>
            && entry.client.clusterId == entry.name
            && entry.client.clientRef == env.elastiCacheClientBeanName(child)
            && entry.client.resolverRef == env.resourceIdResolverBeanName)
  {
    EntriesFollowRecognisedChildren(children, env);
  }

  /** When nothing was reported, no entry carries a null name, address or cluster id. */
  lemma CleanBuildHasNoNulls(children: seq<Element>, env: Environment)
    requires CreateCacheCollection(children, env).errors == []
    ensures forall entry :: entry in CreateCacheCollection(children, env).entries && entry.Cache? ==>
      && entry.name.Some?
      && (entry.client.StaticMemcached? ==> entry.client.address.Some?)
      && (entry.client.ElastiCacheMemcached? ==> entry.client.clusterId.Some?)
  {
    CleanIffAllChildrenValid(children, env);
    EntriesFollowRecognisedChildren(children, env);
    var entries := CreateCacheCollection(children, env).entries;
    var rec := Recognised(children);
    forall entry | entry in entries && entry.Cache?
      ensures entry.name.Some?
      ensures entry.client.StaticMemcached? ==> entry.client.address.Some?
      ensures entry.client.ElastiCacheMemcached? ==> entry.client.clusterId.Some?
    {
      var i :| 0 <= i < |entries| && entries[i] == entry;
      assert rec[i] in rec;
      var j :| 0 <= j < |children| && children[j] == rec[i];
      assert ChildValid(children[j]);
    }
  }

  /**
   * The manager is always "cacheManager" and its `caches` list does not
   * depend on a manager being registered already; that case only adds its
   * diagnostic, first, and the diagnostic appears in no other case.
   */
  lemma DuplicateManagerDoesNotStopBuild(children: seq<Element>, registered: bool, env: Environment)
    ensures DoParse(children, registered, env).manager == DoParse(children, false, env).manager
    ensures DoParse(children, registered, env).errors
         == (if registered then [DuplicateManagerMessage] else []) + DoParse(children, false, env).errors
    ensures DuplicateManagerMessage in DoParse(children, registered, env).errors <==> registered
  {
  }

  /**
   * Parsing raises no diagnostic exactly when no manager is registered yet
   * and every child is valid.
   */
  lemma DoParseCleanIffValid(children: seq<Element>, registered: bool, env: Environment)
    ensures DoParse(children, registered, env).errors == []
        <==> !registered && forall i :: 0 <= i < |children| ==> ChildValid(children[i])
  {
    CleanIffAllChildrenValid(children, env);
  }
}
