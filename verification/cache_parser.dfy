/**
 * The parser of the `<aws-cache:cache-manager>` element: it walks the
 * element's children in document order, turns each `cache-ref`,
 * `cache-cluster` and `cache` child into one cache entry of the manager's
 * `caches` list, and reports problems through the reader context.
 *
 * The reader context is modelled as one that records each diagnostic and
 * returns, so parsing carries on after a problem; diagnostics are the
 * message texts, in the order they are raised.
 * A required attribute without text is reported and then carried on as
 * `None` (Java's null) inside the entry, exactly as the parser does.
 */
module CacheBeanDefinitionParser {
  import opened Wrappers
  import opened JavaText
  import opened Dom

  const CacheManagerId := "cacheManager"
  const CacheClusterElementName := "cache-cluster"
  const CacheRefElementName := "cache-ref"
  const CacheElementName := "cache"

  const DuplicateManagerMessage := "Only one cache manager can be defined"
  const UnknownElementMessage := "Unknown element detected"

  /**
   * The message of a required attribute that has no text; it can never be
   * mistaken for the parser's other two diagnostics.
   */
  function RequiredMessage(attributeName: string): (m: string)
    ensures m != DuplicateManagerMessage && m != UnknownElementMessage
  {
    var m := "Attribute '" + attributeName + "' is required";
    assert m[0] == 'A';
    m
  }

  /** The memcached client a cache wraps. */
  datatype Client =
      /** `StaticMemcachedFactoryBean`, constructed with the `address` attribute. */
    | StaticMemcached(address: Option<string>)
      /** `ElastiCacheMemcachedFactoryBean`, constructed with (client bean, cluster id, resolver bean). */
    | ElastiCacheMemcached(clientRef: string, clusterId: Option<string>, resolverRef: string)

  /** One element of the manager's `caches` list. */
  datatype Entry =
      /** A reference to a cache bean defined elsewhere. */
    | Ref(ref: string)
      /** A `SimpleSpringMemcached` cache built with (client, name) and an optional `expiration` property. */
    | Cache(client: Client, name: Option<string>, expiration: Option<string>)

  /**
   * The two lookups the parser delegates: the ElastiCache client bean name
   * chosen for an element (its custom client or the default one), and the
   * bean name of the shared resource-id resolver.
   */
  datatype Environment = Environment(
    elastiCacheClientBeanName: Element -> string,
    resourceIdResolverBeanName: string)

  /** The entries contributed by some children, with the diagnostics raised on the way, in order. */
  datatype Translation = Translation(entries: seq<Entry>, errors: seq<string>)

  /** The result of `getRequiredAttribute` with the diagnostic it may raise. */
  datatype Required = Required(value: Option<string>, errors: seq<string>)

  /** The bean definition the parser builds: a `SimpleCacheManager` with its `caches` list. */
  datatype CacheManager = CacheManager(id: string, caches: seq<Entry>)

  /** The manager with every diagnostic raised while parsing it, in order. */
  datatype ParseResult = ParseResult(manager: CacheManager, errors: seq<string>)

  predicate IsCacheElementName(name: string) {
    name == CacheRefElementName || name == CacheClusterElementName || name == CacheElementName
  }

  /** The reading of an attribute the parser keeps: its value when it has text, otherwise null. */
  function TextOf(e: Element, attributeName: string): Option<string> {
    var v := GetAttribute(e, attributeName);
    if HasText(v) then Some(v) else None
  }

  /** The messages for those of `names` whose attribute has no text, in the order of `names`. */
  function MissingAttributes(e: Element, names: seq<string>): (r: seq<string>)
    ensures |r| <= |names|
    ensures forall m :: m in r ==> exists n :: n in names && m == RequiredMessage(n)
  {
    if |names| == 0 then []
    else
      (if HasText(GetAttribute(e, names[0])) then [] else [RequiredMessage(names[0])])
      + MissingAttributes(e, names[1..])
  }

  /** The diagnostics one child raises, by its tag and required attributes. */
  function ChildErrors(e: Element): (r: seq<string>)
    ensures DuplicateManagerMessage !in r
    ensures UnknownElementMessage in r <==> !IsCacheElementName(e.localName)
  {
    if e.localName == CacheRefElementName then []
    else if e.localName == CacheClusterElementName then MissingAttributes(e, ["name"])
    else if e.localName == CacheElementName then MissingAttributes(e, ["name", "address"])
    else [UnknownElementMessage]
  }

  /** A child the parser accepts without any diagnostic. */
  predicate ChildValid(e: Element) {
    && IsCacheElementName(e.localName)
    && (e.localName == CacheClusterElementName ==> HasText(GetAttribute(e, "name")))
    && (e.localName == CacheElementName ==>
          HasText(GetAttribute(e, "name")) && HasText(GetAttribute(e, "address")))
  }

  /** The entry a recognised child contributes, by its tag. */
  function ExpectedEntry(e: Element, env: Environment): Entry
    requires IsCacheElementName(e.localName)
  {
    if e.localName == CacheRefElementName then Ref(GetAttribute(e, "ref"))
    else if e.localName == CacheClusterElementName then
      Cache(ElastiCacheMemcached(env.elastiCacheClientBeanName(e), TextOf(e, "name"),
                                 env.resourceIdResolverBeanName),
            TextOf(e, "name"), TextOf(e, "expiration"))
    else
      Cache(StaticMemcached(TextOf(e, "address")), TextOf(e, "name"), TextOf(e, "expiration"))
  }

  /** `getRequiredAttribute`: the value when it has text; otherwise one diagnostic and null. */
  function GetRequiredAttribute(attributeName: string, source: Element): (r: Required)
    ensures r.value.Some? <==> HasText(GetAttribute(source, attributeName))
    ensures r.value.Some? ==> r.value.value == GetAttribute(source, attributeName) && r.errors == []
    ensures r.value.None? ==> r.errors == [RequiredMessage(attributeName)]
  {
    if HasText(GetAttribute(source, attributeName)) then
      Required(Some(GetAttribute(source, attributeName)), [])
    else
      Required(None, [RequiredMessage(attributeName)])
  }

  /** Checking one required attribute raises exactly what `getRequiredAttribute` reports. */
  lemma MissingAttributesOne(e: Element, name: string)
    ensures MissingAttributes(e, [name]) == GetRequiredAttribute(name, e).errors
  {
    assert [name][1..] == [];
  }

  /** The same for two required attributes, checked in the given order. */
  lemma MissingAttributesTwo(e: Element, first: string, second: string)
    ensures MissingAttributes(e, [first, second])
         == GetRequiredAttribute(first, e).errors + GetRequiredAttribute(second, e).errors
  {
    assert [first, second][1..] == [second];
    MissingAttributesOne(e, second);
  }

  /** `createCache`: the client and the name as given; `expiration` only when it has text. */
  function CreateCache(name: Option<string>, client: Client, expiration: string): (r: Entry)
    ensures r.Cache? && r.client == client && r.name == name
    ensures r.expiration.Some? <==> HasText(expiration)
    ensures r.expiration.Some? ==> r.expiration.value == expiration
  {
    Cache(client, name, if HasText(expiration) then Some(expiration) else None)
  }

  /** `createStaticMemcachedFactoryBean`. */
  function CreateStaticMemcachedFactoryBean(address: Option<string>): (r: Client)
    ensures r.StaticMemcached? && r.address == address
  {
    StaticMemcached(address)
  }

  /** `createElastiCacheFactoryBean`: the element's client bean, the cluster id, the shared resolver. */
  function CreateElastiCacheFactoryBean(source: Element, env: Environment, clusterId: Option<string>): (r: Client)
    ensures r.ElastiCacheMemcached?
    ensures r.clientRef == env.elastiCacheClientBeanName(source)
    ensures r.clusterId == clusterId
    ensures r.resolverRef == env.resourceIdResolverBeanName
  {
    ElastiCacheMemcached(env.elastiCacheClientBeanName(source), clusterId, env.resourceIdResolverBeanName)
  }

  /** One iteration of the loop in `createCacheCollection`: the switch on the child's local name. */
  function TranslateChild(e: Element, env: Environment): (r: Translation)
    ensures IsCacheElementName(e.localName) ==> r.entries == [ExpectedEntry(e, env)]
    ensures !IsCacheElementName(e.localName) ==> r.entries == [] && r.errors == [UnknownElementMessage]
    ensures r.errors == ChildErrors(e)
    ensures e.localName == CacheRefElementName ==> r.entries == [Ref(GetAttribute(e, "ref"))] && r.errors == []
    ensures e.localName == CacheClusterElementName ==>
              && |r.entries| == 1 && r.entries[0].Cache? && r.entries[0].client.ElastiCacheMemcached?
              && r.entries[0].client.clusterId == r.entries[0].name == TextOf(e, "name")
    ensures e.localName == CacheElementName ==>
              && |r.entries| == 1 && r.entries[0].Cache?
              && r.entries[0].client == StaticMemcached(TextOf(e, "address"))
              && r.entries[0].name == TextOf(e, "name")
  {
    if e.localName == CacheRefElementName then
      Translation([Ref(GetAttribute(e, "ref"))], [])
    else if e.localName == CacheClusterElementName then
      MissingAttributesOne(e, "name");
      var cacheClusterId := GetRequiredAttribute("name", e);
      var cache := CreateCache(cacheClusterId.value,
                               CreateElastiCacheFactoryBean(e, env, cacheClusterId.value),
                               GetAttribute(e, "expiration"));
      Translation([cache], cacheClusterId.errors)
    else if e.localName == CacheElementName then
      MissingAttributesTwo(e, "name", "address");
      var name := GetRequiredAttribute("name", e);
      var address := GetRequiredAttribute("address", e);
      var cache := CreateCache(name.value, CreateStaticMemcachedFactoryBean(address.value),
                               GetAttribute(e, "expiration"));
      Translation([cache], name.errors + address.errors)
    else
      Translation([], [UnknownElementMessage])
  }

  /** The children the switch recognises, in document order. */
  function Recognised(children: seq<Element>): (r: seq<Element>)
    ensures |r| <= |children|
    ensures forall x :: x in r ==> x in children && IsCacheElementName(x.localName)
    ensures forall x :: x in children && IsCacheElementName(x.localName) ==> x in r
  {
    if |children| == 0 then []
    else
      (if IsCacheElementName(children[0].localName) then [children[0]] else []) + Recognised(children[1..])
  }

  /** The contributions of successive iterations, appended one after the other in order. */
  function Concat(parts: seq<Translation>): Translation {
    if |parts| == 0 then Translation([], [])
    else
      var rest := Concat(parts[1..]);
      Translation(parts[0].entries + rest.entries, parts[0].errors + rest.errors)
  }

  /**
   * `createCacheCollection`: the loop over the children, each iteration
   * appending its contribution to the list and to the diagnostics; nothing
   * stops the loop.
   */
  function CreateCacheCollection(children: seq<Element>, env: Environment): (r: Translation)
    ensures DuplicateManagerMessage !in r.errors
  {
    ContributionsCounted(children, env);
    Concat(Contributions(children, env))
  }

  /** One entry per recognised child, and never the duplicate-manager diagnostic. */
  lemma {:induction false} ContributionsCounted(children: seq<Element>, env: Environment)
    ensures |Concat(Contributions(children, env)).entries| == |Recognised(children)|
    ensures DuplicateManagerMessage !in Concat(Contributions(children, env)).errors
    decreases |children|
  {
    if |children| > 0 {
      var parts := Contributions(children, env);
      assert parts[1..] == Contributions(children[1..], env);
      ContributionsCounted(children[1..], env);
    }
  }

  /** What each iteration of the loop contributes, child by child. */
  function Contributions(children: seq<Element>, env: Environment): (r: seq<Translation>)
    ensures |r| == |children|
    ensures forall i :: 0 <= i < |children| ==> r[i] == TranslateChild(children[i], env)
  {
    seq(|children|, i requires 0 <= i < |children| => TranslateChild(children[i], env))
  }

  /** `resolveId`: the manager bean is always registered as "cacheManager". */
  function ResolveId(): (id: string)
    ensures id == "cacheManager"
  {
    CacheManagerId
  }

  /**
   * `doParse`: reports a second manager when a bean named "cacheManager" is
   * already registered, and builds the `caches` list regardless.
   */
  function DoParse(children: seq<Element>, cacheManagerRegistered: bool, env: Environment): (r: ParseResult)
    ensures r.manager.id == "cacheManager"
    ensures |r.manager.caches| == |Recognised(children)|
    ensures cacheManagerRegistered ==> |r.errors| > 0 && r.errors[0] == DuplicateManagerMessage
    ensures DuplicateManagerMessage in r.errors <==> cacheManagerRegistered
  {
    ContributionsCounted(children, env);
    var duplicate := if cacheManagerRegistered then [DuplicateManagerMessage] else [];
    var caches := CreateCacheCollection(children, env);
    ParseResult(CacheManager(ResolveId(), caches.entries), duplicate + caches.errors)
  }
}
