/**
 * The bean definitions the parser hands to the Spring container, rendered
 * from the typed entries: class names, constructor arguments in order and
 * properties. Decoding them back recovers every entry, so the rendering
 * loses nothing and confuses no two entries.
 */
module CacheWiring {
  import opened Wrappers
  import opened JavaText
  import opened Dom
  import opened Wiring
  import opened CacheBeanDefinitionParser
  import opened CacheParserProperties

  const SimpleCacheManagerClassName := "org.springframework.cache.support.SimpleCacheManager"
  const SimpleSpringMemcachedClassName := "org.springframework.cloud.aws.cache.SimpleSpringMemcached"
  const ElastiCacheMemcachedFactoryBeanClassName := "org.springframework.cloud.aws.cache.ElastiCacheMemcachedFactoryBean"
  const StaticMemcachedFactoryBeanClassName := "org.springframework.cloud.aws.cache.StaticMemcachedFactoryBean"

  /** The factory bean definition of a client (`createStaticMemcachedFactoryBean` / `createElastiCacheFactoryBean`). */
  function ClientDefinition(c: Client): (d: BeanDefinition)
    ensures d.properties == map[]
    ensures c.StaticMemcached? ==>
              d.className == StaticMemcachedFactoryBeanClassName && d.constructorArgs == [Literal(c.address)]
    ensures c.ElastiCacheMemcached? ==>
              && d.className == ElastiCacheMemcachedFactoryBeanClassName
              && d.constructorArgs == [Reference(c.clientRef), Literal(c.clusterId), Reference(c.resolverRef)]
  {
    match c
    case StaticMemcached(address) =>
      BeanDefinition(StaticMemcachedFactoryBeanClassName, [Literal(address)], map[])
    case ElastiCacheMemcached(clientRef, clusterId, resolverRef) =>
      BeanDefinition(ElastiCacheMemcachedFactoryBeanClassName,
                     [Reference(clientRef), Literal(clusterId), Reference(resolverRef)], map[])
  }

  /**
   * The value an entry becomes in the `caches` list: a reference for
   * `cache-ref`, otherwise a `SimpleSpringMemcached` definition built with
   * (client, name) whose only property is `expiration`, present only when set.
   */
  function EntryValue(e: Entry): (v: Value)
    ensures e.Ref? <==> v.Reference?
    ensures e.Ref? ==> v.beanName == e.ref
    ensures e.Cache? ==>
              && v.Bean?
              && v.definition.className == SimpleSpringMemcachedClassName
              && v.definition.constructorArgs == [Bean(ClientDefinition(e.client)), Literal(e.name)]
              && v.definition.properties.Keys == (if e.expiration.Some? then {"expiration"} else {})
              && ("expiration" in v.definition.properties <==> e.expiration.Some?)
              && (e.expiration.Some? ==> v.definition.properties["expiration"] == Literal(e.expiration))
  {
    match e
    case Ref(r) => Reference(r)
    case Cache(client, name, expiration) =>
      var properties := if expiration.Some? then map["expiration" := Literal(expiration)] else map[];
      Bean(BeanDefinition(SimpleSpringMemcachedClassName, [Bean(ClientDefinition(client)), Literal(name)], properties))
  }

  /** The `caches` list, element by element. */
  function EntryValues(entries: seq<Entry>): (vs: seq<Value>)
    ensures |vs| == |entries|
    ensures forall i :: 0 <= i < |entries| ==> vs[i] == EntryValue(entries[i])
  {
    seq(|entries|, i requires 0 <= i < |entries| => EntryValue(entries[i]))
  }

  /** The manager definition: a `SimpleCacheManager` whose only property is the `caches` list. */
  function CacheManagerDefinition(m: CacheManager): (d: BeanDefinition)
    ensures d.className == SimpleCacheManagerClassName
    ensures d.constructorArgs == []
    ensures d.properties.Keys == {"caches"}
  {
    BeanDefinition(SimpleCacheManagerClassName, [], map["caches" := List(EntryValues(m.caches))])
  }

  /** Reads a client back from a factory bean definition. */
  function ClientOf(d: BeanDefinition): Option<Client> {
    var args := d.constructorArgs;
    if d.properties != map[] then None
    else if d.className == StaticMemcachedFactoryBeanClassName && |args| == 1 && args[0].Literal? then
      Some(StaticMemcached(args[0].text))
    else if && d.className == ElastiCacheMemcachedFactoryBeanClassName && |args| == 3
            && args[0].Reference? && args[1].Literal? && args[2].Reference? then
      Some(ElastiCacheMemcached(args[0].beanName, args[1].text, args[2].beanName))
    else None
  }

  /** Reads the `expiration` property back: present only as a non-null literal. */
  function ExpirationOf(properties: map<string, Value>): Option<string> {
    if "expiration" in properties && properties["expiration"].Literal? then properties["expiration"].text
    else None
  }

  /** Reads an entry back from a `caches` list value. */
  function EntryOf(v: Value): Option<Entry> {
    match v
    case Reference(r) => Some(Ref(r))
    case Bean(d) =>
      var args := d.constructorArgs;
      if && d.className == SimpleSpringMemcachedClassName && |args| == 2
         && args[0].Bean? && args[1].Literal? && ClientOf(args[0].definition).Some?
      then Some(Cache(ClientOf(args[0].definition).value, args[1].text, ExpirationOf(d.properties)))
      else None
    case _ => None
  }

  /** Reads every entry of a list back, or nothing when one of them is unreadable. */
  function EntriesOf(vs: seq<Value>): Option<seq<Entry>> {
    if |vs| == 0 then Some([])
    else
      match (EntryOf(vs[0]), EntriesOf(vs[1..]))
      case (Some(e), Some(rest)) => Some([e] + rest)
      case _ => None
  }

  /** Reads the `caches` list back from a manager definition. */
  function CachesOf(d: BeanDefinition): Option<seq<Entry>> {
    if d.className == SimpleCacheManagerClassName && "caches" in d.properties && d.properties["caches"].List?
    then EntriesOf(d.properties["caches"].items)
    else None
  }

  lemma ClientRoundTrip(c: Client)
    ensures ClientOf(ClientDefinition(c)) == Some(c)
  {
  }

  lemma EntryRoundTrip(e: Entry)
    ensures EntryOf(EntryValue(e)) == Some(e)
  {
    if e.Cache? {
      ClientRoundTrip(e.client);
    }
  }

  /** Decoding the rendered list gives back the entries, in the same order. */
  lemma {:induction false} EntriesRoundTrip(entries: seq<Entry>)
    ensures EntriesOf(EntryValues(entries)) == Some(entries)
    decreases |entries|
  {
    if |entries| > 0 {
      var vs := EntryValues(entries);
      assert vs[1..] == EntryValues(entries[1..]);
      EntryRoundTrip(entries[0]);
      EntriesRoundTrip(entries[1..]);
      assert [entries[0]] + entries[1..] == entries;
    }
  }

  /** The manager definition carries the parsed `caches` list unchanged. */
  lemma CacheManagerRoundTrip(m: CacheManager)
    ensures CachesOf(CacheManagerDefinition(m)) == Some(m.caches)
  {
    EntriesRoundTrip(m.caches);
  }

  /** Two entries render to the same value only when they are the same entry. */
  lemma EntryValueInjective(e1: Entry, e2: Entry)
    requires EntryValue(e1) == EntryValue(e2)
    ensures e1 == e2
  {
    EntryRoundTrip(e1);
    EntryRoundTrip(e2);
  }

  /** The rendered `caches` list holds one item per recognised child and nothing else. */
  lemma RenderedCachesCount(children: seq<Element>, registered: bool, env: Environment)
    ensures |CacheManagerDefinition(DoParse(children, registered, env).manager).properties["caches"].items|
         == |Recognised(children)|
  {
  }

  /**
   * The definition handed to the container, child by child: the i-th item
   * of `caches` comes from the i-th recognised child; a `cache-cluster`
   * wraps an ElastiCache factory built with (the element's client bean,
   * the `name` as cluster id, the shared resolver) and a `cache` a static
   * factory built with `address`, each inside a cache built with (client,
   * `name`); `expiration` is its only property, set exactly when the
   * attribute has text.
   */
  lemma RenderedCaches(children: seq<Element>, registered: bool, env: Environment, i: nat)
    requires i < |Recognised(children)|
    ensures var items := CacheManagerDefinition(DoParse(children, registered, env).manager).properties["caches"].items;
      var child := Recognised(children)[i];
      && i < |items|
      && (child.localName == CacheRefElementName ==> items[i] == Reference(GetAttribute(child, "ref")))
      && (child.localName != CacheRefElementName ==>
            && items[i].Bean?
            && items[i].definition.className == SimpleSpringMemcachedClassName
            && |items[i].definition.constructorArgs| == 2
            && items[i].definition.constructorArgs[1] == Literal(TextOf(child, "name"))
            && items[i].definition.properties.Keys
                 == (if HasText(GetAttribute(child, "expiration")) then {"expiration"} else {})
            && ("expiration" in items[i].definition.properties <==> HasText(GetAttribute(child, "expiration")))
            && (HasText(GetAttribute(child, "expiration")) ==>
                  items[i].definition.properties["expiration"] == Literal(Some(GetAttribute(child, "expiration")))))
      && (child.localName == CacheClusterElementName ==>
            items[i].definition.constructorArgs[0]
              == Bean(BeanDefinition(ElastiCacheMemcachedFactoryBeanClassName,
                                     [Reference(env.elastiCacheClientBeanName(child)), Literal(TextOf(child, "name")),
                                      Reference(env.resourceIdResolverBeanName)],
                                     map[])))
      && (child.localName == CacheElementName ==>
            items[i].definition.constructorArgs[0]
              == Bean(BeanDefinition(StaticMemcachedFactoryBeanClassName, [Literal(TextOf(child, "address"))], map[])))
  {
    EntriesFollowRecognisedChildren(children, env);
  }
}
