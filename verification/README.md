# Cache-manager configuration translator

A Dafny model of `CacheBeanDefinitionParser`, the Spring Cloud AWS parser of
the `<aws-cache:cache-manager>` XML element. The parser walks the element's
children in document order and builds the `caches` list of a
`SimpleCacheManager` bean registered as `cacheManager`:

- `cache-ref` adds a reference to a cache bean defined elsewhere;
- `cache-cluster` adds a `SimpleSpringMemcached` cache wrapping an
  `ElastiCacheMemcachedFactoryBean` (ElastiCache client bean, cluster id = `name`,
  resource-id resolver bean);
- `cache` adds a `SimpleSpringMemcached` cache wrapping a
  `StaticMemcachedFactoryBean` built with `address`;
- any other child is reported as `Unknown element detected` and skipped.

Problems are reported to the reader context; the model takes a reader
context that records each diagnostic and returns, so parsing carries on
(see "## Left out" for Spring's fail-fast default). A required
attribute without text (`name`, `address`) raises `Attribute '<name>' is
required` and the entry is still added with a null in that place. A second
manager in the same registry raises `Only one cache manager can be defined`
and the list is still built.

## Layout

| file | module | contents |
|---|---|---|
| `wrappers.dfy` | `Wrappers` | `Option`, standing in for a Java reference that may be null |
| `java_text.dfy` | `JavaText` | `Character.isWhitespace`, Spring's `containsText` and `hasText` |
| `dom.dfy` | `Dom` | a child element (local name, attributes) and DOM `getAttribute` |
| `wiring.dfy` | `Wiring` | a container-neutral bean definition: class, constructor arguments, properties |
| `cache_parser.dfy` | `CacheBeanDefinitionParser` | the parser: entries, per-child switch, collection, `doParse` |
| `cache_parser_properties.dfy` | `CacheParserProperties` | document-order, counting and validity lemmas |
| `cache_wiring.dfy` | `CacheWiring` | rendering entries into bean definitions, decoding them back, round trips |

The parser produces typed entries (`Ref`, `Cache` over `StaticMemcached` or
`ElastiCacheMemcached`); `CacheWiring` renders them into the bean definitions
the container receives, with the class names and constructor-argument order of
the source, and proves the rendering can be decoded back.

Inputs that come from outside the file are parameters: whether a bean named
`cacheManager` is already registered (a `bool`), the ElastiCache client bean
name chosen for an element (a function of the element, standing for
`getCustomClientOrDefaultClientBeanName`) and the resource-id resolver bean
name (a string, standing for `GlobalBeanDefinitionUtils.retrieveResourceIdResolverBeanName`).

Three behaviours of the parser worth noting:

- the parser never checks `ref` on a `cache-ref` child: an empty or missing
  `ref` yields `Ref("")` and no diagnostic; `RuntimeBeanReference`'s own
  rejection of an empty name is left out (below);
- a missing required attribute does not stop its entry: the entry is added with
  `None` where the source passes null, and the loop goes on;
- the duplicate-manager diagnostic comes first, before those of the children,
  and does not stop the build.

## Model

| member | source | states |
|---|---|---|
| JavaText.ContainsText | spring-cloud-aws-context/src/main/java/org/springframework/cloud/aws/cache/config/xml/CacheBeanDefinitionParser.java:103 | the text test applied to attributes holds exactly when some character is not Java whitespace |
| CacheBeanDefinitionParser.GetRequiredAttribute | spring-cloud-aws-context/src/main/java/org/springframework/cloud/aws/cache/config/xml/CacheBeanDefinitionParser.java:102-109 | with text: the value and no diagnostic; without: null and exactly one `Attribute '<name>' is required` |
| CacheBeanDefinitionParser.MissingAttributesTwo | spring-cloud-aws-context/src/main/java/org/springframework/cloud/aws/cache/config/xml/CacheBeanDefinitionParser.java:91-92 | a `cache` child checks `name` then `address`, so their diagnostics come in that order |
| CacheBeanDefinitionParser.CreateCache | spring-cloud-aws-context/src/main/java/org/springframework/cloud/aws/cache/config/xml/CacheBeanDefinitionParser.java:111-119 | the cache keeps the given client and name; `expiration` is set, to the exact string, exactly when it has text |
| CacheBeanDefinitionParser.TranslateChild | spring-cloud-aws-context/src/main/java/org/springframework/cloud/aws/cache/config/xml/CacheBeanDefinitionParser.java:79-97 | a recognised child adds exactly its expected entry and raises exactly the diagnostics of its missing required attributes: `cache-ref` gives `Ref` of the raw `ref` and nothing else, `cache-cluster` a cache whose cluster id is its name, `cache` a cache over a static client of `address`; any other tag adds nothing and raises only `Unknown element detected` |
| CacheBeanDefinitionParser.DoParse | spring-cloud-aws-context/src/main/java/org/springframework/cloud/aws/cache/config/xml/CacheBeanDefinitionParser.java:61-67 | the manager id is `cacheManager` and it holds one cache per recognised child; `Only one cache manager can be defined` is raised exactly when a manager is registered already, and then first |
| CacheBeanDefinitionParser.ResolveId | spring-cloud-aws-context/src/main/java/org/springframework/cloud/aws/cache/config/xml/CacheBeanDefinitionParser.java:69-72 | the manager bean's id is always `cacheManager` |
| CacheBeanDefinitionParser.CreateCacheCollection | spring-cloud-aws-context/src/main/java/org/springframework/cloud/aws/cache/config/xml/CacheBeanDefinitionParser.java:74-99 | the loop over the children never raises the duplicate-manager diagnostic (order, counts and validity are stated by the lemmas below) |
| CacheBeanDefinitionParser.ContributionsCounted | spring-cloud-aws-context/src/main/java/org/springframework/cloud/aws/cache/config/xml/CacheBeanDefinitionParser.java:78-98 | the loop contributes one entry per recognised child and never the duplicate-manager diagnostic |
| CacheBeanDefinitionParser.CreateStaticMemcachedFactoryBean | spring-cloud-aws-context/src/main/java/org/springframework/cloud/aws/cache/config/xml/CacheBeanDefinitionParser.java:121-125 | the static client is built from `address` alone |
| CacheBeanDefinitionParser.CreateElastiCacheFactoryBean | spring-cloud-aws-context/src/main/java/org/springframework/cloud/aws/cache/config/xml/CacheBeanDefinitionParser.java:127-134 | the ElastiCache client takes the element's client bean, the given cluster id and the shared resolver bean |
| CacheParserProperties.ConcatSplits | spring-cloud-aws-context/src/main/java/org/springframework/cloud/aws/cache/config/xml/CacheBeanDefinitionParser.java:78-98 | appending two runs of iterations appends their entries and their diagnostics |
| CacheParserProperties.CollectionSplits | spring-cloud-aws-context/src/main/java/org/springframework/cloud/aws/cache/config/xml/CacheBeanDefinitionParser.java:74-99 | translating two runs of siblings is translating each and concatenating, entries and diagnostics alike: no child affects its siblings' contribution |
| CacheParserProperties.CollectionOfOne | spring-cloud-aws-context/src/main/java/org/springframework/cloud/aws/cache/config/xml/CacheBeanDefinitionParser.java:78-98 | a document of one child yields exactly that child's entries and diagnostics |
| CacheParserProperties.CollectionUnfolds | spring-cloud-aws-context/src/main/java/org/springframework/cloud/aws/cache/config/xml/CacheBeanDefinitionParser.java:78-98 | the first child's entries and diagnostics come before those of the rest |
| CacheParserProperties.EntriesFollowRecognisedChildren | spring-cloud-aws-context/src/main/java/org/springframework/cloud/aws/cache/config/xml/CacheBeanDefinitionParser.java:78-97 | one entry per recognised child, and the i-th entry comes from the i-th recognised child in document order |
| CacheParserProperties.ChildUnknownCount | spring-cloud-aws-context/src/main/java/org/springframework/cloud/aws/cache/config/xml/CacheBeanDefinitionParser.java:95-96 | one child raises `Unknown element detected` once when its tag is not recognised and never otherwise |
| CacheParserProperties.UnknownElementsCounted | spring-cloud-aws-context/src/main/java/org/springframework/cloud/aws/cache/config/xml/CacheBeanDefinitionParser.java:95-96 | the diagnostics hold `Unknown element detected` exactly as often as there are unrecognised children |
| CacheParserProperties.ChildErrorsEmptyIffValid | spring-cloud-aws-context/src/main/java/org/springframework/cloud/aws/cache/config/xml/CacheBeanDefinitionParser.java:81-97 | a child raises nothing exactly when its tag is recognised and its required attributes have text |
| CacheParserProperties.CleanIffAllChildrenValid | spring-cloud-aws-context/src/main/java/org/springframework/cloud/aws/cache/config/xml/CacheBeanDefinitionParser.java:78-109 | the translation raises nothing exactly when every child is valid |
| CacheParserProperties.CacheRefNeverReports | spring-cloud-aws-context/src/main/java/org/springframework/cloud/aws/cache/config/xml/CacheBeanDefinitionParser.java:82-84 | a `cache-ref` child adds a reference to exactly its `ref` at its place and never a diagnostic, whatever `ref` holds |
| CacheParserProperties.UnknownChildOnlyReports | spring-cloud-aws-context/src/main/java/org/springframework/cloud/aws/cache/config/xml/CacheBeanDefinitionParser.java:95-97 | an unrecognised child adds no entry and one diagnostic at its place, and its siblings are still translated |
| CacheParserProperties.MissingRequiredKeepsEntry | spring-cloud-aws-context/src/main/java/org/springframework/cloud/aws/cache/config/xml/CacheBeanDefinitionParser.java:90-93 | a `cache` child missing `name` and `address` still adds its entry with both null and reports `name` before `address` |
| CacheParserProperties.EntriesWiring | spring-cloud-aws-context/src/main/java/org/springframework/cloud/aws/cache/config/xml/CacheBeanDefinitionParser.java:86-93 | every ElastiCache entry uses its cache name as cluster id, its element's client bean and the shared resolver; every cache's `expiration` is present exactly when the attribute has text |
| CacheParserProperties.CleanBuildHasNoNulls | spring-cloud-aws-context/src/main/java/org/springframework/cloud/aws/cache/config/xml/CacheBeanDefinitionParser.java:102-109 | when nothing was reported no entry holds a null name, address or cluster id |
| CacheParserProperties.DuplicateManagerDoesNotStopBuild | spring-cloud-aws-context/src/main/java/org/springframework/cloud/aws/cache/config/xml/CacheBeanDefinitionParser.java:61-67 | the manager does not depend on a manager being registered; that case only adds its diagnostic in front, and the diagnostic appears exactly in that case |
| CacheParserProperties.DoParseCleanIffValid | spring-cloud-aws-context/src/main/java/org/springframework/cloud/aws/cache/config/xml/CacheBeanDefinitionParser.java:61-109 | parsing raises no diagnostic exactly when no manager is registered yet and every child is valid |
| CacheWiring.ClientDefinition | spring-cloud-aws-context/src/main/java/org/springframework/cloud/aws/cache/config/xml/CacheBeanDefinitionParser.java:121-134 | static factory built with `address` alone; ElastiCache factory built with (client bean reference, cluster id, resolver reference) in that order; neither has properties |
| CacheWiring.EntryValue | spring-cloud-aws-context/src/main/java/org/springframework/cloud/aws/cache/config/xml/CacheBeanDefinitionParser.java:111-119 | a reference stays a reference; a cache becomes a `SimpleSpringMemcached` built with (client, name) whose only property is `expiration`, present exactly when set |
| CacheWiring.CacheManagerDefinition | spring-cloud-aws-context/src/main/java/org/springframework/cloud/aws/cache/config/xml/CacheBeanDefinitionParser.java:55-66 | a `SimpleCacheManager` with no constructor arguments and `caches` as its only property |
| CacheWiring.ClientRoundTrip | spring-cloud-aws-context/src/main/java/org/springframework/cloud/aws/cache/config/xml/CacheBeanDefinitionParser.java:121-134 | a client factory definition decodes back to its client |
| CacheWiring.EntryRoundTrip | spring-cloud-aws-context/src/main/java/org/springframework/cloud/aws/cache/config/xml/CacheBeanDefinitionParser.java:111-119 | an entry's rendered value decodes back to the entry |
| CacheWiring.EntriesRoundTrip | spring-cloud-aws-context/src/main/java/org/springframework/cloud/aws/cache/config/xml/CacheBeanDefinitionParser.java:74-99 | the rendered `caches` list decodes back to the entries in the same order |
| CacheWiring.CacheManagerRoundTrip | spring-cloud-aws-context/src/main/java/org/springframework/cloud/aws/cache/config/xml/CacheBeanDefinitionParser.java:66 | the manager definition carries the `caches` list unchanged |
| CacheWiring.EntryValueInjective | spring-cloud-aws-context/src/main/java/org/springframework/cloud/aws/cache/config/xml/CacheBeanDefinitionParser.java:111-119 | two entries render to the same value only when they are equal |
| CacheWiring.RenderedCachesCount | spring-cloud-aws-context/src/main/java/org/springframework/cloud/aws/cache/config/xml/CacheBeanDefinitionParser.java:66-99 | the rendered `caches` list holds exactly one item per recognised child |
| CacheWiring.RenderedCaches | spring-cloud-aws-context/src/main/java/org/springframework/cloud/aws/cache/config/xml/CacheBeanDefinitionParser.java:86-134 | the i-th item of the rendered `caches` comes from the i-th recognised child, with the class names and constructor-argument order of the source, and `expiration` as its only property, holding the exact attribute string, present exactly when the attribute has text |

## Left out

- The reader context's problem reporter: `error` is modelled as recording the message and returning, as a collecting reporter does. Under Spring's default fail-fast reporter the first diagnostic throws and aborts the parse, so only that diagnostic exists and no manager is built.
- Spring container internals (`BeanDefinitionBuilder`, `ManagedList`, `RuntimeBeanReference`, the `AbstractSingleBeanDefinitionParser` lifecycle): their output is the plain `Wiring.BeanDefinition` tree; checks those classes make on their own arguments (such as a reference to an empty bean name) are not modelled.
- XML parsing and `DomUtils.getChildElements`: the input is the already-decoded sequence of child elements; a null local name is not representable.
- `getCustomClientOrDefaultClientBeanName` and `GlobalBeanDefinitionUtils.retrieveResourceIdResolverBeanName`: their code is not part of this model; their results are inputs, and any bean definitions they register are not modelled. Anything they report to the reader context or throw is not modelled either: the lemmas that relate a clean parse to valid children (`ChildErrorsEmptyIffValid`, `CleanIffAllChildrenValid`, `DoParseCleanIffValid`) hold for lookups that raise nothing.
- The registry: only the answer to "is `cacheManager` registered already" is an input; registering the manager under `resolveId`'s id is the container's work.
- Source locations of diagnostics (`extractSource`, the offending element): diagnostics are message texts in the order they are raised.
- Runtime behaviour of `SimpleSpringMemcached`, the memcached and ElastiCache clients and `SimpleCacheManager` (network I/O, cache semantics).
- JavaText.IsWhitespace: follows the `Character.isWhitespace` table of current Java releases; older Unicode tables (U+180E counted as a space before Unicode 6.3) are not modelled.
