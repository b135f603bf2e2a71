/** The standard topology (src/Transport/Topology/Topologies/StandardTopologySectionManager.cs):
    one input queue per endpoint, one `<endpoint>.events` topic per publishing
    endpoint, and per subscribed event type one subscription on the topic of
    every endpoint that publishes it, all replicated over the namespaces the
    partitioning strategy yields. */
module Topology {
  import opened Wrappers
  import opened MetaModel
  import opened Partitioning

  datatype EntityType = Queue | Topic | Subscription

  /** A CLR event type, through the two names the topology uses. */
  datatype EventType = EventType(name: string, fullName: string)

  datatype SubscriptionMetadata = SubscriptionMetadata(description: string, subscriptionNameBasedOnEventWithNamespace: string)

  /** The broker-side filter selecting the messages of one event type. */
  datatype SqlSubscriptionFilter = SqlSubscriptionFilter(eventType: EventType)

  datatype EntityRelationshipType = SubscriptionRelationship

  /** An edge from a subscription (its owner, left implicit) to its topic. */
  datatype EntityRelationshipInfo = EntityRelationshipInfo(target: EntityInfo, relationshipType: EntityRelationshipType)

  /** `EntityInfo` and its subclass `SubscriptionInfo`. */
  datatype EntityInfo =
    | EntityInfo(path: string, entityType: EntityType, ns: NamespaceInfo)
    | SubscriptionInfo(path: string, entityType: EntityType, ns: NamespaceInfo, metadata: SubscriptionMetadata,
                       brokerSideFilter: SqlSubscriptionFilter, relationships: seq<EntityRelationshipInfo>)

  datatype TopologySection = TopologySection(namespaces: seq<NamespaceInfo>, entities: seq<EntityInfo>)

  datatype QueueBindings = QueueBindings(receivingAddresses: seq<string>, sendingAddresses: seq<string>)

  /** What the manager reads from its settings and its container: the
      endpoint name, the queue bindings when they were set explicitly, the
      partitioning strategy, the sanitization strategy, and the subscription
      router's publisher addresses for an event type. */
  datatype TopologyConfig = TopologyConfig(
    endpointName: string,
    queueBindings: Option<QueueBindings>,
    getNamespaces: (string, PartitioningIntent) -> seq<NamespaceInfo>,
    sanitize: (string, EntityType) -> string,
    addressesForEventType: EventType -> seq<string>)

  /** Every entity of a section lives in one of the section's namespaces. */
  predicate Consistent(section: TopologySection)
  {
    forall i :: 0 <= i < |section.entities| ==> section.entities[i].ns in section.namespaces
  }

  /** One entity of the given path and type in each namespace, in namespace order. */
  function EntitiesIn(namespaces: seq<NamespaceInfo>, path: string, entityType: EntityType): (es: seq<EntityInfo>)
    ensures |es| == |namespaces|
    ensures forall i :: 0 <= i < |es| ==> es[i] == EntityInfo(path, entityType, namespaces[i])
  {
    seq(|namespaces|, i requires 0 <= i < |namespaces| => EntityInfo(path, entityType, namespaces[i]))
  }

  /** The entities of `EntitiesIn` are exactly the given path and type, once
      in each namespace. */
  lemma EntitiesInMembership(namespaces: seq<NamespaceInfo>, path: string, entityType: EntityType)
    ensures forall x :: x in EntitiesIn(namespaces, path, entityType)
                        <==> x.ns in namespaces && x == EntityInfo(path, entityType, x.ns)
  {
    var es := EntitiesIn(namespaces, path, entityType);
    forall x: EntityInfo | x.ns in namespaces && x == EntityInfo(path, entityType, x.ns)
      ensures x in es
    {
      var i :| 0 <= i < |namespaces| && namespaces[i] == x.ns;
      assert es[i] == x;
    }
  }

  /** One queue per address in one namespace, in address order. */
  function QueuesIn(addresses: seq<string>, ns: NamespaceInfo): (es: seq<EntityInfo>)
    ensures |es| == |addresses|
    ensures forall i :: 0 <= i < |es| ==> es[i] == EntityInfo(addresses[i], Queue, ns)
  {
    seq(|addresses|, i requires 0 <= i < |addresses| => EntityInfo(addresses[i], Queue, ns))
  }

  lemma QueuesInMembership(addresses: seq<string>, ns: NamespaceInfo, x: EntityInfo)
    ensures x in QueuesIn(addresses, ns) <==> x == EntityInfo(x.path, Queue, ns) && x.path in addresses
  {
    if x == EntityInfo(x.path, Queue, ns) && x.path in addresses {
      var i :| 0 <= i < |addresses| && addresses[i] == x.path;
      assert QueuesIn(addresses, ns)[i] == x;
    }
  }

  /** The queue-binding entities, namespace after namespace: the receiving
      addresses, then the sending addresses, unsanitized. */
  function BindingEntities(namespaces: seq<NamespaceInfo>, bindings: QueueBindings): seq<EntityInfo>
    decreases |namespaces|
  {
    if namespaces == [] then []
    else
      var n := namespaces[|namespaces| - 1];
      BindingEntities(namespaces[..|namespaces| - 1], bindings)
        + QueuesIn(bindings.receivingAddresses, n) + QueuesIn(bindings.sendingAddresses, n)
  }

  lemma {:induction false} BindingEntitiesCount(namespaces: seq<NamespaceInfo>, bindings: QueueBindings)
    ensures |BindingEntities(namespaces, bindings)|
            == |namespaces| * (|bindings.receivingAddresses| + |bindings.sendingAddresses|)
    decreases |namespaces|
  {
    if namespaces != [] {
      var k := |bindings.receivingAddresses| + |bindings.sendingAddresses|;
      BindingEntitiesCount(namespaces[..|namespaces| - 1], bindings);
      assert (|namespaces| - 1) * k + k == |namespaces| * k;
    }
  }

  /** Every bound address becomes a queue in every namespace, and nothing else
      is added. */
  lemma {:induction false} BindingEntitiesMembership(namespaces: seq<NamespaceInfo>, bindings: QueueBindings, x: EntityInfo)
    ensures x in BindingEntities(namespaces, bindings)
            <==> && x == EntityInfo(x.path, Queue, x.ns) && x.ns in namespaces
                 && (x.path in bindings.receivingAddresses || x.path in bindings.sendingAddresses)
    decreases |namespaces|
  {
    if namespaces != [] {
      var prefix := namespaces[..|namespaces| - 1];
      var n := namespaces[|namespaces| - 1];
      assert namespaces == prefix + [n];
      BindingEntitiesMembership(prefix, bindings, x);
      QueuesInMembership(bindings.receivingAddresses, n, x);
      QueuesInMembership(bindings.sendingAddresses, n, x);
    }
  }

  /** The loop over the creating namespaces that appends, for each one, the
      bound receiving addresses and then the bound sending addresses as queues. */
  method AddQueueBindings(entities: seq<EntityInfo>, namespaces: seq<NamespaceInfo>, bindings: QueueBindings)
    returns (r: seq<EntityInfo>)
    ensures r == entities + BindingEntities(namespaces, bindings)
  {
    r := entities;
    var i := 0;
    while i < |namespaces|
      invariant 0 <= i <= |namespaces|
      invariant r == entities + BindingEntities(namespaces[..i], bindings)
    {
      assert namespaces[..i + 1][..i] == namespaces[..i];
      r := r + QueuesIn(bindings.receivingAddresses, namespaces[i]);
      r := r + QueuesIn(bindings.sendingAddresses, namespaces[i]);
      i := i + 1;
    }
    assert namespaces[..i] == namespaces;
  }

  /** `DetermineResourcesToCreate`: the endpoint's input queue and its
      `.events` topic in every creating namespace, then, when queue bindings
      were set, every bound address as a queue in every namespace. */
  function ResourcesToCreate(cfg: TopologyConfig): TopologySection
  {
    var namespaces := cfg.getNamespaces(cfg.endpointName, Creating);
    var queues := EntitiesIn(namespaces, cfg.sanitize(cfg.endpointName, Queue), Queue);
    var topics := EntitiesIn(namespaces, cfg.sanitize(cfg.endpointName + ".events", Topic), Topic);
    TopologySection(namespaces, queues + topics
      + if cfg.queueBindings.Some? then BindingEntities(namespaces, cfg.queueBindings.value) else [])
  }

  /** The creation section lays out the input queues, then the topics, then
      the bindings, and its size is fixed by the namespace and address counts. */
  lemma CreationSectionLayout(cfg: TopologyConfig)
    ensures var r := ResourcesToCreate(cfg);
            var n := |r.namespaces|;
            && r.namespaces == cfg.getNamespaces(cfg.endpointName, Creating)
            && |r.entities| == 2 * n + (if cfg.queueBindings.Some?
                                        then n * (|cfg.queueBindings.value.receivingAddresses| + |cfg.queueBindings.value.sendingAddresses|)
                                        else 0)
            && r.entities[..n] == EntitiesIn(r.namespaces, cfg.sanitize(cfg.endpointName, Queue), Queue)
            && r.entities[n..2 * n] == EntitiesIn(r.namespaces, cfg.sanitize(cfg.endpointName + ".events", Topic), Topic)
  {
    if cfg.queueBindings.Some? {
      BindingEntitiesCount(cfg.getNamespaces(cfg.endpointName, Creating), cfg.queueBindings.value);
    }
  }

  /** Past the queues and topics, the creation section holds exactly the
      bound addresses, as queues, in each of its namespaces. */
  lemma CreationSectionHoldsEveryBinding(cfg: TopologyConfig, x: EntityInfo)
    requires cfg.queueBindings.Some?
    ensures var r := ResourcesToCreate(cfg);
            var bindings := cfg.queueBindings.value;
            x in r.entities[2 * |r.namespaces|..]
            <==> && x == EntityInfo(x.path, Queue, x.ns) && x.ns in r.namespaces
                 && (x.path in bindings.receivingAddresses || x.path in bindings.sendingAddresses)
  {
    var r := ResourcesToCreate(cfg);
    CreationSectionLayout(cfg);
    assert r.entities[2 * |r.namespaces|..] == BindingEntities(r.namespaces, cfg.queueBindings.value);
    BindingEntitiesMembership(r.namespaces, cfg.queueBindings.value, x);
  }

  lemma CreationSectionIsConsistent(cfg: TopologyConfig)
    ensures Consistent(ResourcesToCreate(cfg))
  {
    var r := ResourcesToCreate(cfg);
    CreationSectionLayout(cfg);
    forall i | 0 <= i < |r.entities|
      ensures r.entities[i].ns in r.namespaces
    {
      if i >= 2 * |r.namespaces| {
        assert r.entities[i] == r.entities[2 * |r.namespaces|..][i - 2 * |r.namespaces|];
        CreationSectionHoldsEveryBinding(cfg, r.entities[i]);
      }
    }
  }

  // ----- Topics of an event type -----

  predicate NoDuplicates<T(==)>(xs: seq<T>)
  {
    forall i, j :: 0 <= i < j < |xs| ==> xs[i] != xs[j]
  }

  /** The elements of `xs` in order of first occurrence, as a list filled by
      adding each element that it does not contain yet. */
  function Dedup<T(==)>(xs: seq<T>): seq<T>
    decreases |xs|
  {
    if xs == [] then []
    else
      var kept := Dedup(xs[..|xs| - 1]);
      if xs[|xs| - 1] in kept then kept else kept + [xs[|xs| - 1]]
  }

  lemma {:induction false} DedupKeepsElements<T>(xs: seq<T>)
    ensures forall x :: x in Dedup(xs) <==> x in xs
    decreases |xs|
  {
    if xs != [] {
      DedupKeepsElements(xs[..|xs| - 1]);
      assert xs == xs[..|xs| - 1] + [xs[|xs| - 1]];
    }
  }

  lemma {:induction false} DedupHasNoDuplicates<T>(xs: seq<T>)
    ensures NoDuplicates(Dedup(xs))
    decreases |xs|
  {
    if xs != [] {
      DedupHasNoDuplicates(xs[..|xs| - 1]);
    }
  }

  /** A list without duplicates is kept as it is. */
  lemma {:induction false} DedupOfDistinctIsIdentity<T>(xs: seq<T>)
    requires NoDuplicates(xs)
    ensures Dedup(xs) == xs
    decreases |xs|
  {
    if xs != [] {
      var prefix := xs[..|xs| - 1];
      DedupOfDistinctIsIdentity(prefix);
    }
  }

  /** The position of the first occurrence of `x` in `xs`. */
  function FirstIndex<T(==)>(xs: seq<T>, x: T): (i: nat)
    requires x in xs
    ensures i < |xs| && xs[i] == x && x !in xs[..i]
    decreases |xs|
  {
    var prefix := xs[..|xs| - 1];
    assert xs == prefix + [xs[|xs| - 1]];
    if x in prefix then
      var i := FirstIndex(prefix, x);
      assert xs[..i] == prefix[..i];
      i
    else |xs| - 1
  }

  /** Of two positions of the deduplication, the earlier holds the element
      that occurs first in the input. */
  lemma {:induction false} DedupPairOrdered<T>(xs: seq<T>, i: int, j: int)
    requires 0 <= i < j < |Dedup(xs)|
    ensures Dedup(xs)[i] in xs && Dedup(xs)[j] in xs
    ensures FirstIndex(xs, Dedup(xs)[i]) < FirstIndex(xs, Dedup(xs)[j])
    decreases |xs|
  {
    var prefix := xs[..|xs| - 1];
    var last := xs[|xs| - 1];
    assert xs == prefix + [last];
    DedupKeepsElements(prefix);
    var kept := Dedup(prefix);
    assert Dedup(xs) == if last in kept then kept else kept + [last];
    assert Dedup(xs)[i] == kept[i] && kept[i] in kept;
    assert FirstIndex(xs, kept[i]) == FirstIndex(prefix, kept[i]);
    if j < |kept| {
      DedupPairOrdered(prefix, i, j);
      assert Dedup(xs)[j] == kept[j] && kept[j] in kept;
      assert FirstIndex(xs, kept[j]) == FirstIndex(prefix, kept[j]);
    } else {
      assert Dedup(xs)[j] == last && last !in prefix;
    }
  }

  /** Deduplication lists the elements in the order of their first
      occurrence. */
  lemma DedupFollowsFirstOccurrence<T>(xs: seq<T>)
    ensures forall x :: x in Dedup(xs) ==> x in xs
    ensures forall i, j :: 0 <= i < j < |Dedup(xs)| ==> FirstIndex(xs, Dedup(xs)[i]) < FirstIndex(xs, Dedup(xs)[j])
  {
    DedupKeepsElements(xs);
    forall i, j | 0 <= i < j < |Dedup(xs)|
      ensures FirstIndex(xs, Dedup(xs)[i]) < FirstIndex(xs, Dedup(xs)[j])
    {
      DedupPairOrdered(xs, i, j);
    }
  }

  /** Of two elements of `xs`, the one that occurs first in `xs` comes first
      in its deduplication, and conversely. */
  lemma DedupKeepsFirstOccurrenceOrder<T>(xs: seq<T>, x: T, y: T)
    requires x in xs && y in xs
    ensures x in Dedup(xs) && y in Dedup(xs)
    ensures FirstIndex(Dedup(xs), x) < FirstIndex(Dedup(xs), y) <==> FirstIndex(xs, x) < FirstIndex(xs, y)
  {
    DedupKeepsElements(xs);
    DedupFollowsFirstOccurrence(xs);
    var d := Dedup(xs);
    var i := FirstIndex(d, x);
    var j := FirstIndex(d, y);
    if j < i {
      assert FirstIndex(xs, d[j]) < FirstIndex(xs, d[i]);
    }
  }

  /** The deduplication starts with the first element. */
  lemma DedupStartsWithFirst<T>(xs: seq<T>)
    requires xs != []
    ensures |Dedup(xs)| > 0 && Dedup(xs)[0] == xs[0]
  {
    DedupKeepsElements(xs);
    DedupFollowsFirstOccurrence(xs);
    var d := Dedup(xs);
    assert xs[0] in d;
    assert FirstIndex(xs, xs[0]) == 0;
  }

  /** The `.events` topic path of each publisher address, in order. */
  function EventsTopicPaths(addresses: seq<string>): (paths: seq<string>)
    ensures |paths| == |addresses|
    ensures forall i :: 0 <= i < |paths| ==> paths[i] == addresses[i] + ".events"
  {
    seq(|addresses|, i requires 0 <= i < |addresses| => addresses[i] + ".events")
  }

  /** `DetermineTopicsFor`: the publishers' topic paths, first occurrence first. */
  function TopicsFor(cfg: TopologyConfig, eventType: EventType): seq<string>
  {
    Dedup(EventsTopicPaths(cfg.addressesForEventType(eventType)))
  }

  /** The topics of an event type are the `.events` topics of its publishers,
      each once. */
  lemma TopicsForAreDistinctPublisherTopics(cfg: TopologyConfig, eventType: EventType)
    ensures NoDuplicates(TopicsFor(cfg, eventType))
    ensures forall p :: p in TopicsFor(cfg, eventType) <==> p in EventsTopicPaths(cfg.addressesForEventType(eventType))
  {
    DedupHasNoDuplicates(EventsTopicPaths(cfg.addressesForEventType(eventType)));
    DedupKeepsElements(EventsTopicPaths(cfg.addressesForEventType(eventType)));
  }

  /** Topics come in the order in which their publishers are first listed;
      in particular the first topic is the first publisher's. */
  lemma TopicsForFollowPublisherOrder(cfg: TopologyConfig, eventType: EventType, x: string, y: string)
    requires x in EventsTopicPaths(cfg.addressesForEventType(eventType))
    requires y in EventsTopicPaths(cfg.addressesForEventType(eventType))
    ensures var paths := EventsTopicPaths(cfg.addressesForEventType(eventType));
            && x in TopicsFor(cfg, eventType) && y in TopicsFor(cfg, eventType)
            && (FirstIndex(TopicsFor(cfg, eventType), x) < FirstIndex(TopicsFor(cfg, eventType), y)
                <==> FirstIndex(paths, x) < FirstIndex(paths, y))
  {
    DedupKeepsFirstOccurrenceOrder(EventsTopicPaths(cfg.addressesForEventType(eventType)), x, y);
  }

  lemma TopicsForStartsWithFirstPublisher(cfg: TopologyConfig, eventType: EventType)
    requires cfg.addressesForEventType(eventType) != []
    ensures |TopicsFor(cfg, eventType)| > 0
    ensures TopicsFor(cfg, eventType)[0] == cfg.addressesForEventType(eventType)[0] + ".events"
  {
    DedupStartsWithFirst(EventsTopicPaths(cfg.addressesForEventType(eventType)));
  }

  // ----- Subscription hierarchy -----

  /** `topics.First(t => t.Namespace == ns)`, with the namespace `==`
      operator; `None` where `First` would throw. */
  function FirstInNamespace(topics: seq<EntityInfo>, ns: NamespaceInfo): (r: Option<EntityInfo>)
    ensures r.Some? ==> r.value in topics && OperatorEquals(Some(r.value.ns), Some(ns))
    ensures r.None? ==> forall t :: t in topics ==> !OperatorEquals(Some(t.ns), Some(ns))
    decreases |topics|
  {
    if topics == [] then None
    else if OperatorEquals(Some(topics[0].ns), Some(ns)) then Some(topics[0])
    else FirstInNamespace(topics[1..], ns)
  }

  /** A match in the front part is found before anything behind it. */
  lemma {:induction false} FirstOfConcat(front: seq<EntityInfo>, back: seq<EntityInfo>, ns: NamespaceInfo)
    requires FirstInNamespace(front, ns).Some?
    ensures FirstInNamespace(front + back, ns) == FirstInNamespace(front, ns)
    decreases |front|
  {
    if !OperatorEquals(Some(front[0].ns), Some(ns)) {
      assert (front + back)[1..] == front[1..] + back;
      FirstOfConcat(front[1..], back, ns);
    }
  }

  predicate FindsEveryNamespace(topics: seq<EntityInfo>, namespaces: seq<NamespaceInfo>)
  {
    forall j :: 0 <= j < |namespaces| ==> FirstInNamespace(topics, namespaces[j]).Some?
  }

  /** The topic entities of one topic path: one per namespace. */
  function TopicsOf(cfg: TopologyConfig, namespaces: seq<NamespaceInfo>, topicPath: string): seq<EntityInfo>
  {
    EntitiesIn(namespaces, cfg.sanitize(topicPath, Topic), Topic)
  }

  /** Within the topics of one path, each namespace finds a topic of that
      path whose namespace equals it. */
  lemma TopicsOfFindEveryNamespace(cfg: TopologyConfig, namespaces: seq<NamespaceInfo>, topicPath: string)
    ensures FindsEveryNamespace(TopicsOf(cfg, namespaces, topicPath), namespaces)
    ensures forall j :: 0 <= j < |namespaces| ==>
              && FirstInNamespace(TopicsOf(cfg, namespaces, topicPath), namespaces[j]).value.path == cfg.sanitize(topicPath, Topic)
              && FirstInNamespace(TopicsOf(cfg, namespaces, topicPath), namespaces[j]).value.entityType == Topic
  {
    var topics := TopicsOf(cfg, namespaces, topicPath);
    forall j | 0 <= j < |namespaces|
      ensures FirstInNamespace(topics, namespaces[j]).Some?
    {
      assert topics[j] in topics && topics[j].ns == namespaces[j];
    }
  }

  /** One subscription in namespace `ns`, linked to `target`. Its path is
      built from the event type's short name; the name built from the full
      name is kept in the metadata. */
  function NewSubscription(cfg: TopologyConfig, eventType: EventType, ns: NamespaceInfo, target: EntityInfo): (s: EntityInfo)
    ensures s.SubscriptionInfo? && s.entityType == Subscription && s.ns == ns
    ensures s.path == cfg.sanitize(cfg.endpointName + "." + eventType.name, Subscription)
    ensures s.metadata.subscriptionNameBasedOnEventWithNamespace == cfg.sanitize(cfg.endpointName + "." + eventType.fullName, Subscription)
    ensures s.brokerSideFilter == SqlSubscriptionFilter(eventType)
    ensures s.relationships == [EntityRelationshipInfo(target, SubscriptionRelationship)]
  {
    SubscriptionInfo(
      path := cfg.sanitize(cfg.endpointName + "." + eventType.name, Subscription),
      entityType := Subscription,
      ns := ns,
      metadata := SubscriptionMetadata(
        description := cfg.endpointName + " subscribed to " + eventType.fullName,
        subscriptionNameBasedOnEventWithNamespace := cfg.sanitize(cfg.endpointName + "." + eventType.fullName, Subscription)),
      brokerSideFilter := SqlSubscriptionFilter(eventType),
      relationships := [EntityRelationshipInfo(target, SubscriptionRelationship)])
  }

  /** One subscription per namespace, each linked to the first of `topics`
      in its namespace. */
  function SubscriptionsOn(cfg: TopologyConfig, eventType: EventType, namespaces: seq<NamespaceInfo>, topics: seq<EntityInfo>)
    : (subs: seq<EntityInfo>)
    requires FindsEveryNamespace(topics, namespaces)
    ensures |subs| == |namespaces|
    ensures forall j :: 0 <= j < |subs| ==>
              subs[j] == NewSubscription(cfg, eventType, namespaces[j], FirstInNamespace(topics, namespaces[j]).value)
  {
    seq(|namespaces|, j requires 0 <= j < |namespaces| =>
      NewSubscription(cfg, eventType, namespaces[j], FirstInNamespace(topics, namespaces[j]).value))
  }

  /** The subscriptions, topic path after topic path, each one linked to the
      topic of its own path in its namespace. */
  function SubscriptionsFor(cfg: TopologyConfig, eventType: EventType, namespaces: seq<NamespaceInfo>, topicPaths: seq<string>)
    : (subs: seq<EntityInfo>)
    ensures |subs| == |topicPaths| * |namespaces|
    decreases |topicPaths|
  {
    if topicPaths == [] then []
    else
      var last := |topicPaths| - 1;
      TopicsOfFindEveryNamespace(cfg, namespaces, topicPaths[last]);
      SubscriptionsFor(cfg, eventType, namespaces, topicPaths[..last])
        + SubscriptionsOn(cfg, eventType, namespaces, TopicsOf(cfg, namespaces, topicPaths[last]))
  }

  /** `BuildSubscriptionHierarchy`, with each subscription linked to the
      topic it is created on (see `SubscriptionsForAsWritten` for the link
      the code makes). The section holds the subscriptions only. */
  function SubscriptionHierarchy(cfg: TopologyConfig, eventType: EventType): TopologySection
  {
    var namespaces := cfg.getNamespaces(cfg.endpointName, Creating);
    TopologySection(namespaces, SubscriptionsFor(cfg, eventType, namespaces, TopicsFor(cfg, eventType)))
  }

  /** A subscription of the hierarchy: built for the event type, in one of
      the namespaces, with a single link to a topic of one of the publisher
      paths in an equal namespace. */
  predicate WellLinked(cfg: TopologyConfig, eventType: EventType, namespaces: seq<NamespaceInfo>, topicPaths: seq<string>, s: EntityInfo)
  {
    && s.SubscriptionInfo? && |s.relationships| == 1
    && s == NewSubscription(cfg, eventType, s.ns, s.relationships[0].target)
    && s.ns in namespaces
    && s.relationships[0].target.entityType == Topic
    && OperatorEquals(Some(s.relationships[0].target.ns), Some(s.ns))
    && exists k :: 0 <= k < |topicPaths| && s.relationships[0].target.path == cfg.sanitize(topicPaths[k], Topic)
  }

  lemma WellLinkedInLongerPaths(cfg: TopologyConfig, eventType: EventType, namespaces: seq<NamespaceInfo>, topicPaths: seq<string>,
                                n: nat, s: EntityInfo)
    requires n <= |topicPaths| && WellLinked(cfg, eventType, namespaces, topicPaths[..n], s)
    ensures WellLinked(cfg, eventType, namespaces, topicPaths, s)
  {
    var k :| 0 <= k < n && s.relationships[0].target.path == cfg.sanitize(topicPaths[..n][k], Topic);
    assert topicPaths[k] == topicPaths[..n][k];
  }

  /** The subscriptions of the last path are well linked, to that path's topic. */
  lemma LastBlockIsWellLinked(cfg: TopologyConfig, eventType: EventType, namespaces: seq<NamespaceInfo>, topicPaths: seq<string>, j: int)
    requires topicPaths != [] && 0 <= j < |namespaces|
    ensures var topics := TopicsOf(cfg, namespaces, topicPaths[|topicPaths| - 1]);
            && FindsEveryNamespace(topics, namespaces)
            && var s := SubscriptionsOn(cfg, eventType, namespaces, topics)[j];
            && WellLinked(cfg, eventType, namespaces, topicPaths, s) && s.ns == namespaces[j]
            && s.relationships[0].target.path == cfg.sanitize(topicPaths[|topicPaths| - 1], Topic)
  {
    TopicsOfFindEveryNamespace(cfg, namespaces, topicPaths[|topicPaths| - 1]);
  }

  /** Every subscription built for the publisher paths is well linked. */
  lemma {:induction false} SubscriptionsForAreWellLinked(cfg: TopologyConfig, eventType: EventType, namespaces: seq<NamespaceInfo>, topicPaths: seq<string>)
    ensures forall s :: s in SubscriptionsFor(cfg, eventType, namespaces, topicPaths) ==> WellLinked(cfg, eventType, namespaces, topicPaths, s)
    decreases |topicPaths|
  {
    if topicPaths != [] {
      var last := |topicPaths| - 1;
      SubscriptionsForAreWellLinked(cfg, eventType, namespaces, topicPaths[..last]);
      TopicsOfFindEveryNamespace(cfg, namespaces, topicPaths[last]);
      var front := SubscriptionsFor(cfg, eventType, namespaces, topicPaths[..last]);
      var block := SubscriptionsOn(cfg, eventType, namespaces, TopicsOf(cfg, namespaces, topicPaths[last]));
      forall s | s in front + block
        ensures WellLinked(cfg, eventType, namespaces, topicPaths, s)
      {
        if s in front {
          WellLinkedInLongerPaths(cfg, eventType, namespaces, topicPaths, last, s);
        } else {
          var j :| 0 <= j < |block| && block[j] == s;
          LastBlockIsWellLinked(cfg, eventType, namespaces, topicPaths, j);
        }
      }
    }
  }

  /** Every subscription of the hierarchy carries the endpoint's names for the
      event type and the event type's filter, lives in one of the section's
      namespaces, and has exactly one subscription link, to a topic of one of
      the publisher paths in an equal namespace; there is one per publisher
      path and namespace. */
  lemma SubscriptionHierarchyShape(cfg: TopologyConfig, eventType: EventType)
    ensures var r := SubscriptionHierarchy(cfg, eventType);
            var topicPaths := TopicsFor(cfg, eventType);
            && |r.entities| == |topicPaths| * |r.namespaces|
            && forall s :: s in r.entities ==>
                 && s.SubscriptionInfo? && s.entityType == Subscription && s.ns in r.namespaces
                 && s.path == cfg.sanitize(cfg.endpointName + "." + eventType.name, Subscription)
                 && s.metadata.description == cfg.endpointName + " subscribed to " + eventType.fullName
                 && s.metadata.subscriptionNameBasedOnEventWithNamespace == cfg.sanitize(cfg.endpointName + "." + eventType.fullName, Subscription)
                 && s.brokerSideFilter == SqlSubscriptionFilter(eventType)
                 && |s.relationships| == 1 && s.relationships[0].relationshipType == SubscriptionRelationship
                 && s.relationships[0].target.entityType == Topic
                 && OperatorEquals(Some(s.relationships[0].target.ns), Some(s.ns))
                 && exists k :: 0 <= k < |topicPaths| && s.relationships[0].target.path == cfg.sanitize(topicPaths[k], Topic)
  {
    var r := SubscriptionHierarchy(cfg, eventType);
    SubscriptionsForAreWellLinked(cfg, eventType, r.namespaces, TopicsFor(cfg, eventType));
  }

  /** `s` is a subscription with a single link, to the topic of `topicPath`. */
  predicate LinkedToTopicOf(cfg: TopologyConfig, s: EntityInfo, topicPath: string)
  {
    s.SubscriptionInfo? && |s.relationships| == 1 && s.relationships[0].target.path == cfg.sanitize(topicPath, Topic)
  }

  /** Some subscription in `subs` lives in namespace `n` and is linked to the
      topic of `topicPath`. */
  predicate Covered(cfg: TopologyConfig, subs: seq<EntityInfo>, n: NamespaceInfo, topicPath: string)
  {
    exists s :: s in subs && s.ns == n && LinkedToTopicOf(cfg, s, topicPath)
  }

  /** Every publisher path gets a subscription in every namespace, linked to
      that path's topic. */
  lemma {:induction false} SubscriptionsForCoverEveryTopic(cfg: TopologyConfig, eventType: EventType, namespaces: seq<NamespaceInfo>,
                                                          topicPaths: seq<string>, k: int, j: int)
    requires 0 <= k < |topicPaths| && 0 <= j < |namespaces|
    ensures Covered(cfg, SubscriptionsFor(cfg, eventType, namespaces, topicPaths), namespaces[j], topicPaths[k])
    decreases |topicPaths|
  {
    if k < |topicPaths| - 1 {
      SubscriptionsForCoverEveryTopic(cfg, eventType, namespaces, topicPaths[..|topicPaths| - 1], k, j);
      EarlierCoverStays(cfg, eventType, namespaces, topicPaths, k, j);
    } else {
      LastBlockCovers(cfg, eventType, namespaces, topicPaths, k, j);
    }
  }

  /** A subscription built for the earlier paths stays in the hierarchy. */
  lemma EarlierCoverStays(cfg: TopologyConfig, eventType: EventType, namespaces: seq<NamespaceInfo>, topicPaths: seq<string>, k: int, j: int)
    requires 0 <= k < |topicPaths| - 1 && 0 <= j < |namespaces|
    requires Covered(cfg, SubscriptionsFor(cfg, eventType, namespaces, topicPaths[..|topicPaths| - 1]), namespaces[j], topicPaths[..|topicPaths| - 1][k])
    ensures Covered(cfg, SubscriptionsFor(cfg, eventType, namespaces, topicPaths), namespaces[j], topicPaths[k])
  {
    var prefix := topicPaths[..|topicPaths| - 1];
    assert prefix[k] == topicPaths[k];
    var s :| s in SubscriptionsFor(cfg, eventType, namespaces, prefix) && s.ns == namespaces[j] && LinkedToTopicOf(cfg, s, prefix[k]);
    assert s in SubscriptionsFor(cfg, eventType, namespaces, topicPaths);
  }

  /** The last path gets a subscription in every namespace, linked to its topic. */
  lemma LastBlockCovers(cfg: TopologyConfig, eventType: EventType, namespaces: seq<NamespaceInfo>, topicPaths: seq<string>, k: int, j: int)
    requires k == |topicPaths| - 1 && k >= 0 && 0 <= j < |namespaces|
    ensures Covered(cfg, SubscriptionsFor(cfg, eventType, namespaces, topicPaths), namespaces[j], topicPaths[k])
  {
    var topics := TopicsOf(cfg, namespaces, topicPaths[k]);
    TopicsOfFindEveryNamespace(cfg, namespaces, topicPaths[k]);
    var block := SubscriptionsOn(cfg, eventType, namespaces, topics);
    assert SubscriptionsFor(cfg, eventType, namespaces, topicPaths) == SubscriptionsFor(cfg, eventType, namespaces, topicPaths[..k]) + block;
    assert block[j] in SubscriptionsFor(cfg, eventType, namespaces, topicPaths[..k]) + block;
    assert LinkedToTopicOf(cfg, block[j], topicPaths[k]);
  }

  /** Each publisher of the event type gets a subscription in every
      namespace, linked to that publisher's `.events` topic. */
  lemma SubscriptionHierarchyCoversEveryPublisher(cfg: TopologyConfig, eventType: EventType, i: int, j: int)
    requires 0 <= i < |cfg.addressesForEventType(eventType)|
    requires 0 <= j < |cfg.getNamespaces(cfg.endpointName, Creating)|
    ensures var r := SubscriptionHierarchy(cfg, eventType);
            exists s :: s in r.entities && s.ns == r.namespaces[j]
                        && LinkedToTopicOf(cfg, s, cfg.addressesForEventType(eventType)[i] + ".events")
  {
    var paths := EventsTopicPaths(cfg.addressesForEventType(eventType));
    TopicsForAreDistinctPublisherTopics(cfg, eventType);
    assert paths[i] in paths;
    var topicPaths := TopicsFor(cfg, eventType);
    var k :| 0 <= k < |topicPaths| && topicPaths[k] == paths[i];
    SubscriptionsForCoverEveryTopic(cfg, eventType, cfg.getNamespaces(cfg.endpointName, Creating), topicPaths, k, j);
  }

  lemma SubscriptionHierarchyIsConsistent(cfg: TopologyConfig, eventType: EventType)
    ensures Consistent(SubscriptionHierarchy(cfg, eventType))
  {
    var r := SubscriptionHierarchy(cfg, eventType);
    SubscriptionsForAreWellLinked(cfg, eventType, r.namespaces, TopicsFor(cfg, eventType));
    assert forall i :: 0 <= i < |r.entities| ==> r.entities[i] in r.entities;
  }

  // ----- The subscription link as the code makes it -----

  /** All topics built so far, path after path. */
  function TopicBlocks(cfg: TopologyConfig, namespaces: seq<NamespaceInfo>, topicPaths: seq<string>): seq<EntityInfo>
    decreases |topicPaths|
  {
    if topicPaths == [] then []
    else TopicBlocks(cfg, namespaces, topicPaths[..|topicPaths| - 1]) + TopicsOf(cfg, namespaces, topicPaths[|topicPaths| - 1])
  }

  /** Searching all topics built so far finds, in every namespace, the topic
      of the FIRST publisher path. */
  lemma {:induction false} FirstOfAllTopicsIsOfFirstPath(cfg: TopologyConfig, namespaces: seq<NamespaceInfo>, topicPaths: seq<string>)
    requires topicPaths != []
    ensures forall j :: 0 <= j < |namespaces| ==>
              FirstInNamespace(TopicBlocks(cfg, namespaces, topicPaths), namespaces[j])
              == FirstInNamespace(TopicsOf(cfg, namespaces, topicPaths[0]), namespaces[j])
    decreases |topicPaths|
  {
    TopicsOfFindEveryNamespace(cfg, namespaces, topicPaths[0]);
    var last := |topicPaths| - 1;
    var prefix := topicPaths[..last];
    if last == 0 {
      assert TopicBlocks(cfg, namespaces, topicPaths) == [] + TopicsOf(cfg, namespaces, topicPaths[0]);
      assert [] + TopicsOf(cfg, namespaces, topicPaths[0]) == TopicsOf(cfg, namespaces, topicPaths[0]);
    } else {
      FirstOfAllTopicsIsOfFirstPath(cfg, namespaces, prefix);
      assert prefix[0] == topicPaths[0];
      assert TopicBlocks(cfg, namespaces, topicPaths) == TopicBlocks(cfg, namespaces, prefix) + TopicsOf(cfg, namespaces, topicPaths[last]);
      forall j | 0 <= j < |namespaces|
        ensures FirstInNamespace(TopicBlocks(cfg, namespaces, topicPaths), namespaces[j])
                == FirstInNamespace(TopicsOf(cfg, namespaces, topicPaths[0]), namespaces[j])
      {
        FirstOfConcat(TopicBlocks(cfg, namespaces, prefix), TopicsOf(cfg, namespaces, topicPaths[last]), namespaces[j]);
      }
    }
  }

  /** The subscriptions as `BuildSubscriptionHierarchy` builds them: each is
      linked to the first topic in its namespace among ALL topics built so
      far, not among those of its own path. */
  function SubscriptionsForAsWritten(cfg: TopologyConfig, eventType: EventType, namespaces: seq<NamespaceInfo>, topicPaths: seq<string>)
    : (subs: seq<EntityInfo>)
    ensures |subs| == |topicPaths| * |namespaces|
    decreases |topicPaths|
  {
    if topicPaths == [] then []
    else
      var topics := TopicBlocks(cfg, namespaces, topicPaths);
      TopicsOfFindEveryNamespace(cfg, namespaces, topicPaths[0]);
      FirstOfAllTopicsIsOfFirstPath(cfg, namespaces, topicPaths);
      SubscriptionsForAsWritten(cfg, eventType, namespaces, topicPaths[..|topicPaths| - 1])
        + SubscriptionsOn(cfg, eventType, namespaces, topics)
  }

  /** `BuildSubscriptionHierarchy` as the code runs it. */
  function SubscriptionHierarchyAsWritten(cfg: TopologyConfig, eventType: EventType): TopologySection
  {
    var namespaces := cfg.getNamespaces(cfg.endpointName, Creating);
    TopologySection(namespaces, SubscriptionsForAsWritten(cfg, eventType, namespaces, TopicsFor(cfg, eventType)))
  }

  /** A subscription as the code builds it: for the event type, in one of the
      namespaces, with a single link to the topic of the first publisher
      path in an equal namespace. */
  predicate LinkedToFirstTopic(cfg: TopologyConfig, eventType: EventType, namespaces: seq<NamespaceInfo>, firstPath: string, s: EntityInfo)
  {
    && s.SubscriptionInfo? && |s.relationships| == 1
    && s == NewSubscription(cfg, eventType, s.ns, s.relationships[0].target)
    && s.ns in namespaces
    && s.relationships[0].target.entityType == Topic
    && OperatorEquals(Some(s.relationships[0].target.ns), Some(s.ns))
    && s.relationships[0].target.path == cfg.sanitize(firstPath, Topic)
  }

  /** As written, every subscription is linked to the topic of the FIRST
      publisher path, whatever topic it was meant for. */
  lemma {:induction false} AsWrittenLinksEverySubscriptionToFirstTopic(cfg: TopologyConfig, eventType: EventType,
                                                                     namespaces: seq<NamespaceInfo>, topicPaths: seq<string>)
    ensures forall s :: s in SubscriptionsForAsWritten(cfg, eventType, namespaces, topicPaths) ==>
              topicPaths != [] && LinkedToFirstTopic(cfg, eventType, namespaces, topicPaths[0], s)
    decreases |topicPaths|
  {
    if topicPaths != [] {
      var last := |topicPaths| - 1;
      var prefix := topicPaths[..last];
      AsWrittenLinksEverySubscriptionToFirstTopic(cfg, eventType, namespaces, prefix);
      TopicsOfFindEveryNamespace(cfg, namespaces, topicPaths[0]);
      FirstOfAllTopicsIsOfFirstPath(cfg, namespaces, topicPaths);
      var front := SubscriptionsForAsWritten(cfg, eventType, namespaces, prefix);
      var block := SubscriptionsOn(cfg, eventType, namespaces, TopicBlocks(cfg, namespaces, topicPaths));
      assert SubscriptionsForAsWritten(cfg, eventType, namespaces, topicPaths) == front + block;
      forall s | s in front + block
        ensures LinkedToFirstTopic(cfg, eventType, namespaces, topicPaths[0], s)
      {
        if s in front {
          assert prefix[0] == topicPaths[0];
        } else {
          var j :| 0 <= j < |block| && block[j] == s;
          assert namespaces[j] in namespaces;
        }
      }
    }
  }

  /** Every subscription the code builds carries the endpoint's names for the
      event type and the event type's filter, lives in one of the section's
      namespaces, and has exactly one subscription link, to the topic of the
      first publisher path in an equal namespace; there is one per publisher
      path and namespace. */
  lemma SubscriptionHierarchyAsWrittenShape(cfg: TopologyConfig, eventType: EventType)
    ensures var r := SubscriptionHierarchyAsWritten(cfg, eventType);
            var topicPaths := TopicsFor(cfg, eventType);
            && |r.entities| == |topicPaths| * |r.namespaces|
            && forall s :: s in r.entities ==>
                 && s.SubscriptionInfo? && s.entityType == Subscription && s.ns in r.namespaces
                 && s.path == cfg.sanitize(cfg.endpointName + "." + eventType.name, Subscription)
                 && s.metadata.description == cfg.endpointName + " subscribed to " + eventType.fullName
                 && s.metadata.subscriptionNameBasedOnEventWithNamespace == cfg.sanitize(cfg.endpointName + "." + eventType.fullName, Subscription)
                 && s.brokerSideFilter == SqlSubscriptionFilter(eventType)
                 && |s.relationships| == 1 && s.relationships[0].relationshipType == SubscriptionRelationship
                 && s.relationships[0].target.entityType == Topic
                 && OperatorEquals(Some(s.relationships[0].target.ns), Some(s.ns))
                 && topicPaths != [] && s.relationships[0].target.path == cfg.sanitize(topicPaths[0], Topic)
  {
    var r := SubscriptionHierarchyAsWritten(cfg, eventType);
    AsWrittenLinksEverySubscriptionToFirstTopic(cfg, eventType, r.namespaces, TopicsFor(cfg, eventType));
  }

  lemma SubscriptionHierarchyAsWrittenIsConsistent(cfg: TopologyConfig, eventType: EventType)
    ensures Consistent(SubscriptionHierarchyAsWritten(cfg, eventType))
  {
    var r := SubscriptionHierarchyAsWritten(cfg, eventType);
    AsWrittenLinksEverySubscriptionToFirstTopic(cfg, eventType, r.namespaces, TopicsFor(cfg, eventType));
    assert forall i :: 0 <= i < |r.entities| ==> r.entities[i] in r.entities;
  }

  /** With at most one publisher the code's link is the intended one. */
  lemma AsWrittenAgreesForOnePublisher(cfg: TopologyConfig, eventType: EventType, namespaces: seq<NamespaceInfo>, topicPaths: seq<string>)
    requires |topicPaths| <= 1
    ensures SubscriptionsForAsWritten(cfg, eventType, namespaces, topicPaths) == SubscriptionsFor(cfg, eventType, namespaces, topicPaths)
  {
    if |topicPaths| == 1 {
      var topics := TopicsOf(cfg, namespaces, topicPaths[0]);
      assert topicPaths[1..] == [] && topicPaths[..0] == [];
      assert TopicBlocks(cfg, namespaces, topicPaths) == topics;
      TopicsOfFindEveryNamespace(cfg, namespaces, topicPaths[0]);
      assert SubscriptionsForAsWritten(cfg, eventType, namespaces, topicPaths) == [] + SubscriptionsOn(cfg, eventType, namespaces, topics);
    }
  }

  /** Two publishers A and B of one event, one namespace, no sanitization:
      the code links both subscriptions to `A.events`, so the section holds
      the same subscription twice and none for `B.events`; the intended
      link puts the second one on `B.events`. */
  lemma AsWrittenDuplicatesSubscriptionForTwoPublishers(cfg: TopologyConfig, eventType: EventType, ns: NamespaceInfo)
    requires forall s, t :: cfg.sanitize(s, t) == s
    ensures var asWritten := SubscriptionsForAsWritten(cfg, eventType, [ns], ["A.events", "B.events"]);
            var intended := SubscriptionsFor(cfg, eventType, [ns], ["A.events", "B.events"]);
            && |asWritten| == 2 && asWritten[0] == asWritten[1]
            && asWritten[1].relationships[0].target.path == "A.events"
            && |intended| == 2 && intended[1].relationships[0].target.path == "B.events"
  {
    AsWrittenLinksBothToA(cfg, eventType, ns);
    IntendedLinksSecondToB(cfg, eventType, ns);
  }

  /** The half of the example above that the code builds. */
  lemma AsWrittenLinksBothToA(cfg: TopologyConfig, eventType: EventType, ns: NamespaceInfo)
    requires forall s, t :: cfg.sanitize(s, t) == s
    ensures var asWritten := SubscriptionsForAsWritten(cfg, eventType, [ns], ["A.events", "B.events"]);
            && |asWritten| == 2 && asWritten[0] == asWritten[1]
            && asWritten[1].relationships[0].target.path == "A.events"
  {
    var paths := ["A.events", "B.events"];
    assert paths[..1] == ["A.events"] && paths[..1][0] == paths[0];
    TopicsOfFindEveryNamespace(cfg, [ns], "A.events");
    FirstOfAllTopicsIsOfFirstPath(cfg, [ns], paths);
    FirstOfAllTopicsIsOfFirstPath(cfg, [ns], paths[..1]);
    var target := FirstInNamespace(TopicsOf(cfg, [ns], "A.events"), ns).value;
    var front := SubscriptionsForAsWritten(cfg, eventType, [ns], paths[..1]);
    var block := SubscriptionsOn(cfg, eventType, [ns], TopicBlocks(cfg, [ns], paths));
    assert front == [] + SubscriptionsOn(cfg, eventType, [ns], TopicBlocks(cfg, [ns], paths[..1]));
    assert front[0] == NewSubscription(cfg, eventType, ns, target);
    assert block[0] == NewSubscription(cfg, eventType, ns, target);
    assert SubscriptionsForAsWritten(cfg, eventType, [ns], paths) == front + block;
  }

  /** The half of the example above that the corrected loop builds. */
  lemma IntendedLinksSecondToB(cfg: TopologyConfig, eventType: EventType, ns: NamespaceInfo)
    requires forall s, t :: cfg.sanitize(s, t) == s
    ensures var intended := SubscriptionsFor(cfg, eventType, [ns], ["A.events", "B.events"]);
            |intended| == 2 && intended[1].relationships[0].target.path == "B.events"
  {
    var paths := ["A.events", "B.events"];
    LastBlockIsWellLinked(cfg, eventType, [ns], paths, 0);
    var block := SubscriptionsOn(cfg, eventType, [ns], TopicsOf(cfg, [ns], paths[1]));
    assert paths[..1] == ["A.events"];
    assert SubscriptionsFor(cfg, eventType, [ns], paths) == SubscriptionsFor(cfg, eventType, [ns], paths[..1]) + block;
  }

  // ----- The manager -----

  /** `StandardTopologySectionManager`: a resolver over fixed configuration
      whose only state is its cache of subscription sections per event type. */
  class StandardTopologySectionManager {
    const cfg: TopologyConfig
    var subscriptions: map<EventType, TopologySection>

    /** Every cached section is the hierarchy the code builds for its event type. */
    ghost predicate Valid()
      reads this
    {
      forall e :: e in subscriptions ==> subscriptions[e] == SubscriptionHierarchyAsWritten(cfg, e)
    }

    constructor (cfg: TopologyConfig)
      ensures Valid() && this.cfg == cfg && subscriptions == map[]
    {
      this.cfg := cfg;
      subscriptions := map[];
    }

    /** The input queue in every receiving namespace. */
    function DetermineReceiveResources(inputQueue: string): (r: TopologySection)
      ensures r.namespaces == cfg.getNamespaces(inputQueue, Receiving)
      ensures |r.entities| == |r.namespaces|
      ensures forall x :: x in r.entities <==> x.ns in r.namespaces && x == EntityInfo(cfg.sanitize(inputQueue, Queue), Queue, x.ns)
      ensures Consistent(r)
    {
      var namespaces := cfg.getNamespaces(inputQueue, Receiving);
      EntitiesInMembership(namespaces, cfg.sanitize(inputQueue, Queue), Queue);
      TopologySection(namespaces, EntitiesIn(namespaces, cfg.sanitize(inputQueue, Queue), Queue))
    }

    /** The endpoint's `.events` topic in every sending namespace, whatever
        the event type. */
    function DeterminePublishDestination(eventType: EventType): (r: TopologySection)
      ensures r.namespaces == cfg.getNamespaces(cfg.endpointName, Sending)
      ensures |r.entities| == |r.namespaces|
      ensures forall x :: x in r.entities
                          <==> x.ns in r.namespaces && x == EntityInfo(cfg.sanitize(cfg.endpointName + ".events", Topic), Topic, x.ns)
      ensures Consistent(r)
    {
      var namespaces := cfg.getNamespaces(cfg.endpointName, Sending);
      EntitiesInMembership(namespaces, cfg.sanitize(cfg.endpointName + ".events", Topic), Topic);
      TopologySection(namespaces, EntitiesIn(namespaces, cfg.sanitize(cfg.endpointName + ".events", Topic), Topic))
    }

    /** The destination's input queue in every sending namespace. */
    function DetermineSendDestination(destination: string): (r: TopologySection)
      ensures r.namespaces == cfg.getNamespaces(destination, Sending)
      ensures |r.entities| == |r.namespaces|
      ensures forall x :: x in r.entities <==> x.ns in r.namespaces && x == EntityInfo(cfg.sanitize(destination, Queue), Queue, x.ns)
      ensures Consistent(r)
    {
      var namespaces := cfg.getNamespaces(destination, Sending);
      EntitiesInMembership(namespaces, cfg.sanitize(destination, Queue), Queue);
      TopologySection(namespaces, EntitiesIn(namespaces, cfg.sanitize(destination, Queue), Queue))
    }

    method DetermineResourcesToCreate() returns (r: TopologySection)
      ensures r == ResourcesToCreate(cfg)
    {
      var namespaces := cfg.getNamespaces(cfg.endpointName, Creating);
      var entities := EntitiesIn(namespaces, cfg.sanitize(cfg.endpointName, Queue), Queue);
      entities := entities + EntitiesIn(namespaces, cfg.sanitize(cfg.endpointName + ".events", Topic), Topic);
      if cfg.queueBindings.Some? {
        entities := AddQueueBindings(entities, namespaces, cfg.queueBindings.value);
      }
      r := TopologySection(namespaces, entities);
    }

    method DetermineTopicsFor(eventType: EventType) returns (result: seq<string>)
      ensures result == TopicsFor(cfg, eventType)
    {
      var addresses := cfg.addressesForEventType(eventType);
      result := [];
      var i := 0;
      while i < |addresses|
        invariant 0 <= i <= |addresses|
        invariant result == Dedup(EventsTopicPaths(addresses[..i]))
      {
        var path := addresses[i] + ".events";
        assert EventsTopicPaths(addresses[..i + 1])[..i] == EventsTopicPaths(addresses[..i]);
        if path !in result {
          result := result + [path];
        }
        i := i + 1;
      }
      assert addresses[..i] == addresses;
    }

    /** As the code runs it: each subscription is linked to the first topic
        in its namespace among all topics built so far (see Findings). */
    method BuildSubscriptionHierarchy(eventType: EventType) returns (r: TopologySection)
      ensures r == SubscriptionHierarchyAsWritten(cfg, eventType)
    {
      var namespaces := cfg.getNamespaces(cfg.endpointName, Creating);
      var topicPaths := DetermineTopicsFor(eventType);
      var topics: seq<EntityInfo> := [];
      var subs: seq<EntityInfo> := [];
      var k := 0;
      while k < |topicPaths|
        invariant 0 <= k <= |topicPaths|
        invariant topics == TopicBlocks(cfg, namespaces, topicPaths[..k])
        invariant subs == SubscriptionsForAsWritten(cfg, eventType, namespaces, topicPaths[..k])
      {
        ghost var paths := topicPaths[..k + 1];
        assert paths[..k] == topicPaths[..k] && paths[0] == topicPaths[0] && paths[k] == topicPaths[k];
        assert TopicBlocks(cfg, namespaces, paths) == TopicBlocks(cfg, namespaces, topicPaths[..k]) + TopicsOf(cfg, namespaces, topicPaths[k]);
        topics := topics + EntitiesIn(namespaces, cfg.sanitize(topicPaths[k], Topic), Topic);
        TopicsOfFindEveryNamespace(cfg, namespaces, topicPaths[0]);
        FirstOfAllTopicsIsOfFirstPath(cfg, namespaces, paths);
        assert SubscriptionsForAsWritten(cfg, eventType, namespaces, paths)
            == SubscriptionsForAsWritten(cfg, eventType, namespaces, topicPaths[..k]) + SubscriptionsOn(cfg, eventType, namespaces, topics);
        subs := subs + SubscriptionsOn(cfg, eventType, namespaces, topics);
        k := k + 1;
      }
      assert topicPaths[..k] == topicPaths;
      r := TopologySection(namespaces, subs);
    }

    /** Built once per event type, then served from the cache. */
    method DetermineResourcesToSubscribeTo(eventType: EventType) returns (r: TopologySection)
      requires Valid()
      modifies this
      ensures Valid()
      ensures r == SubscriptionHierarchyAsWritten(cfg, eventType)
      ensures subscriptions == old(subscriptions)[eventType := r]
    {
      if eventType !in subscriptions {
        var built := BuildSubscriptionHierarchy(eventType);
        subscriptions := subscriptions[eventType := built];
      }
      r := subscriptions[eventType];
    }

    /** Removes and returns the cached section, or an empty section when the
        event type was never subscribed to. */
    method DetermineResourcesToUnsubscribeFrom(eventType: EventType) returns (r: TopologySection)
      requires Valid()
      modifies this
      ensures Valid()
      ensures r == if eventType in old(subscriptions) then SubscriptionHierarchyAsWritten(cfg, eventType) else TopologySection([], [])
      ensures subscriptions == old(subscriptions) - {eventType}
    {
      if eventType in subscriptions {
        r := subscriptions[eventType];
        subscriptions := subscriptions - {eventType};
      } else {
        r := TopologySection([], []);
      }
    }
  }

  /** With the replicated partitioning strategy, sending to a queue resolves
      to the same section as receiving from it. */
  lemma ReplicatedSendMatchesReceive(m: StandardTopologySectionManager, strategy: ReplicatedNamespacePartitioningStrategy, queue: string)
    requires forall name, intent :: m.cfg.getNamespaces(name, intent) == GetNamespaces(strategy, name, intent)
    ensures m.DetermineSendDestination(queue) == m.DetermineReceiveResources(queue)
  {
    GetNamespacesIgnoresEndpointAndIntent(strategy, queue, Sending, queue, Receiving);
  }
}
