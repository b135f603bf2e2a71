# Azure Service Bus transport core, modelled in Dafny

This project models the core of the NServiceBus Azure Service Bus transport and proves properties of that model:

- **The standard topology section manager.** It resolves an endpoint, a destination or an event type to broker entities (queues, topics and subscriptions) across the namespaces that the partitioning strategy yields. It also keeps a per-event-type cache of subscription sections.
- **The replicated namespace partitioning strategy.**
- **The namespace value (`NamespaceInfo`)**, with its equality and hashing.
- **The queue creator.** It provisions one queue idempotently:
  - it builds a description;
  - it checks existence through a memoising cache;
  - it creates the queue if absent, or updates it if a mutable field differs;
  - it recovers from already-exists, timeout and transient failures.
- **The default configuration values** that the creator's description factory reads.
- **The retry-on-throttle wrapper** used when sending.
- **The walk along inner exceptions** that decides whether a creation failure was transient.

Files and modules:

| file | module | models |
|---|---|---|
| `Wrappers.dfy` | `Wrappers` | `Option` and `Result` |
| `Exceptions.dfy` | `Exceptions`, `CreationExceptionHandling` | exception kinds and inner-exception chains; `IsInnerExceptionTransient` |
| `MetaModel.dfy` | `MetaModel` | `NamespaceInfo` |
| `Partitioning.dfy` | `Partitioning` | `ReplicatedNamespacePartitioningStrategy` |
| `Retry.dfy` | `TaskWithRetry` | `RetryOnThrottleAsync` |
| `Settings.dfy` | `Settings` | the settings store, limited to what the core uses |
| `DefaultConfiguration.dfy` | `DefaultConfiguration` | `DefaultConfigurationValues` |
| `NamespaceManagement.dfy` | `NamespaceManagement` | the namespace manager the creator calls: a queue store whose calls are recorded and can be scripted to fail |
| `QueueCreation.dfy` | `QueueCreation` | `AzureServiceBusQueueCreator` |
| `Topology.dfy` | `Topology` | `StandardTopologySectionManager` |

The model takes the form of the source:

- **Objects whose fields change are classes**, with `modifies` clauses:
  - the settings holder;
  - the configuration applier;
  - the namespace manager;
  - the queue creator and its existence cache;
  - the section manager and its subscription cache.
- **Loops are `while` loops**, each proved against a specification function:
  - the inner-exception walk;
  - adding queue bindings;
  - collecting an event type's topics without duplicates;
  - building the subscription hierarchy.
- **Expression code is functions.**

Broker calls are asynchronous in the source. Here each call completes before the next one starts. A completed call either answers or faults.

A subscription's physical path is built from the event type's short name: `endpoint + "." + eventType.Name` (`src/Transport/Topology/Topologies/StandardTopologySectionManager.cs:149-150`). The name built from the full name is only kept in the metadata, as `SubscriptionNameBasedOnEventWithNamespace` (line 176).

The classes follow the code as written, including the two defects listed under Findings:

- `AzureServiceBusQueueCreator.Create` behaves as `CreateStepsAsWritten`;
- `StandardTopologySectionManager.BuildSubscriptionHierarchy` builds `SubscriptionHierarchyAsWritten`.

The corrected behaviour is modelled beside them as functions (`CreateSteps`, `SubscriptionsFor`, `SubscriptionHierarchy`), with the intended properties proved about those.

## Model

| member | source | states |
|---|---|---|
| `Exceptions.AsMessaging` | src/Transport/Creation/CreationExceptionHandling.cs:18 | `as MessagingException` yields the exception itself exactly when it is a messaging exception, and null otherwise |
| `CreationExceptionHandling.IsInnerExceptionTransient` | src/Transport/Creation/CreationExceptionHandling.cs:7-22 | true exactly when some link of the chain is transient or an already-exists exception; the chain is the receiver, then its inner exceptions while they are messaging exceptions; a null receiver yields false |
| `CreationExceptionHandling.ForeignLinkEndsWalk` | src/Transport/Creation/CreationExceptionHandling.cs:18 | an inner exception that is not a messaging exception ends the walk; transient exceptions below it are never seen |
| `CreationExceptionHandling.ChainLinksAreMessaging` | src/Transport/Creation/CreationExceptionHandling.cs:9-18 | every link the walk visits is a messaging exception |
| `MetaModel.NewNamespaceInfo` | src/Transport/Topology/MetaModel/NamespaceInfo.cs:5-9 | stores the connection string and the mode; the mode defaults to active |
| `MetaModel.Equals` | src/Transport/Topology/MetaModel/NamespaceInfo.cs:15-35 | equal exactly when the other object is non-null, of the same runtime class and has the same connection string; the mode is ignored |
| `MetaModel.Wrap32` | src/Transport/Topology/MetaModel/NamespaceInfo.cs:39-42 | an `unchecked` result is congruent to the exact product modulo 2^32 |
| `MetaModel.GetHashCode` | src/Transport/Topology/MetaModel/NamespaceInfo.cs:37-43 | a null connection string hashes to 0 |
| `MetaModel.OperatorEquals` | src/Transport/Topology/MetaModel/NamespaceInfo.cs:45-48 | two nulls are equal; a null equals nothing else; otherwise `Equals` decides |
| `MetaModel.OperatorNotEquals` | src/Transport/Topology/MetaModel/NamespaceInfo.cs:50-53 | true exactly when one side is null and the other is not, or the runtime classes differ, or the connection strings differ |
| `MetaModel.EqualsIsEquivalence` | src/Transport/Topology/MetaModel/NamespaceInfo.cs:15-35 | equality on non-null instances is reflexive, symmetric and transitive |
| `MetaModel.ModeDoesNotAffectEquality` | src/Transport/Topology/MetaModel/NamespaceInfo.cs:17 | switching the mode of either side never changes equality |
| `MetaModel.ModeDoesNotAffectHashCode` | src/Transport/Topology/MetaModel/NamespaceInfo.cs:41 | switching the mode never changes the hash code |
| `MetaModel.EqualInstancesHashAlike` | src/Transport/Topology/MetaModel/NamespaceInfo.cs:15-43 | equal instances have equal hash codes |
| `Partitioning.NewReplicatedNamespacePartitioningStrategy` | src/Transport/Addressing/Partitioning/Strategies/ReplicatedNamespacePartitioningStrategy.cs:12-26 | fails with a `ConfigurationErrorsException` carrying the fixed message exactly when fewer than two connection strings are configured (a missing setting counts as none); otherwise keeps the list as given |
| `Partitioning.GetNamespaces` | src/Transport/Addressing/Partitioning/Strategies/ReplicatedNamespacePartitioningStrategy.cs:28-31 | one active namespace per configured connection string, in configured order |
| `Partitioning.GetNamespacesIgnoresEndpointAndIntent` | src/Transport/Addressing/Partitioning/Strategies/ReplicatedNamespacePartitioningStrategy.cs:28-31 | the answer is the same for every endpoint name and intent |
| `Partitioning.ConstructedStrategyYieldsAtLeastTwo` | src/Transport/Addressing/Partitioning/Strategies/ReplicatedNamespacePartitioningStrategy.cs:12-31 | every strategy that was built yields at least two namespaces, all active |
| `TaskWithRetry.RetryOnThrottle` | src/Transport/Connectivity/TaskWithRetryExtensions.cs:12-34 | a call makes between 1 and (retries left + 1) attempts; the first uses `action` only when the counter is 0, all later ones use `retryAction`; the fixed delay is awaited exactly once between consecutive attempts |
| `TaskWithRetry.RetryRunShape` | src/Transport/Connectivity/TaskWithRetryExtensions.cs:14-33 | every attempt but the last was throttled; the call ends as the last attempt did; a throttling exception escapes only once the counter has reached the maximum |
| `TaskWithRetry.AttemptsAreBounded` | src/Transport/Connectivity/TaskWithRetryExtensions.cs:17-27 | from a fresh call there is one `action` and at most `maxRetryAttempts` runs of `retryAction` |
| `TaskWithRetry.PersistentThrottlingExhaustsRetries` | src/Transport/Connectivity/TaskWithRetryExtensions.cs:20-32 | when every attempt is throttled, the call makes exactly the allowed number of attempts and then rethrows |
| `TaskWithRetry.OtherExceptionsPropagate` | src/Transport/Connectivity/TaskWithRetryExtensions.cs:14-20 | any exception other than server-busy propagates after a single attempt |
| `Settings.GetConditionalBool` | src/Transport/Creation/AzureServiceBusQueueCreator.cs:39 | a path that the condition accepts gets the stored flag (false when none is stored); any other path gets false |
| `Settings.GetConditionalText` | src/Transport/Creation/AzureServiceBusQueueCreator.cs:40-41 | a path that the condition accepts gets the stored target (none when none is stored); any other path gets none |
| `DefaultConfiguration.WithDefaultValues` | src/Transport/Config/DefaultConfigurationValues.cs:15-41 | "Transport.CreateQueues" resolves to true; every other key only gains a default, so explicit values stay in force; a key without an explicit value resolves to its registered default |
| `DefaultConfiguration.ApplyIsIdempotent` | src/Transport/Config/DefaultConfigurationValues.cs:15-41 | applying the defaults twice is the same as applying them once |
| `DefaultConfiguration.RegisterDefaultsAddsQueueDefaults` | src/Transport/Config/DefaultConfigurationValues.cs:19-40 | the nineteen `SetDefault` calls, with `RequiresSession` registered twice, add exactly the eighteen documented defaults |
| `DefaultConfiguration.DefaultConfigurationValues.Apply` | src/Transport/Config/DefaultConfigurationValues.cs:8-13 | populates the given store in place and returns that same store |
| `DefaultConfiguration.DefaultConfigurationValues.ApplyDefaultValuesForQueueDescriptions` | src/Transport/Config/DefaultConfigurationValues.cs:15-41 | the store afterwards is `WithDefaultValues` of the store before |
| `QueueCreation.DefaultDescriptionFactory` | src/Transport/Creation/AzureServiceBusQueueCreator.cs:24-42 | the description carries the queue path; express mode is on exactly when its condition accepts the path and the stored flag is on; each forwarding target is the stored one where its condition accepts the path, and none elsewhere |
| `QueueCreation.DefaultDescriptionFromAppliedDefaults` | src/Transport/Creation/AzureServiceBusQueueCreator.cs:24-42 | on a store holding only the applied defaults, the factory yields a 30 s lock, 1024 MB, a 10 min duplicate-detection window, 6 deliveries, batched operations, infinite time-to-live and idle time, and no forwarding |
| `QueueCreation.ConditionalForwardTo` | src/Transport/Creation/AzureServiceBusQueueCreator.cs:41 | a configured forwarding target lands exactly on the queues whose path its condition accepts |
| `QueueCreation.ConditionalEnableExpress` | src/Transport/Creation/AzureServiceBusQueueCreator.cs:39 | with express mode configured on, exactly the queues whose path the condition accepts get it |
| `QueueCreation.ConditionalForwardDeadLetteredMessagesTo` | src/Transport/Creation/AzureServiceBusQueueCreator.cs:40 | a configured dead-letter forwarding target lands exactly on the queues whose path its condition accepts |
| `QueueCreation.MembersAreNotEqual` | src/Transport/Creation/AzureServiceBusQueueCreator.cs:126-153 | true exactly when the two descriptions differ in a field other than the path and the three non-updatable ones (duplicate detection, partitioning, sessions) |
| `QueueCreation.ExistsCheck` | src/Transport/Creation/AzureServiceBusQueueCreator.cs:110-124 | `GetOrAdd` on the cache: the namespace is asked only for an uncached path, and its answer or fault is cached; a cached path is answered from the cache with nothing changed; other entries are untouched; `removeCacheEntry` is not read |
| `QueueCreation.TryCreate` | src/Transport/Creation/AzureServiceBusQueueCreator.cs:50-77 | the `try` block runs to the end only with the queue in the namespace, and then returns the built description; afterwards the path is cached, and no other cache entry changes |
| `QueueCreation.Recover` | src/Transport/Creation/AzureServiceBusQueueCreator.cs:78-104 | a returned value is the built description; except after a timeout, the namespace and cache are untouched, the call succeeds exactly for an already-exists or transient messaging exception, and otherwise that same exception escapes; a path already cached stays cached, with no key added |
| `QueueCreation.CreateStepsAsWritten` | src/Transport/Creation/AzureServiceBusQueueCreator.cs:46-107 | `Create` as the code runs it: a returned value is the built description; with creation off nothing is called and nothing changes; otherwise the path ends up cached |
| `QueueCreation.CreateSteps` | src/Transport/Creation/AzureServiceBusQueueCreator.cs:46-107 | the corrected `Create` (see Findings), whose re-check after a timeout drops the cached answer: a returned value is the built description; with creation off nothing is called and nothing changes; otherwise the path ends up cached |
| `QueueCreation.TryCreateCachesPath` | src/Transport/Creation/AzureServiceBusQueueCreator.cs:50-77 | after the `try` block the path is cached, and a cached fault is the exception the block threw |
| `QueueCreation.AbsentQueueIsCreatedOnce` | src/Transport/Creation/AzureServiceBusQueueCreator.cs:54-60 | a queue reported absent gets exactly one create call, with the built description; when it succeeds, `Create` returns the description, the queue is stored and the cache says it exists |
| `QueueCreation.ExistingQueueIsUpdatedOnlyWhenMembersDiffer` | src/Transport/Creation/AzureServiceBusQueueCreator.cs:61-71 | a queue reported present is fetched, and updated exactly when `MembersAreNotEqual` holds |
| `QueueCreation.ExistenceIsMemoized` | src/Transport/Creation/AzureServiceBusQueueCreator.cs:110-124 | in the `try` block existence is asked at most once, first, and never for a cached path |
| `QueueCreation.RecoveryNeverCallsNamespaceAsWritten` | src/Transport/Creation/AzureServiceBusQueueCreator.cs:83-94 | as written, the `catch` clauses never call the namespace: the re-check after a timeout is served from the cache, which always holds the path by then |
| `QueueCreation.RecoveryAsksOnlyAfterTimeout` | src/Transport/Creation/AzureServiceBusQueueCreator.cs:78-104 | in the corrected `Create`, the `catch` clauses call the namespace only after a timeout, and then exactly once, for existence |
| `QueueCreation.OnlyUnrecoverableFailuresEscape` | src/Transport/Creation/AzureServiceBusQueueCreator.cs:78-104 | as written, an escaping exception is one the `try` block threw that is neither already-exists nor a transient messaging exception; a timeout escapes exactly when the cache does not record the queue as present |
| `QueueCreation.CorrectedOnlyUnrecoverableFailuresEscape` | src/Transport/Creation/AzureServiceBusQueueCreator.cs:78-104 | in the corrected `Create`, an escaping exception is one the `try` block threw that is neither already-exists nor transient (a timeout only when the namespace, asked again, reports the queue absent), or one that the re-check threw |
| `QueueCreation.TimeoutIsRecoveredWhenQueueExists` | src/Transport/Creation/AzureServiceBusQueueCreator.cs:83-94 | in the corrected `Create`, after a timeout the call succeeds exactly when the namespace, asked again, reports the queue present |
| `QueueCreation.TimeoutOnCreateAlwaysEscapesAsWritten` | src/Transport/Creation/AzureServiceBusQueueCreator.cs:83-94 | as written, a timeout on creating a queue reported absent always escapes, even when the queue was created |
| `QueueCreation.TimeoutAfterCreatingIsRecovered` | src/Transport/Creation/AzureServiceBusQueueCreator.cs:83-94 | in the corrected `Create`, the same scenario returns the description and caches that the queue exists |
| `QueueCreation.AsWrittenAgreesWithoutTimeout` | src/Transport/Creation/AzureServiceBusQueueCreator.cs:46-107 | the code as written and the corrected version behave the same whenever the `try` block does not time out |
| `QueueCreation.SecondCreateOnlyFetches` | src/Transport/Creation/AzureServiceBusQueueCreator.cs:46-107 | two `Create` calls in a row against an undisturbed namespace both return the description; the second makes only a fetch: no existence query, no creation and no update |
| `QueueCreation.AzureServiceBusQueueCreator.constructor` | src/Transport/Creation/AzureServiceBusQueueCreator.cs:18-44 | uses the configured description factory if there is one, the default factory otherwise; the existence cache starts empty |
| `QueueCreation.AzureServiceBusQueueCreator.ExistsAsync` | src/Transport/Creation/AzureServiceBusQueueCreator.cs:110-124 | the answer, the new cache and the namespace afterwards are those of `ExistsCheck`, whatever `removeCacheEntry` says |
| `QueueCreation.AzureServiceBusQueueCreator.Create` | src/Transport/Creation/AzureServiceBusQueueCreator.cs:46-107 | the answer, the new cache and the namespace afterwards are those of `CreateStepsAsWritten`, for the description the factory builds |
| `Topology.StandardTopologySectionManager.constructor` | src/Transport/Topology/Topologies/StandardTopologySectionManager.cs:22-26 | starts with an empty subscription cache, which is trivially coherent |
| `Topology.StandardTopologySectionManager.DetermineReceiveResources` | src/Transport/Topology/Topologies/StandardTopologySectionManager.cs:28-43 | the receiving namespaces, and exactly one entity per namespace: the sanitized input queue in that namespace; the section is consistent |
| `Topology.StandardTopologySectionManager.DeterminePublishDestination` | src/Transport/Topology/Topologies/StandardTopologySectionManager.cs:94-111 | the sending namespaces, and exactly one entity per namespace: the endpoint's sanitized `.events` topic, whatever the event type; consistent |
| `Topology.StandardTopologySectionManager.DetermineSendDestination` | src/Transport/Topology/Topologies/StandardTopologySectionManager.cs:113-128 | the sending namespaces, and exactly one entity per namespace: the destination's sanitized queue; consistent |
| `Topology.ReplicatedSendMatchesReceive` | src/Transport/Topology/Topologies/StandardTopologySectionManager.cs:113-128 | with the replicated strategy, sending to a queue resolves to the same section as receiving from it |
| `Topology.AddQueueBindings` | src/Transport/Topology/Topologies/StandardTopologySectionManager.cs:68-84 | the loop over the namespaces appends exactly `BindingEntities`: for each namespace in order, its receiving and then its sending addresses as queues |
| `Topology.StandardTopologySectionManager.DetermineResourcesToCreate` | src/Transport/Topology/Topologies/StandardTopologySectionManager.cs:45-92 | the loop builds exactly `ResourcesToCreate` |
| `Topology.BindingEntitiesCount` | src/Transport/Topology/Topologies/StandardTopologySectionManager.cs:68-84 | the bindings add (receiving + sending addresses) entities per namespace |
| `Topology.BindingEntitiesMembership` | src/Transport/Topology/Topologies/StandardTopologySectionManager.cs:68-84 | the binding entities are exactly the bound addresses, unsanitized, as queues in each namespace |
| `Topology.CreationSectionLayout` | src/Transport/Topology/Topologies/StandardTopologySectionManager.cs:54-63 | the creating namespaces; first the input queue in each, then the `.events` topic in each, then the bindings; the size is 2n plus n times the number of bound addresses |
| `Topology.CreationSectionHoldsEveryBinding` | src/Transport/Topology/Topologies/StandardTopologySectionManager.cs:65-85 | after the queues and topics come exactly the bound addresses, as queues, in every namespace of the section |
| `Topology.CreationSectionIsConsistent` | src/Transport/Topology/Topologies/StandardTopologySectionManager.cs:45-92 | every entity to create lives in one of the section's namespaces |
| `Topology.StandardTopologySectionManager.DetermineTopicsFor` | src/Transport/Topology/Topologies/StandardTopologySectionManager.cs:196-225 | the loop builds exactly `TopicsFor`: the publishers' `.events` paths without duplicates, in order of first occurrence |
| `Topology.DedupKeepsElements` | src/Transport/Topology/Topologies/StandardTopologySectionManager.cs:219-223 | deduplication keeps exactly the elements of its input |
| `Topology.DedupHasNoDuplicates` | src/Transport/Topology/Topologies/StandardTopologySectionManager.cs:219-223 | the deduplicated list has no repeated element |
| `Topology.DedupOfDistinctIsIdentity` | src/Transport/Topology/Topologies/StandardTopologySectionManager.cs:219-223 | a list without duplicates is kept as it is, in order |
| `Topology.DedupPairOrdered` | src/Transport/Topology/Topologies/StandardTopologySectionManager.cs:219-223 | of two positions in the deduplicated list, the earlier one holds the element that occurs first in the input |
| `Topology.DedupFollowsFirstOccurrence` | src/Transport/Topology/Topologies/StandardTopologySectionManager.cs:219-223 | the deduplicated list is ordered by first occurrence in the input |
| `Topology.DedupKeepsFirstOccurrenceOrder` | src/Transport/Topology/Topologies/StandardTopologySectionManager.cs:219-223 | of two input elements, one comes before the other in the deduplicated list exactly when it occurs first in the input |
| `Topology.DedupStartsWithFirst` | src/Transport/Topology/Topologies/StandardTopologySectionManager.cs:219-223 | the deduplicated list starts with the first input element |
| `Topology.TopicsForAreDistinctPublisherTopics` | src/Transport/Topology/Topologies/StandardTopologySectionManager.cs:196-225 | an event type's topics are its publishers' `.events` topics, each exactly once |
| `Topology.TopicsForFollowPublisherOrder` | src/Transport/Topology/Topologies/StandardTopologySectionManager.cs:219-223 | one topic comes before another exactly when its publisher is listed first |
| `Topology.TopicsForStartsWithFirstPublisher` | src/Transport/Topology/Topologies/StandardTopologySectionManager.cs:219-223 | the first topic is the first publisher's `.events` topic |
| `Topology.FirstInNamespace` | src/Transport/Topology/Topologies/StandardTopologySectionManager.cs:183 | finds a topic whose namespace is `==` the given one, or reports that none exists |
| `Topology.FirstOfConcat` | src/Transport/Topology/Topologies/StandardTopologySectionManager.cs:183 | a match in an earlier block is found before anything behind it |
| `Topology.TopicsOfFindEveryNamespace` | src/Transport/Topology/Topologies/StandardTopologySectionManager.cs:158-183 | among the topics of one path, every namespace finds a topic of that path |
| `Topology.NewSubscription` | src/Transport/Topology/Topologies/StandardTopologySectionManager.cs:166-187 | a subscription in the given namespace; its path is built from the short name and its metadata name from the full name; it carries the event type's filter and a single subscription link to the given topic |
| `Topology.SubscriptionsFor` | src/Transport/Topology/Topologies/StandardTopologySectionManager.cs:156-188 | the corrected loop (see Findings): one subscription per publisher path and namespace, each linked to the topic of its own path |
| `Topology.SubscriptionsForAsWritten` | src/Transport/Topology/Topologies/StandardTopologySectionManager.cs:156-188 | one subscription per publisher path and namespace, linked as the code links them |
| `Topology.SubscriptionsForAreWellLinked` | src/Transport/Topology/Topologies/StandardTopologySectionManager.cs:156-188 | in the corrected loop, every subscription is built for the event type, lives in one of the namespaces, and has one link to a publisher topic in an equal namespace |
| `Topology.SubscriptionsForCoverEveryTopic` | src/Transport/Topology/Topologies/StandardTopologySectionManager.cs:156-188 | in the corrected loop, every publisher path has, in every namespace, a subscription linked to that path's topic |
| `Topology.SubscriptionHierarchyShape` | src/Transport/Topology/Topologies/StandardTopologySectionManager.cs:140-194 | in the corrected hierarchy, each subscription carries the short-name path, the description "`<endpoint>` subscribed to `<full name>`", the full-name-based name in its metadata and the event type's filter; there are (publisher topics × namespaces) of them |
| `Topology.SubscriptionHierarchyCoversEveryPublisher` | src/Transport/Topology/Topologies/StandardTopologySectionManager.cs:140-194 | in the corrected hierarchy, each publisher of the event type gets, in every namespace, a subscription linked to that publisher's `.events` topic |
| `Topology.SubscriptionHierarchyIsConsistent` | src/Transport/Topology/Topologies/StandardTopologySectionManager.cs:189-193 | in the corrected hierarchy, every subscription lives in one of the section's namespaces |
| `Topology.FirstOfAllTopicsIsOfFirstPath` | src/Transport/Topology/Topologies/StandardTopologySectionManager.cs:156-183 | searching all the topics built so far finds, in every namespace, the topic of the first publisher path |
| `Topology.AsWrittenLinksEverySubscriptionToFirstTopic` | src/Transport/Topology/Topologies/StandardTopologySectionManager.cs:156-188 | as written, every subscription is built for the event type, lives in one of the namespaces, and has one link, to the first publisher path's topic in an equal namespace |
| `Topology.SubscriptionHierarchyAsWrittenShape` | src/Transport/Topology/Topologies/StandardTopologySectionManager.cs:140-194 | each subscription the code builds carries the short-name path, the description, the full-name-based metadata name and the event type's filter, and has one subscription link to the first publisher's topic in an equal namespace; there are (publisher topics × namespaces) of them |
| `Topology.SubscriptionHierarchyAsWrittenIsConsistent` | src/Transport/Topology/Topologies/StandardTopologySectionManager.cs:189-193 | every subscription the code builds lives in one of the section's namespaces |
| `Topology.AsWrittenAgreesForOnePublisher` | src/Transport/Topology/Topologies/StandardTopologySectionManager.cs:180-185 | with at most one publisher, the code's link is the intended one |
| `Topology.AsWrittenDuplicatesSubscriptionForTwoPublishers` | src/Transport/Topology/Topologies/StandardTopologySectionManager.cs:180-185 | with publishers A and B, the code builds the same subscription twice, both on `A.events`; the intended version puts the second on `B.events` |
| `Topology.StandardTopologySectionManager.BuildSubscriptionHierarchy` | src/Transport/Topology/Topologies/StandardTopologySectionManager.cs:140-194 | the loop, which accumulates the topics and links each subscription to the first of them in its namespace, builds exactly `SubscriptionHierarchyAsWritten` |
| `Topology.StandardTopologySectionManager.DetermineResourcesToSubscribeTo` | src/Transport/Topology/Topologies/StandardTopologySectionManager.cs:130-138 | returns the event type's hierarchy as the code builds it, building and caching it only on a miss; every cached section stays that hierarchy, so repeated calls agree |
| `Topology.StandardTopologySectionManager.DetermineResourcesToUnsubscribeFrom` | src/Transport/Topology/Topologies/StandardTopologySectionManager.cs:227-241 | removes and returns the cached section, which is the hierarchy as the code builds it, or returns an empty section when none was cached; no other entry changes |

## Findings

| source | as written | input that shows it | evidently intended | confidence | as-written member | corrected member |
|---|---|---|---|---|---|---|
| src/Transport/Topology/Topologies/StandardTopologySectionManager.cs:183 | each subscription is linked to the first topic in its namespace among all topics built so far, which is always the first publisher's topic | an event published by endpoints A and B, one namespace: two identical subscriptions, both on `A.events`, and none on `B.events` (`Topology.AsWrittenDuplicatesSubscriptionForTwoPublishers`) | link each subscription to the topic of the publisher path it was built for | medium, not executed | `Topology.SubscriptionsForAsWritten` | `Topology.SubscriptionsFor` |
| src/Transport/Creation/AzureServiceBusQueueCreator.cs:88 | `ExistsAsync` ignores `removeCacheEntry`, so the re-check after a timeout reads the cached "absent" answer and the timeout is always rethrown | the queue is reported absent, and `CreateQueue` creates it and then times out: `Create` throws although the queue exists (`QueueCreation.TimeoutOnCreateAlwaysEscapesAsWritten`) | drop the cached answer and ask the namespace again, so that a queue created before the timeout is accepted | high, not executed | `QueueCreation.CreateStepsAsWritten` | `QueueCreation.CreateSteps` |

## Left out

- Logging is not modelled: every `logger` call, including the warnings about non-updatable fields in `MembersAreNotEqual`.
- Concurrency and asynchrony are not modelled.
  - Each awaited call completes before the next one starts.
  - The concurrent dictionaries are plain maps, owned by their object.
  - Races between concurrent `GetOrAdd`/`AddOrUpdate` calls, and between nodes, appear only as the broker answers they cause (an already-exists answer can be scripted).
- The container and the settings reads of the section manager are parameters of `TopologyConfig`:
  - the partitioning strategy and the sanitization strategy are arbitrary functions;
  - the endpoint name and the explicitly set queue bindings are values.
- The subscription router, found by reflection in `DetermineTopicsFor`, becomes a function from event type to publisher addresses. Its internals are not part of this model.
- `EventType` keeps only `Name` and `FullName`. An `EntityRelationShipInfo`'s `Source` is the subscription that holds it, so it is left implicit rather than modelled as a cyclic reference.
- The settings store keeps only what the core relies on:
  - explicit values win over defaults;
  - a conditional value applies where its condition accepts the path.
  - Reading a stored value of another type is modelled as returning the type's default.
  - The store's own code is not part of this model.
- The configuration keys are opaque names. The queue creator's "create topology" switch is taken to be the key "Transport.CreateQueues". The creator's log message and its tests use that name; the key's declaration is not part of this model.
- The namespace manager is an interface, modelled as a store of queue descriptions.
  - Every call is recorded.
  - A script can make a call fail, before or after its effect.
  - Broker-side validation, and the failure of an update that changes a non-updatable field, appear only as scripted failures.
- `QueueDescription` keeps only the sixteen properties that the creator sets or compares.
- `TimeSpan` values are tick counts, as unbounded integers. `Task.Delay` is modelled only as the delays recorded between attempts.
- `TaskWithRetry.RetryOnThrottle` is modelled as follows:
  - the sender and the two delegates become "what the attempt with counter k does";
  - the 32-bit `int` parameters are unbounded (`retryAttempts` as a non-negative counter);
  - an `int` overflow of the counter is not modelled, because it would need two billion throttled attempts.
- `MetaModel.Equals`: an `object` that is not a `NamespaceInfo` at all cannot be represented; only instances of `NamespaceInfo` and its subclasses, told apart by runtime class, are modelled. Reference identity is value identity, which gives the same answers. The runtime's string hash is a parameter of `GetHashCode`.
- `IsInnerExceptionTransient` has no caller in the modelled core. It is modelled on its own.
