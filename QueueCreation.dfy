/** `AzureServiceBusQueueCreator` (src/Transport/Creation/AzureServiceBusQueueCreator.cs):
    idempotent provisioning of one queue. Build the intended description;
    unless topology creation is switched off, ask (through a memoizing cache)
    whether the queue exists, then create it, or fetch it and update it when
    a mutable field differs; recover from already-exists, timeout and
    transient failures. */
module QueueCreation {
  import opened Wrappers
  import opened Exceptions
  import opened Settings
  import opened DefaultConfiguration
  import opened NamespaceManagement

  /** The factory the constructor installs when none is configured: most
      fields are read unconditionally, but express mode and both forwarding
      targets only where their condition accepts the queue path. */
  function DefaultDescriptionFactory(queuePath: string, s: SettingsState): (d: QueueDescription)
    ensures d.path == queuePath
    ensures d.enableExpress
            <==> ConditionAccepts(s, QueueEnableExpress, queuePath) && GetOrDefaultBool(s, QueueEnableExpress)
    ensures d.forwardDeadLetteredMessagesTo
            == if ConditionAccepts(s, QueueForwardDeadLetteredMessagesTo, queuePath)
               then GetOrDefaultText(s, QueueForwardDeadLetteredMessagesTo) else None
    ensures d.forwardTo
            == if ConditionAccepts(s, QueueForwardTo, queuePath) then GetOrDefaultText(s, QueueForwardTo) else None
  {
    QueueDescription(
      path := queuePath,
      lockDuration := GetOrDefaultDuration(s, QueueLockDuration),
      maxSizeInMegabytes := GetOrDefaultInt(s, QueueMaxSizeInMegabytes),
      requiresDuplicateDetection := GetOrDefaultBool(s, QueueRequiresDuplicateDetection),
      requiresSession := GetOrDefaultBool(s, QueueRequiresSession),
      defaultMessageTimeToLive := GetOrDefaultDuration(s, QueueDefaultMessageTimeToLive),
      enableDeadLetteringOnMessageExpiration := GetOrDefaultBool(s, QueueEnableDeadLetteringOnMessageExpiration),
      duplicateDetectionHistoryTimeWindow := GetOrDefaultDuration(s, QueueDuplicateDetectionHistoryTimeWindow),
      maxDeliveryCount := GetOrDefaultInt(s, QueueMaxDeliveryCount),
      enableBatchedOperations := GetOrDefaultBool(s, QueueEnableBatchedOperations),
      enablePartitioning := GetOrDefaultBool(s, QueueEnablePartitioning),
      supportOrdering := GetOrDefaultBool(s, QueueSupportOrdering),
      autoDeleteOnIdle := GetOrDefaultDuration(s, QueueAutoDeleteOnIdle),
      enableExpress := GetConditionalBool(s, queuePath, QueueEnableExpress),
      forwardDeadLetteredMessagesTo := GetConditionalText(s, queuePath, QueueForwardDeadLetteredMessagesTo),
      forwardTo := GetConditionalText(s, queuePath, QueueForwardTo))
  }

  /** A store holding nothing but what `Apply` registers. */
  function FreshlyConfigured(): (s: SettingsState)
    ensures s == WithDefaultValues(SettingsState(map[], map[]))
  {
    var s := SettingsState(map[CreateQueues := BoolValue(true)], QueueDefaults);
    assert map[] + QueueDefaults == QueueDefaults;
    s
  }

  lemma FreshLockAndDetectionWindow()
    ensures var s := FreshlyConfigured();
            && GetOrDefaultDuration(s, QueueLockDuration) == ThirtySeconds
            && GetOrDefaultDuration(s, QueueDuplicateDetectionHistoryTimeWindow) == TenMinutes
  {
    var s := FreshlyConfigured();
    assert Lookup(s, QueueLockDuration) == Some(DurationValue(ThirtySeconds));
    assert Lookup(s, QueueDuplicateDetectionHistoryTimeWindow) == Some(DurationValue(TenMinutes));
  }

  lemma FreshLifetimes()
    ensures var s := FreshlyConfigured();
            && GetOrDefaultDuration(s, QueueDefaultMessageTimeToLive) == TimeSpanMaxValue
            && GetOrDefaultDuration(s, QueueAutoDeleteOnIdle) == TimeSpanMaxValue
  {
    var s := FreshlyConfigured();
    assert Lookup(s, QueueDefaultMessageTimeToLive) == Some(DurationValue(TimeSpanMaxValue));
    assert Lookup(s, QueueAutoDeleteOnIdle) == Some(DurationValue(TimeSpanMaxValue));
  }

  lemma FreshLimits()
    ensures var s := FreshlyConfigured();
            GetOrDefaultInt(s, QueueMaxSizeInMegabytes) == 1024 && GetOrDefaultInt(s, QueueMaxDeliveryCount) == 6
  {
    var s := FreshlyConfigured();
    assert Lookup(s, QueueMaxSizeInMegabytes) == Some(IntValue(1024));
    assert Lookup(s, QueueMaxDeliveryCount) == Some(IntValue(6));
  }

  lemma FreshEntityFlags()
    ensures var s := FreshlyConfigured();
            && !GetOrDefaultBool(s, QueueRequiresDuplicateDetection)
            && !GetOrDefaultBool(s, QueueRequiresSession)
            && !GetOrDefaultBool(s, QueueEnablePartitioning)
  {
    var s := FreshlyConfigured();
    assert Lookup(s, QueueRequiresDuplicateDetection) == Some(BoolValue(false));
    assert Lookup(s, QueueRequiresSession) == Some(BoolValue(false));
    assert Lookup(s, QueueEnablePartitioning) == Some(BoolValue(false));
  }

  lemma FreshDeliveryFlags()
    ensures var s := FreshlyConfigured();
            && !GetOrDefaultBool(s, QueueEnableDeadLetteringOnMessageExpiration)
            && GetOrDefaultBool(s, QueueEnableBatchedOperations)
            && !GetOrDefaultBool(s, QueueSupportOrdering)
            && !GetOrDefaultBool(s, QueueEnableExpress)
  {
    var s := FreshlyConfigured();
    assert Lookup(s, QueueEnableDeadLetteringOnMessageExpiration) == Some(BoolValue(false));
    assert Lookup(s, QueueEnableBatchedOperations) == Some(BoolValue(true));
    assert Lookup(s, QueueSupportOrdering) == Some(BoolValue(false));
    assert Lookup(s, QueueEnableExpress) == Some(BoolValue(false));
  }

  lemma FreshForwarding()
    ensures var s := FreshlyConfigured();
            GetOrDefaultText(s, QueueForwardTo) == None && GetOrDefaultText(s, QueueForwardDeadLetteredMessagesTo) == None
  {
    var s := FreshlyConfigured();
    assert Lookup(s, QueueForwardTo) == Some(TextValue(None));
    assert Lookup(s, QueueForwardDeadLetteredMessagesTo) == Some(TextValue(None));
  }

  /** On a store holding nothing but what `Apply` registers, the default
      factory yields the documented defaults and no forwarding. */
  lemma DefaultDescriptionFromAppliedDefaults(queuePath: string)
    ensures DefaultDescriptionFactory(queuePath, FreshlyConfigured())
         == QueueDescription(queuePath, ThirtySeconds, 1024, false, false, TimeSpanMaxValue, false, TenMinutes, 6,
                             true, false, false, TimeSpanMaxValue, false, None, None)
  {
    FreshLockAndDetectionWindow();
    FreshLifetimes();
    FreshLimits();
    FreshEntityFlags();
    FreshDeliveryFlags();
    FreshForwarding();
  }

  /** A conditional forwarding target lands only on the queues whose path the
      condition accepts; the others get none. */
  lemma ConditionalForwardTo(queuePath: string, s: SettingsState, target: string, accepts: string -> bool)
    requires Lookup(s, QueueForwardTo) == Some(TextValue(Some(target)))
    requires Lookup(s, QueueForwardToCondition) == Some(ConditionValue(accepts))
    ensures DefaultDescriptionFactory(queuePath, s).forwardTo == if accepts(queuePath) then Some(target) else None
  {
  }

  /** Express mode is switched on exactly for the queues whose path the
      condition accepts, when it is configured on. */
  lemma ConditionalEnableExpress(queuePath: string, s: SettingsState, accepts: string -> bool)
    requires Lookup(s, QueueEnableExpress) == Some(BoolValue(true))
    requires Lookup(s, QueueEnableExpressCondition) == Some(ConditionValue(accepts))
    ensures DefaultDescriptionFactory(queuePath, s).enableExpress == accepts(queuePath)
  {
  }

  /** A conditional dead-letter forwarding target lands only on the queues
      whose path the condition accepts; the others get none. */
  lemma ConditionalForwardDeadLetteredMessagesTo(queuePath: string, s: SettingsState, target: string, accepts: string -> bool)
    requires Lookup(s, QueueForwardDeadLetteredMessagesTo) == Some(TextValue(Some(target)))
    requires Lookup(s, QueueForwardDeadLetteredMessagesToCondition) == Some(ConditionValue(accepts))
    ensures DefaultDescriptionFactory(queuePath, s).forwardDeadLetteredMessagesTo == if accepts(queuePath) then Some(target) else None
  {
  }

  /** `MembersAreNotEqual`: true exactly when one of the twelve mutable
      fields differs. The path and the three fields that cannot be updated
      (duplicate detection, partitioning, sessions) only cause warnings. */
  function MembersAreNotEqual(existing: QueueDescription, desired: QueueDescription): (r: bool)
    ensures r <==> existing.(path := desired.path,
                             requiresDuplicateDetection := desired.requiresDuplicateDetection,
                             enablePartitioning := desired.enablePartitioning,
                             requiresSession := desired.requiresSession) != desired
  {
    || existing.autoDeleteOnIdle != desired.autoDeleteOnIdle
    || existing.lockDuration != desired.lockDuration
    || existing.maxSizeInMegabytes != desired.maxSizeInMegabytes
    || existing.defaultMessageTimeToLive != desired.defaultMessageTimeToLive
    || existing.enableDeadLetteringOnMessageExpiration != desired.enableDeadLetteringOnMessageExpiration
    || existing.duplicateDetectionHistoryTimeWindow != desired.duplicateDetectionHistoryTimeWindow
    || existing.maxDeliveryCount != desired.maxDeliveryCount
    || existing.enableBatchedOperations != desired.enableBatchedOperations
    || existing.supportOrdering != desired.supportOrdering
    || existing.enableExpress != desired.enableExpress
    || existing.forwardDeadLetteredMessagesTo != desired.forwardDeadLetteredMessagesTo
    || existing.forwardTo != desired.forwardTo
  }

  /** A cached existence check: the task stored by `GetOrAdd`, which either
      completed with an answer or faulted (a faulted task stays cached). */
  datatype ExistenceCheck = Known(found: bool) | Faulted(error: Exception)

  /** Awaiting a cached check. */
  function Await(check: ExistenceCheck): Result<bool, Exception>
  {
    match check
    case Known(b) => Ok(b)
    case Faulted(e) => Err(e)
  }

  /** What an existence check answers and the cache and namespace afterwards. */
  datatype ExistsOutcome = ExistsOutcome(result: Result<bool, Exception>, cache: map<string, ExistenceCheck>, broker: Broker)

  /** What a `Create` call returns and the cache and namespace afterwards. */
  datatype CreateOutcome = CreateOutcome(result: Result<QueueDescription, Exception>, cache: map<string, ExistenceCheck>, broker: Broker)

  /** `ExistsAsync`: `GetOrAdd` on the cache, so the namespace is asked only
      when the path has no entry, and whatever it answers (or throws) is
      cached. The `removeCacheEntry` flag is not read (see Findings). */
  function ExistsCheck(cache: map<string, ExistenceCheck>, b: Broker, path: string): (o: ExistsOutcome)
    ensures path in o.cache && o.result == Await(o.cache[path])
    ensures o.cache.Keys == cache.Keys + {path}
    ensures forall p :: p in cache && p != path ==> o.cache[p] == cache[p]
    ensures path in cache ==> o.broker == b && o.cache == cache
    ensures path !in cache ==> o.broker == QueueExists(b, path).broker && o.result == QueueExists(b, path).result
  {
    if path in cache then ExistsOutcome(Await(cache[path]), cache, b)
    else
      var response := QueueExists(b, path);
      var check := if response.result.Ok? then Known(response.result.value) else Faulted(response.result.error);
      ExistsOutcome(Await(check), cache[path := check], response.broker)
  }

  /** The `try` block of `Create`: `Ok` when it ran to the end, otherwise the
      exception it threw. It runs to the end only with the queue in the
      namespace, and it leaves the other cache entries alone. */
  function TryCreate(d: QueueDescription, cache: map<string, ExistenceCheck>, b: Broker): (o: CreateOutcome)
    ensures o.result.Ok? ==> o.result.value == d && d.path in o.broker.queues
    ensures forall p :: p in cache && p != d.path ==> p in o.cache && o.cache[p] == cache[p]
    ensures d.path in o.cache && o.cache.Keys == cache.Keys + {d.path}
  {
    var check := ExistsCheck(cache, b, d.path);
    if check.result.Err? then CreateOutcome(Err(check.result.error), check.cache, check.broker)
    else if !check.result.value then
      var created := CreateQueue(check.broker, d);
      if created.result.Err? then CreateOutcome(Err(created.result.error), check.cache, created.broker)
      else CreateOutcome(Ok(d), check.cache[d.path := Known(true)], created.broker)
    else
      var existing := GetQueue(check.broker, d.path);
      if existing.result.Err? then CreateOutcome(Err(existing.result.error), check.cache, existing.broker)
      else if MembersAreNotEqual(existing.result.value, d) then
        var updated := UpdateQueue(existing.broker, d);
        if updated.result.Err? then CreateOutcome(Err(updated.result.error), check.cache, updated.broker)
        else CreateOutcome(Ok(d), check.cache, updated.broker)
      else CreateOutcome(Ok(d), check.cache, existing.broker)
  }

  /** The `catch` clauses of `Create`, tried in order. After a timeout the
      existence of the queue is checked again, through the cache as it
      stands, or (`removeCacheEntry`, the corrected reading) with the path's
      entry dropped first; an exception thrown by that check escapes. Only
      after a timeout is the namespace called, and any other exception that
      escapes is `e` itself. */
  function Recover(e: Exception, d: QueueDescription, cache: map<string, ExistenceCheck>, b: Broker, removeCacheEntry: bool)
    : (o: CreateOutcome)
    ensures o.result.Ok? ==> o.result.value == d
    ensures !e.kind.Timeout? ==> o.broker == b && o.cache == cache && (o.result.Err? <==> o.result == Err(e))
    ensures !e.kind.Timeout? ==> (o.result.Ok? <==> e.kind.MessagingEntityAlreadyExists? || (IsMessaging(e.kind) && e.isTransient))
    ensures d.path in cache ==> d.path in o.cache && o.cache.Keys == cache.Keys
  {
    if e.kind.MessagingEntityAlreadyExists? then CreateOutcome(Ok(d), cache, b)
    else if e.kind.Timeout? then
      var recheck := ExistsCheck(if removeCacheEntry then cache - {d.path} else cache, b, d.path);
      if recheck.result.Err? then CreateOutcome(Err(recheck.result.error), recheck.cache, recheck.broker)
      else if !recheck.result.value then CreateOutcome(Err(e), recheck.cache, recheck.broker)
      else CreateOutcome(Ok(d), recheck.cache, recheck.broker)
    else if IsMessaging(e.kind) && e.isTransient then CreateOutcome(Ok(d), cache, b)
    else CreateOutcome(Err(e), cache, b)
  }

  /** `Create` once the description `d` is built, as the code runs it: the
      re-check after a timeout is served from the cache, because the
      existence check ignores `removeCacheEntry`. */
  function CreateStepsAsWritten(createTopology: bool, d: QueueDescription, cache: map<string, ExistenceCheck>, b: Broker)
    : (o: CreateOutcome)
    ensures o.result.Ok? ==> o.result.value == d
    ensures !createTopology ==> o == CreateOutcome(Ok(d), cache, b)
    ensures createTopology ==> d.path in o.cache && o.cache.Keys == cache.Keys + {d.path}
  {
    if !createTopology then CreateOutcome(Ok(d), cache, b)
    else
      var attempt := TryCreate(d, cache, b);
      if attempt.result.Ok? then attempt
      else Recover(attempt.result.error, d, attempt.cache, attempt.broker, false)
  }

  /** `Create` once the description `d` is built, with the re-check after a
      timeout asking the namespace again. Whatever happens, a returned value
      is the built description; with topology creation switched off nothing
      is called and nothing changes. */
  function CreateSteps(createTopology: bool, d: QueueDescription, cache: map<string, ExistenceCheck>, b: Broker): (o: CreateOutcome)
    ensures o.result.Ok? ==> o.result.value == d
    ensures !createTopology ==> o == CreateOutcome(Ok(d), cache, b)
    ensures createTopology ==> d.path in o.cache && o.cache.Keys == cache.Keys + {d.path}
  {
    if !createTopology then CreateOutcome(Ok(d), cache, b)
    else
      var attempt := TryCreate(d, cache, b);
      if attempt.result.Ok? then attempt
      else Recover(attempt.result.error, d, attempt.cache, attempt.broker, true)
  }

  /** The calls `Create` makes before it acts on the answer: none when the
      path is cached, one existence query otherwise. */
  function ExistenceQueries(cache: map<string, ExistenceCheck>, path: string): seq<Call>
  {
    if path in cache then [] else [QueueExistsCall(path)]
  }

  /** After the `try` block the path is cached, and a cached fault is the
      exception the block threw. */
  lemma TryCreateCachesPath(d: QueueDescription, cache: map<string, ExistenceCheck>, b: Broker)
    ensures var t := TryCreate(d, cache, b);
            && d.path in t.cache && t.cache.Keys == cache.Keys + {d.path}
            && (t.cache[d.path].Faulted? ==> t.result == Err(t.cache[d.path].error))
            && (t.cache[d.path] == Known(false) ==> ExistsCheck(cache, b, d.path).result == Ok(false))
  {
  }

  /** A queue reported absent is created exactly once, with the built
      description, and once that succeeds the call returns it and the cache
      records that the queue exists. */
  lemma AbsentQueueIsCreatedOnce(d: QueueDescription, cache: map<string, ExistenceCheck>, b: Broker)
    requires ExistsCheck(cache, b, d.path).result == Ok(false)
    ensures var check := ExistsCheck(cache, b, d.path);
            var t := TryCreate(d, cache, b);
            var o := CreateStepsAsWritten(true, d, cache, b);
            && t.broker.calls == b.calls + ExistenceQueries(cache, d.path) + [CreateQueueCall(d)]
            && (CreateQueue(check.broker, d).result.Ok? ==>
                  o == t && o.result == Ok(d) && o.cache[d.path] == Known(true) && o.broker.queues[d.path] == d)
  {
    var check := ExistsCheck(cache, b, d.path);
    assert check.broker.calls == b.calls + ExistenceQueries(cache, d.path);
  }

  /** A queue reported present is fetched, and updated with the built
      description exactly when a mutable field differs. */
  lemma ExistingQueueIsUpdatedOnlyWhenMembersDiffer(d: QueueDescription, cache: map<string, ExistenceCheck>, b: Broker)
    requires ExistsCheck(cache, b, d.path).result == Ok(true)
    ensures var check := ExistsCheck(cache, b, d.path);
            var existing := GetQueue(check.broker, d.path);
            TryCreate(d, cache, b).broker.calls
              == b.calls + ExistenceQueries(cache, d.path) + [GetQueueCall(d.path)]
                 + (if existing.result.Ok? && MembersAreNotEqual(existing.result.value, d)
                    then [UpdateQueueCall(d)] else [])
  {
    var check := ExistsCheck(cache, b, d.path);
    assert check.broker.calls == b.calls + ExistenceQueries(cache, d.path);
  }

  /** In the `try` block existence is asked of the namespace at most once,
      first, and never for a path already in the cache, whatever the cached
      task holds. */
  lemma ExistenceIsMemoized(d: QueueDescription, cache: map<string, ExistenceCheck>, b: Broker)
    ensures var t := TryCreate(d, cache, b);
            && |b.calls| <= |t.broker.calls| && t.broker.calls[..|b.calls|] == b.calls
            && forall i :: |b.calls| <= i < |t.broker.calls| && t.broker.calls[i].QueueExistsCall? ==>
                 i == |b.calls| && d.path !in cache && t.broker.calls[i].path == d.path
  {
    var check := ExistsCheck(cache, b, d.path);
    if check.result == Ok(false) {
      AbsentQueueIsCreatedOnce(d, cache, b);
    } else if check.result == Ok(true) {
      ExistingQueueIsUpdatedOnlyWhenMembersDiffer(d, cache, b);
    } else {
      assert TryCreate(d, cache, b).broker == check.broker;
    }
  }

  /** As written, the `catch` clauses never call the namespace: the re-check
      after a timeout is served from the cache, which the `try` block always
      leaves holding the path. */
  lemma RecoveryNeverCallsNamespaceAsWritten(d: QueueDescription, cache: map<string, ExistenceCheck>, b: Broker)
    ensures CreateStepsAsWritten(true, d, cache, b).broker == TryCreate(d, cache, b).broker
  {
    TryCreateCachesPath(d, cache, b);
  }

  /** In the corrected `Create`, the `catch` clauses call the namespace only
      after a timeout, and then exactly once, to ask again whether the queue
      exists. */
  lemma RecoveryAsksOnlyAfterTimeout(d: QueueDescription, cache: map<string, ExistenceCheck>, b: Broker)
    requires TryCreate(d, cache, b).result.Err?
    ensures var t := TryCreate(d, cache, b);
            CreateSteps(true, d, cache, b).broker.calls
              == t.broker.calls + (if t.result.error.kind.Timeout? then [QueueExistsCall(d.path)] else [])
  {
  }

  /** As written, an exception escapes `Create` only if the `try` block threw
      it and it is neither an already-exists exception nor a transient
      messaging exception; a timeout escapes exactly when the cache, as the
      `try` block left it, does not record the queue as present. */
  lemma OnlyUnrecoverableFailuresEscape(d: QueueDescription, cache: map<string, ExistenceCheck>, b: Broker)
    ensures var t := TryCreate(d, cache, b);
            var o := CreateStepsAsWritten(true, d, cache, b);
            && (o.result.Err? ==>
                  && t.result.Err? && o.result.error == t.result.error
                  && !o.result.error.kind.MessagingEntityAlreadyExists?
                  && !(IsMessaging(o.result.error.kind) && o.result.error.isTransient))
            && (t.result.Err? && t.result.error.kind.Timeout? ==>
                  d.path in t.cache && (o.result.Err? <==> t.cache[d.path] != Known(true)))
  {
    TryCreateCachesPath(d, cache, b);
  }

  /** In the corrected `Create`, an exception escapes only if the `try` block
      threw it and it is neither an already-exists exception nor a transient
      messaging exception (a timeout escapes when the namespace, asked again,
      reports the queue absent), or if that second existence query itself
      threw. */
  lemma CorrectedOnlyUnrecoverableFailuresEscape(d: QueueDescription, cache: map<string, ExistenceCheck>, b: Broker)
    ensures var t := TryCreate(d, cache, b);
            var o := CreateSteps(true, d, cache, b);
            o.result.Err? ==>
              && t.result.Err?
              && (|| (&& o.result.error == t.result.error
                      && !o.result.error.kind.MessagingEntityAlreadyExists?
                      && !(IsMessaging(o.result.error.kind) && o.result.error.isTransient)
                      && (o.result.error.kind.Timeout? ==> QueueExists(t.broker, d.path).result == Ok(false)))
                  || (t.result.error.kind.Timeout? && QueueExists(t.broker, d.path).result == Err(o.result.error)))
  {
  }

  /** After a timeout in the `try` block the call succeeds exactly when the
      namespace, asked again, reports the queue present. */
  lemma TimeoutIsRecoveredWhenQueueExists(d: QueueDescription, cache: map<string, ExistenceCheck>, b: Broker)
    requires TryCreate(d, cache, b).result.Err? && TryCreate(d, cache, b).result.error.kind.Timeout?
    ensures var t := TryCreate(d, cache, b);
            var o := CreateSteps(true, d, cache, b);
            && o.broker == QueueExists(t.broker, d.path).broker
            && (o.result.Ok? <==> QueueExists(t.broker, d.path).result == Ok(true))
  {
  }

  /** As written, a timeout while creating a queue reported absent always
      escapes, even when the namespace did create the queue before timing
      out and would report it present. */
  lemma TimeoutOnCreateAlwaysEscapesAsWritten(d: QueueDescription, cache: map<string, ExistenceCheck>, b: Broker, e: Exception)
    requires ExistsCheck(cache, b, d.path).result == Ok(false)
    requires ExistsCheck(cache, b, d.path).broker.NextStep() == ProceedThenFail(e) && e.kind.Timeout?
    ensures CreateStepsAsWritten(true, d, cache, b).result == Err(e)
    ensures d.path in CreateStepsAsWritten(true, d, cache, b).broker.queues
  {
    TryCreateCachesPath(d, cache, b);
  }

  /** With the cached answer dropped, the same scenario is recovered: the
      namespace reports the queue it created and the call returns the built
      description. */
  lemma TimeoutAfterCreatingIsRecovered(d: QueueDescription, cache: map<string, ExistenceCheck>, b: Broker, e: Exception)
    requires ExistsCheck(cache, b, d.path).result == Ok(false)
    requires ExistsCheck(cache, b, d.path).broker.NextStep() == ProceedThenFail(e) && e.kind.Timeout?
    requires CreateQueue(ExistsCheck(cache, b, d.path).broker, d).broker.NextStep() == Proceed
    ensures CreateSteps(true, d, cache, b).result == Ok(d)
    ensures d.path in CreateSteps(true, d, cache, b).broker.queues
    ensures CreateSteps(true, d, cache, b).cache[d.path] == Known(true)
  {
    var t := TryCreate(d, cache, b);
    assert d.path in t.broker.queues;
  }

  /** The two differ only in the re-check after a timeout. */
  lemma AsWrittenAgreesWithoutTimeout(createTopology: bool, d: QueueDescription, cache: map<string, ExistenceCheck>, b: Broker)
    requires TryCreate(d, cache, b).result.Err? ==> !TryCreate(d, cache, b).result.error.kind.Timeout?
    ensures CreateStepsAsWritten(createTopology, d, cache, b) == CreateSteps(createTopology, d, cache, b)
  {
  }

  /** Two `Create` calls in a row against an undisturbed namespace both
      return the built description, and the second one only fetches the
      queue: no existence query, no creation and no update. */
  lemma SecondCreateOnlyFetches(d: QueueDescription, cache: map<string, ExistenceCheck>, b: Broker)
    requires d.path !in cache && b.script == []
    ensures var first := CreateStepsAsWritten(true, d, cache, b);
            var second := CreateStepsAsWritten(true, d, first.cache, first.broker);
            && first.result == Ok(d) && second.result == Ok(d)
            && second.broker.calls == first.broker.calls + [GetQueueCall(d.path)]
            && second.broker.queues == first.broker.queues
  {
    var first := CreateStepsAsWritten(true, d, cache, b);
    assert first.cache[d.path] == Known(true);
    assert first.broker.script == [];
    if d.path in b.queues && !MembersAreNotEqual(b.queues[d.path], d) {
      assert first.broker.queues == b.queues;
    } else {
      assert first.broker.queues[d.path] == d;
    }
  }

  class AzureServiceBusQueueCreator {
    var rememberExistence: map<string, ExistenceCheck>
    const settings: SettingsHolder
    const descriptionFactory: (string, SettingsState) -> QueueDescription

    /** The constructor. `configuredFactory` is what `TryGet` finds under the
        description factory key; without one the default factory is used. */
    constructor (settings: SettingsHolder, configuredFactory: Option<(string, SettingsState) -> QueueDescription>)
      ensures this.settings == settings && rememberExistence == map[]
      ensures configuredFactory.Some? ==> descriptionFactory == configuredFactory.value
      ensures configuredFactory.None? ==> descriptionFactory == DefaultDescriptionFactory
    {
      this.settings := settings;
      rememberExistence := map[];
      var factory: (string, SettingsState) -> QueueDescription := DefaultDescriptionFactory;
      if configuredFactory.Some? {
        factory := configuredFactory.value;
      }
      descriptionFactory := factory;
    }

    /** `ExistsAsync`; like the code, it does not read `removeCacheEntry`. */
    method ExistsAsync(namespaceClient: NamespaceManager, queuePath: string, removeCacheEntry: bool := false)
      returns (found: Result<bool, Exception>)
      modifies this, namespaceClient
      ensures ExistsOutcome(found, rememberExistence, namespaceClient.broker)
           == ExistsCheck(old(rememberExistence), old(namespaceClient.broker), queuePath)
    {
      if queuePath !in rememberExistence {
        var answer := namespaceClient.QueueExistsAsync(queuePath);
        var check := if answer.Ok? then Known(answer.value) else Faulted(answer.error);
        rememberExistence := rememberExistence[queuePath := check];
      }
      found := Await(rememberExistence[queuePath]);
    }

    /** `Create`: returns the built description unless an exception escapes;
        the re-check after a timeout reads the cache as it stands. */
    method Create(queuePath: string, namespaceManager: NamespaceManager) returns (r: Result<QueueDescription, Exception>)
      modifies this, namespaceManager
      ensures CreateOutcome(r, rememberExistence, namespaceManager.broker)
           == CreateStepsAsWritten(GetOrDefaultBool(settings.State(), CreateQueues), descriptionFactory(queuePath, settings.State()),
                          old(rememberExistence), old(namespaceManager.broker))
    {
      var description := descriptionFactory(queuePath, settings.State());
      var failure: Option<Exception> := None;

      if GetOrDefaultBool(settings.State(), CreateQueues) {
        var existence := ExistsAsync(namespaceManager, description.path);
        if existence.Err? {
          failure := Some(existence.error);
        } else if !existence.value {
          var created := namespaceManager.CreateQueueAsync(description);
          if created.Err? {
            failure := Some(created.error);
          } else {
            rememberExistence := rememberExistence[description.path := Known(true)];
          }
        } else {
          var existing := namespaceManager.GetQueueAsync(description.path);
          if existing.Err? {
            failure := Some(existing.error);
          } else if MembersAreNotEqual(existing.value, description) {
            var updated := namespaceManager.UpdateQueueAsync(description);
            if updated.Err? {
              failure := Some(updated.error);
            }
          }
        }
      }

      if failure.Some? {
        var e := failure.value;
        if e.kind.MessagingEntityAlreadyExists? {
          // another node created it first, which is fine
        } else if e.kind.Timeout? {
          var recheck := ExistsAsync(namespaceManager, description.path, removeCacheEntry := true);
          if recheck.Err? {
            return Err(recheck.error);
          } else if !recheck.value {
            return Err(e);
          }
        } else if !(IsMessaging(e.kind) && e.isTransient) {
          return Err(e);
        }
      }
      return Ok(description);
    }
  }
}
