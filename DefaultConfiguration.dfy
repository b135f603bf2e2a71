/** `DefaultConfigurationValues` (src/Transport/Config/DefaultConfigurationValues.cs):
    populates a settings store, in place, with the defaults that the queue
    creator's default description factory reads. */
module DefaultConfiguration {
  import opened Wrappers
  import opened Settings

  /** `TimeSpan.FromMilliseconds(30000)`, in ticks of 100 ns. */
  const ThirtySeconds: int := 300_000_000

  /** `TimeSpan.FromMilliseconds(600000)`, in ticks of 100 ns. */
  const TenMinutes: int := 6_000_000_000

  /** `TimeSpan.MaxValue`, in ticks (the largest 64-bit signed integer). */
  const TimeSpanMaxValue: int := 0x7FFF_FFFF_FFFF_FFFF

  /** The condition registered for forwarding targets: every name qualifies. */
  predicate AcceptEveryName(name: string)
  {
    true
  }

  /** Every default registered, key by key. `RequiresSession` is registered
      twice by the source, with the same value. */
  const QueueDefaults: map<SettingKey, SettingValue> := map[
    QueueLockDuration := DurationValue(ThirtySeconds),
    QueueMaxSizeInMegabytes := IntValue(1024),
    QueueRequiresDuplicateDetection := BoolValue(false),
    QueueRequiresSession := BoolValue(false),
    QueueDefaultMessageTimeToLive := DurationValue(TimeSpanMaxValue),
    QueueEnableDeadLetteringOnMessageExpiration := BoolValue(false),
    QueueDuplicateDetectionHistoryTimeWindow := DurationValue(TenMinutes),
    QueueMaxDeliveryCount := IntValue(6),
    QueueEnablePartitioning := BoolValue(false),
    QueueSupportOrdering := BoolValue(false),
    QueueAutoDeleteOnIdle := DurationValue(TimeSpanMaxValue),
    QueueEnableExpress := BoolValue(false),
    QueueEnableBatchedOperations := BoolValue(true),
    QueueForwardDeadLetteredMessagesToCondition := ConditionValue(AcceptEveryName),
    QueueForwardDeadLetteredMessagesTo := TextValue(None),
    QueueForwardToCondition := ConditionValue(AcceptEveryName),
    QueueForwardTo := TextValue(None),
    NumberOfMessagingFactoriesPerNamespace := IntValue(5)
  ]

  /** The store after `Apply`: "Transport.CreateQueues" is set explicitly to
      true, every other key only gains a default, and explicit values of
      those keys stay in force. */
  function WithDefaultValues(s: SettingsState): (r: SettingsState)
    ensures r.explicit.Keys == s.explicit.Keys + {CreateQueues}
    ensures forall k :: k in s.explicit && k != CreateQueues ==> r.explicit[k] == s.explicit[k]
    ensures Lookup(r, CreateQueues) == Some(BoolValue(true))
    ensures forall k :: k in QueueDefaults && k !in s.explicit ==> Lookup(r, k) == Some(QueueDefaults[k])
    ensures forall k :: k in s.explicit ==> Lookup(r, k) == Lookup(s, k) || k == CreateQueues
  {
    SettingsState(s.explicit[CreateQueues := BoolValue(true)], s.defaults + QueueDefaults)
  }

  /** Only constants are written, so applying twice is applying once. */
  lemma ApplyIsIdempotent(s: SettingsState)
    ensures WithDefaultValues(WithDefaultValues(s)) == WithDefaultValues(s)
  {
    var once := WithDefaultValues(s);
    assert once.explicit[CreateQueues := BoolValue(true)] == once.explicit;
    assert once.defaults + QueueDefaults == once.defaults;
  }

  /** The defaults map after the source's sequence of `SetDefault` calls,
      one update per call, in call order. */
  function RegisterDefaults(d: map<SettingKey, SettingValue>): map<SettingKey, SettingValue>
  {
    d
      [QueueLockDuration := DurationValue(ThirtySeconds)]
      [QueueMaxSizeInMegabytes := IntValue(1024)]
      [QueueRequiresDuplicateDetection := BoolValue(false)]
      [QueueRequiresSession := BoolValue(false)]
      [QueueDefaultMessageTimeToLive := DurationValue(TimeSpanMaxValue)]
      [QueueEnableDeadLetteringOnMessageExpiration := BoolValue(false)]
      [QueueDuplicateDetectionHistoryTimeWindow := DurationValue(TenMinutes)]
      [QueueMaxDeliveryCount := IntValue(6)]
      [QueueRequiresSession := BoolValue(false)]
      [QueueEnablePartitioning := BoolValue(false)]
      [QueueSupportOrdering := BoolValue(false)]
      [QueueAutoDeleteOnIdle := DurationValue(TimeSpanMaxValue)]
      [QueueEnableExpress := BoolValue(false)]
      [QueueEnableBatchedOperations := BoolValue(true)]
      [QueueForwardDeadLetteredMessagesToCondition := ConditionValue(AcceptEveryName)]
      [QueueForwardDeadLetteredMessagesTo := TextValue(None)]
      [QueueForwardToCondition := ConditionValue(AcceptEveryName)]
      [QueueForwardTo := TextValue(None)]
      [NumberOfMessagingFactoriesPerNamespace := IntValue(5)]
  }

  /** Registering the defaults one by one is the same as adding `QueueDefaults`. */
  lemma RegisterDefaultsAddsQueueDefaults(d: map<SettingKey, SettingValue>)
    ensures RegisterDefaults(d) == d + QueueDefaults
  {
    var r := RegisterDefaults(d);
    assert r.Keys == d.Keys + QueueDefaults.Keys;
    forall k | k in r
      ensures r[k] == (d + QueueDefaults)[k]
    {
    }
  }

  class DefaultConfigurationValues {

    constructor ()
    {
    }

    /** `Apply`: populates the given store and hands back that same store. */
    method Apply(settings: SettingsHolder) returns (r: SettingsHolder)
      modifies settings
      ensures r == settings
      ensures settings.State() == WithDefaultValues(old(settings.State()))
    {
      ApplyDefaultValuesForQueueDescriptions(settings);
      return settings;
    }

    method ApplyDefaultValuesForQueueDescriptions(settings: SettingsHolder)
      modifies settings
      ensures settings.State() == WithDefaultValues(old(settings.State()))
    {
      settings.Set(CreateQueues, BoolValue(true));

      settings.SetDefault(QueueLockDuration, DurationValue(ThirtySeconds));
      settings.SetDefault(QueueMaxSizeInMegabytes, IntValue(1024));
      settings.SetDefault(QueueRequiresDuplicateDetection, BoolValue(false));
      settings.SetDefault(QueueRequiresSession, BoolValue(false));
      settings.SetDefault(QueueDefaultMessageTimeToLive, DurationValue(TimeSpanMaxValue));
      settings.SetDefault(QueueEnableDeadLetteringOnMessageExpiration, BoolValue(false));
      settings.SetDefault(QueueDuplicateDetectionHistoryTimeWindow, DurationValue(TenMinutes));
      settings.SetDefault(QueueMaxDeliveryCount, IntValue(6));
      settings.SetDefault(QueueRequiresSession, BoolValue(false));
      settings.SetDefault(QueueEnablePartitioning, BoolValue(false));
      settings.SetDefault(QueueSupportOrdering, BoolValue(false));
      settings.SetDefault(QueueAutoDeleteOnIdle, DurationValue(TimeSpanMaxValue));
      settings.SetDefault(QueueEnableExpress, BoolValue(false));
      settings.SetDefault(QueueEnableBatchedOperations, BoolValue(true));

      settings.SetDefault(QueueForwardDeadLetteredMessagesToCondition, ConditionValue(AcceptEveryName));
      settings.SetDefault(QueueForwardDeadLetteredMessagesTo, TextValue(None));

      settings.SetDefault(QueueForwardToCondition, ConditionValue(AcceptEveryName));
      settings.SetDefault(QueueForwardTo, TextValue(None));

      settings.SetDefault(NumberOfMessagingFactoriesPerNamespace, IntValue(5));

      assert settings.defaults == RegisterDefaults(old(settings.defaults));
      RegisterDefaultsAddsQueueDefaults(old(settings.defaults));
    }
  }
}
