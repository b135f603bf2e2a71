/** The settings store that the transport reads its configuration from. Only
    what the core uses is modelled: values set explicitly take precedence over
    values registered as defaults, and a "conditional" value applies only to
    entity paths that its condition accepts. Keys are opaque names. */
module Settings {
  import opened Wrappers

  /** The configuration keys the core reads or writes. `CreateQueues` is the
      key named "Transport.CreateQueues"; the queue creator reads the same
      switch as "create topology". */
  datatype SettingKey =
    | CreateQueues
    | QueueLockDuration
    | QueueMaxSizeInMegabytes
    | QueueRequiresDuplicateDetection
    | QueueRequiresSession
    | QueueDefaultMessageTimeToLive
    | QueueEnableDeadLetteringOnMessageExpiration
    | QueueDuplicateDetectionHistoryTimeWindow
    | QueueMaxDeliveryCount
    | QueueEnableBatchedOperations
    | QueueEnablePartitioning
    | QueueSupportOrdering
    | QueueAutoDeleteOnIdle
    | QueueEnableExpress
    | QueueEnableExpressCondition
    | QueueForwardDeadLetteredMessagesTo
    | QueueForwardDeadLetteredMessagesToCondition
    | QueueForwardTo
    | QueueForwardToCondition
    | NumberOfMessagingFactoriesPerNamespace

  /** A stored value. Durations are `TimeSpan` ticks; a null string is `None`;
      a condition is a predicate over an entity path. */
  datatype SettingValue =
    | BoolValue(b: bool)
    | IntValue(i: int)
    | DurationValue(ticks: int)
    | TextValue(text: Option<string>)
    | ConditionValue(accepts: string -> bool)

  /** A snapshot of the store: explicit values and defaults. */
  datatype SettingsState = SettingsState(explicit: map<SettingKey, SettingValue>, defaults: map<SettingKey, SettingValue>)

  /** The value a key resolves to: the explicit one if any, else the default. */
  function Lookup(s: SettingsState, key: SettingKey): (v: Option<SettingValue>)
    ensures key in s.explicit ==> v == Some(s.explicit[key])
    ensures key !in s.explicit && key in s.defaults ==> v == Some(s.defaults[key])
    ensures v.None? <==> key !in s.explicit && key !in s.defaults
  {
    if key in s.explicit then Some(s.explicit[key])
    else if key in s.defaults then Some(s.defaults[key])
    else None
  }

  /** `GetOrDefault<bool>`: false when nothing is stored. */
  function GetOrDefaultBool(s: SettingsState, key: SettingKey): bool
  {
    match Lookup(s, key)
    case Some(BoolValue(b)) => b
    case _ => false
  }

  /** `GetOrDefault<int>` / `GetOrDefault<long>`: 0 when nothing is stored. */
  function GetOrDefaultInt(s: SettingsState, key: SettingKey): int
  {
    match Lookup(s, key)
    case Some(IntValue(i)) => i
    case _ => 0
  }

  /** `GetOrDefault<TimeSpan>`: `TimeSpan.Zero` when nothing is stored. */
  function GetOrDefaultDuration(s: SettingsState, key: SettingKey): int
  {
    match Lookup(s, key)
    case Some(DurationValue(t)) => t
    case _ => 0
  }

  /** `GetOrDefault<string>`: null when nothing is stored. */
  function GetOrDefaultText(s: SettingsState, key: SettingKey): Option<string>
  {
    match Lookup(s, key)
    case Some(TextValue(t)) => t
    case _ => None
  }

  /** The key holding the condition that guards a conditional value. */
  function ConditionKey(key: SettingKey): Option<SettingKey>
  {
    match key
    case QueueEnableExpress => Some(QueueEnableExpressCondition)
    case QueueForwardDeadLetteredMessagesTo => Some(QueueForwardDeadLetteredMessagesToCondition)
    case QueueForwardTo => Some(QueueForwardToCondition)
    case _ => None
  }

  /** Does the condition registered for `key` accept `path`? A key without a
      registered condition applies everywhere. */
  predicate ConditionAccepts(s: SettingsState, key: SettingKey, path: string)
  {
    match ConditionKey(key)
    case None => true
    case Some(conditionKey) =>
      match Lookup(s, conditionKey)
      case Some(ConditionValue(accepts)) => accepts(path)
      case _ => true
  }

  /** `GetConditional<bool>(path, key)`: the value where the condition accepts
      the path, the type's default elsewhere. */
  function GetConditionalBool(s: SettingsState, path: string, key: SettingKey): (b: bool)
    ensures ConditionAccepts(s, key, path) ==> b == GetOrDefaultBool(s, key)
    ensures !ConditionAccepts(s, key, path) ==> !b
  {
    if ConditionAccepts(s, key, path) then GetOrDefaultBool(s, key) else false
  }

  /** `GetConditional<string>(path, key)`, likewise. */
  function GetConditionalText(s: SettingsState, path: string, key: SettingKey): (t: Option<string>)
    ensures ConditionAccepts(s, key, path) ==> t == GetOrDefaultText(s, key)
    ensures !ConditionAccepts(s, key, path) ==> t.None?
  {
    if ConditionAccepts(s, key, path) then GetOrDefaultText(s, key) else None
  }

  /** `SettingsHolder`: the mutable store. */
  class SettingsHolder {
    var explicit: map<SettingKey, SettingValue>
    var defaults: map<SettingKey, SettingValue>

    constructor ()
      ensures explicit == map[] && defaults == map[]
    {
      explicit := map[];
      defaults := map[];
    }

    function State(): SettingsState
      reads this
    {
      SettingsState(explicit, defaults)
    }

    /** `Set`: an explicit value, which wins over any default. */
    method Set(key: SettingKey, value: SettingValue)
      modifies this
      ensures explicit == old(explicit)[key := value] && defaults == old(defaults)
    {
      explicit := explicit[key := value];
    }

    /** `SetDefault`: registers (or replaces) the default for a key. */
    method SetDefault(key: SettingKey, value: SettingValue)
      modifies this
      ensures defaults == old(defaults)[key := value] && explicit == old(explicit)
    {
      defaults := defaults[key := value];
    }

    /** `HasExplicitValue`. */
    predicate HasExplicitValue(key: SettingKey)
      reads this
    {
      key in explicit
    }
  }
}
