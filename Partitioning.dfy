/** Namespace partitioning: which namespaces own a name, for a given intent.
    The replicated strategy
    (src/Transport/Addressing/Partitioning/Strategies/ReplicatedNamespacePartitioningStrategy.cs)
    spreads everything over every configured namespace. */
module Partitioning {
  import opened Wrappers
  import opened MetaModel

  /** Why the namespaces are asked for. */
  datatype PartitioningIntent = Sending | Receiving | Creating

  /** `ConfigurationErrorsException`, raised when construction fails. */
  datatype ConfigurationError = ConfigurationErrorsException(message: string)

  const MoreThanOneNamespaceRequired: string :=
    "The 'Replicated' namespace partitioning strategy requires more than one namespace, please configure additional connection strings"

  /** A constructed strategy holds the read-only list of connection strings. */
  datatype ReplicatedNamespacePartitioningStrategy = ReplicatedNamespacePartitioningStrategy(connectionStrings: seq<string>)
  {
    /** What every successfully constructed instance satisfies. */
    predicate Valid()
    {
      |connectionStrings| >= 2
    }
  }

  /** The constructor. `namespacesSetting` is what `TryGet` finds under the
      partitioning namespaces key: `None` when the key is missing, which is
      treated as an empty list. One or zero connection strings are refused. */
  function NewReplicatedNamespacePartitioningStrategy(namespacesSetting: Option<seq<string>>)
    : (r: Result<ReplicatedNamespacePartitioningStrategy, ConfigurationError>)
    ensures r.Ok? <==> namespacesSetting.Some? && |namespacesSetting.value| > 1
    ensures r.Ok? ==> r.value.Valid() && r.value.connectionStrings == namespacesSetting.value
    ensures r.Err? ==> r.error == ConfigurationErrorsException(MoreThanOneNamespaceRequired)
  {
    var connectionStrings := if namespacesSetting.Some? then namespacesSetting.value else [];
    if |connectionStrings| <= 1 then
      Err(ConfigurationErrorsException(MoreThanOneNamespaceRequired))
    else
      Ok(ReplicatedNamespacePartitioningStrategy(connectionStrings))
  }

  /** `GetNamespaces`: one active namespace per configured connection string,
      in configured order, whatever the endpoint name and the intent. */
  function GetNamespaces(strategy: ReplicatedNamespacePartitioningStrategy, endpointName: string, intent: PartitioningIntent)
    : (namespaces: seq<NamespaceInfo>)
    ensures |namespaces| == |strategy.connectionStrings|
    ensures forall i :: 0 <= i < |namespaces| ==> namespaces[i].connectionString == Some(strategy.connectionStrings[i])
    ensures forall i :: 0 <= i < |namespaces| ==> namespaces[i] == NewNamespaceInfo(namespaces[i].connectionString)
  {
    seq(|strategy.connectionStrings|, i requires 0 <= i < |strategy.connectionStrings| =>
      NewNamespaceInfo(Some(strategy.connectionStrings[i]), Active))
  }

  /** The answer depends on the configured list only. */
  lemma GetNamespacesIgnoresEndpointAndIntent(strategy: ReplicatedNamespacePartitioningStrategy,
                                              e1: string, i1: PartitioningIntent, e2: string, i2: PartitioningIntent)
    ensures GetNamespaces(strategy, e1, i1) == GetNamespaces(strategy, e2, i2)
  {
  }

  /** Every constructed strategy yields at least two namespaces, all active. */
  lemma ConstructedStrategyYieldsAtLeastTwo(namespacesSetting: Option<seq<string>>, endpointName: string, intent: PartitioningIntent)
    requires NewReplicatedNamespacePartitioningStrategy(namespacesSetting).Ok?
    ensures var ns := GetNamespaces(NewReplicatedNamespacePartitioningStrategy(namespacesSetting).value, endpointName, intent);
            |ns| >= 2 && forall i :: 0 <= i < |ns| ==> ns[i].mode == Active
  {
  }
}
