/** The broker's namespace manager, which the queue creator calls through an
    interface. It is modelled as a store of queue descriptions by path, whose
    calls are recorded and may be scripted to fail, so that every recovery
    path of the creator can be reached. */
module NamespaceManagement {
  import opened Wrappers
  import opened Exceptions

  /** A broker-side queue configuration (`QueueDescription`). Durations are
      `TimeSpan` ticks; a null forwarding target is `None`. */
  datatype QueueDescription = QueueDescription(
    path: string,
    lockDuration: int,
    maxSizeInMegabytes: int,
    requiresDuplicateDetection: bool,
    requiresSession: bool,
    defaultMessageTimeToLive: int,
    enableDeadLetteringOnMessageExpiration: bool,
    duplicateDetectionHistoryTimeWindow: int,
    maxDeliveryCount: int,
    enableBatchedOperations: bool,
    enablePartitioning: bool,
    supportOrdering: bool,
    autoDeleteOnIdle: int,
    enableExpress: bool,
    forwardDeadLetteredMessagesTo: Option<string>,
    forwardTo: Option<string>)

  /** A call made on the namespace manager. */
  datatype Call =
    | QueueExistsCall(path: string)
    | CreateQueueCall(description: QueueDescription)
    | GetQueueCall(path: string)
    | UpdateQueueCall(description: QueueDescription)

  /** How the next call behaves: as the store dictates, failing without
      effect, or failing after the effect took place (an ambiguous timeout). */
  datatype Step = Proceed | Fail(error: Exception) | ProceedThenFail(error: Exception)

  const AlreadyExists: Exception := Exception(MessagingEntityAlreadyExists, false, None)
  const NotFound: Exception := Exception(MessagingEntityNotFound, false, None)

  /** The namespace at a point in time: its queues, the behaviour scripted for
      the coming calls (calls beyond the script proceed), and the calls made. */
  datatype Broker = Broker(queues: map<string, QueueDescription>, script: seq<Step>, calls: seq<Call>)
  {
    /** How the next call behaves. */
    function NextStep(): Step
    {
      if script == [] then Proceed else script[0]
    }

    /** The broker once a call has been made, before its effect. */
    function Record(call: Call): (b: Broker)
      ensures b.calls == calls + [call] && b.queues == queues
    {
      Broker(queues, if script == [] then [] else script[1..], calls + [call])
    }
  }

  /** The answer of a call and the broker afterwards. */
  datatype Response<T> = Response(result: Result<T, Exception>, broker: Broker)

  /** Applies the scripted step to a call whose undisturbed outcome is
      `natural` with the store becoming `queues`. */
  function Respond<T>(b: Broker, call: Call, natural: Result<T, Exception>, queues: map<string, QueueDescription>): (r: Response<T>)
    ensures r.broker.calls == b.calls + [call]
    ensures b.NextStep().Fail? ==> r.broker.queues == b.queues && r.result == Err(b.NextStep().error)
    ensures b.NextStep().Proceed? ==> r.broker.queues == queues && r.result == natural
    ensures b.NextStep().ProceedThenFail? ==> r.broker.queues == queues && r.result == Err(b.NextStep().error)
  {
    var recorded := b.Record(call);
    match b.NextStep()
    case Proceed => Response(natural, recorded.(queues := queues))
    case Fail(e) => Response(Err(e), recorded)
    case ProceedThenFail(e) => Response(Err(e), recorded.(queues := queues))
  }

  /** `QueueExists(path)`. */
  function QueueExists(b: Broker, path: string): Response<bool>
  {
    Respond(b, QueueExistsCall(path), Ok(path in b.queues), b.queues)
  }

  /** `CreateQueue(description)`: an existing path is refused with an
      already-exists exception. */
  function CreateQueue(b: Broker, d: QueueDescription): Response<QueueDescription>
  {
    if d.path in b.queues then Respond(b, CreateQueueCall(d), Err(AlreadyExists), b.queues)
    else Respond(b, CreateQueueCall(d), Ok(d), b.queues[d.path := d])
  }

  /** `GetQueue(path)`: a missing path is refused with a not-found exception. */
  function GetQueue(b: Broker, path: string): Response<QueueDescription>
  {
    if path in b.queues then Respond(b, GetQueueCall(path), Ok(b.queues[path]), b.queues)
    else Respond(b, GetQueueCall(path), Err(NotFound), b.queues)
  }

  /** `UpdateQueue(description)`: replaces the stored description. */
  function UpdateQueue(b: Broker, d: QueueDescription): Response<QueueDescription>
  {
    if d.path in b.queues then Respond(b, UpdateQueueCall(d), Ok(d), b.queues[d.path := d])
    else Respond(b, UpdateQueueCall(d), Err(NotFound), b.queues)
  }

  /** The namespace manager object handed to the creator. */
  class NamespaceManager {
    var broker: Broker

    constructor (queues: map<string, QueueDescription>, script: seq<Step>)
      ensures broker == Broker(queues, script, [])
    {
      broker := Broker(queues, script, []);
    }

    method QueueExistsAsync(path: string) returns (r: Result<bool, Exception>)
      modifies this
      ensures Response(r, broker) == QueueExists(old(broker), path)
    {
      var response := QueueExists(broker, path);
      r, broker := response.result, response.broker;
    }

    method CreateQueueAsync(d: QueueDescription) returns (r: Result<QueueDescription, Exception>)
      modifies this
      ensures Response(r, broker) == CreateQueue(old(broker), d)
    {
      var response := CreateQueue(broker, d);
      r, broker := response.result, response.broker;
    }

    method GetQueueAsync(path: string) returns (r: Result<QueueDescription, Exception>)
      modifies this
      ensures Response(r, broker) == GetQueue(old(broker), path)
    {
      var response := GetQueue(broker, path);
      r, broker := response.result, response.broker;
    }

    method UpdateQueueAsync(d: QueueDescription) returns (r: Result<QueueDescription, Exception>)
      modifies this
      ensures Response(r, broker) == UpdateQueue(old(broker), d)
    {
      var response := UpdateQueue(broker, d);
      r, broker := response.result, response.broker;
    }
  }
}
