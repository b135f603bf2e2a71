/** The exceptions the transport tells apart, and the walk along a chain of
    inner exceptions that decides whether a failure during entity creation
    was transient (src/Transport/Creation/CreationExceptionHandling.cs). */
module Exceptions {
  import opened Wrappers

  /** The exception classes the core catches or inspects. The first four are
      `MessagingException`s of the broker client; the others are system
      exceptions that the broker client may also raise. */
  datatype ExceptionKind =
    | MessagingEntityAlreadyExists
    | ServerBusy
    | MessagingEntityNotFound
    | OtherMessaging
    | Timeout
    | Argument
    | OtherSystem

  /** Is an exception of this kind a `MessagingException`? */
  predicate IsMessaging(kind: ExceptionKind)
  {
    kind.MessagingEntityAlreadyExists? || kind.ServerBusy? || kind.MessagingEntityNotFound? || kind.OtherMessaging?
  }

  /** A thrown exception: its class, the `IsTransient` flag that every
      `MessagingException` carries, and its `InnerException` (null as `None`). */
  datatype Exception = Exception(kind: ExceptionKind, isTransient: bool, inner: Option<Exception>)

  /** The number of links of a chain of inner exceptions. */
  function Depth(e: Option<Exception>): nat
  {
    match e
    case None => 0
    case Some(x) => 1 + Depth(x.inner)
  }

  /** `e as MessagingException`: the exception itself if it is one, null otherwise. */
  function AsMessaging(e: Option<Exception>): (r: Option<Exception>)
    ensures r.Some? ==> r == e && IsMessaging(r.value.kind)
    ensures e.Some? && IsMessaging(e.value.kind) ==> r == e
  {
    if e.Some? && IsMessaging(e.value.kind) then e else None
  }
}

module CreationExceptionHandling {
  import opened Wrappers
  import opened Exceptions

  /** The links that the walk visits: the receiver, then its inner exception as
      long as that is itself a `MessagingException`. A link that is not one
      ends the walk, whatever lies below it. */
  function MessagingChain(e: Option<Exception>): (chain: seq<Exception>)
    ensures |chain| <= Depth(e)
    decreases Depth(e)
  {
    match e
    case None => []
    case Some(x) => [x] + MessagingChain(AsMessaging(x.inner))
  }

  /** A link that makes the walk answer true. */
  predicate Recoverable(x: Exception)
  {
    x.isTransient || x.kind.MessagingEntityAlreadyExists?
  }

  /** `IsInnerExceptionTransient`: true exactly when some link of the
      MessagingException prefix of the chain is transient or is an
      already-exists exception. A null receiver yields false. */
  method IsInnerExceptionTransient(messagingException: Option<Exception>) returns (r: bool)
    requires messagingException.Some? ==> IsMessaging(messagingException.value.kind)
    ensures r <==> exists k :: 0 <= k < |MessagingChain(messagingException)| && Recoverable(MessagingChain(messagingException)[k])
  {
    var inner := messagingException;
    ghost var visited: seq<Exception> := [];
    while inner.Some?
      invariant MessagingChain(messagingException) == visited + MessagingChain(inner)
      invariant forall k :: 0 <= k < |visited| ==> !Recoverable(visited[k])
      decreases Depth(inner)
    {
      if inner.value.isTransient || inner.value.kind.MessagingEntityAlreadyExists? {
        assert MessagingChain(messagingException)[|visited|] == inner.value;
        return true;
      }
      visited := visited + [inner.value];
      inner := AsMessaging(inner.value.inner);
    }
    return false;
  }

  /** A transient `MessagingException` wrapped in a non-messaging exception is
      never reached: the walk stops at the non-messaging link. */
  lemma {:induction false} ForeignLinkEndsWalk(e: Exception, foreign: Exception)
    requires e.inner == Some(foreign) && !IsMessaging(foreign.kind)
    ensures MessagingChain(Some(e)) == [e]
  {
  }

  /** The chain starting at a `MessagingException` is that exception followed
      by the chain starting at its messaging inner exception; every link is a
      `MessagingException`. */
  lemma {:induction false} ChainLinksAreMessaging(e: Option<Exception>)
    requires e.Some? ==> IsMessaging(e.value.kind)
    ensures forall k :: 0 <= k < |MessagingChain(e)| ==> IsMessaging(MessagingChain(e)[k].kind)
    decreases Depth(e)
  {
    if e.Some? {
      ChainLinksAreMessaging(AsMessaging(e.value.inner));
    }
  }
}
