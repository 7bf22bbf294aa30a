/**
  The earlier single-account dispatcher of src/index.ts: two module-level
  maps and a fixed ceiling of 3. A request waits in `localQueue` under its
  timestamp key; after a successful submission it goes back into
  `localQueue` under the server id; the service's REQUEST message moves it
  to `serverQueue`; its FINISHED message removes it. There is no connection
  check. As for the per-account dispatcher, the awaited submission splits
  `processNextRequest` into a take step and a completion step.
 */
module LegacyIndex {
  import opened Wrappers
  import opened OrderedMap
  import opened Types

  const MaxProcessingCount: int := 3

  /** The submission POST's result: a server id, or any error (all are handled alike). */
  datatype SubmitResult = Accepted(serverId: string) | Failed

  class Dispatcher {
    var localQueue: seq<(string, GenRequest)>
    var serverQueue: seq<(string, GenRequest)>

    ghost predicate Valid()
      reads this
    {
      UniqueKeys(localQueue) && UniqueKeys(serverQueue)
    }

    constructor ()
      ensures Valid()
      ensures localQueue == [] && serverQueue == []
    {
      localQueue := [];
      serverQueue := [];
    }

    /** The guard of `processNextRequest`: something pending and fewer than 3 in `serverQueue`. */
    predicate CanProcess()
      reads this
    {
      |localQueue| != 0 && |serverQueue| < MaxProcessingCount
    }

    /** `processNextRequest` up to the submission: take the first-inserted entry, if the guard passes. */
    method ProcessNextRequest() returns (taken: Option<(string, GenRequest)>)
      requires Valid()
      modifies this
      ensures Valid()
      ensures taken.Some? <==> old(CanProcess())
      ensures taken.Some? ==> taken.value == old(localQueue[0]) && localQueue == old(localQueue[1..])
      ensures taken.Some? ==> taken.value.0 !in KeySet(localQueue)
      ensures taken.None? ==> localQueue == old(localQueue)
      ensures serverQueue == old(serverQueue)
    {
      if |localQueue| == 0 || |serverQueue| >= MaxProcessingCount {
        return None;
      }
      var (nextId, request) := localQueue[0];
      DeleteFirst(localQueue);
      localQueue := Delete(localQueue, nextId);
      taken := Some((nextId, request));
    }

    /**
      `processNextRequest` after the submission: on success the request,
      its id set, goes back into `localQueue` under the server id; on any
      error it goes back under its original key.
     */
    method CompleteSubmission(key: string, request: GenRequest, result: SubmitResult)
      requires Valid()
      modifies this
      ensures Valid()
      ensures serverQueue == old(serverQueue)
      ensures result.Accepted? ==>
        localQueue == Set(old(localQueue), result.serverId, request.(id := Some(result.serverId)))
      ensures result.Failed? ==> localQueue == Set(old(localQueue), key, request)
    {
      match result
      case Accepted(id) =>
        localQueue := Set(localQueue, id, request.(id := Some(id)));
      case Failed =>
        localQueue := Set(localQueue, key, request);
    }

    /**
      `processNextRequest` when nothing else runs while the submission is
      awaited. A failed request ends up last in `localQueue` under its key.
      An accepted one is in `localQueue` under the server id, its id set,
      and not in `serverQueue`.
     */
    method ProcessAndSubmit(result: SubmitResult) returns (taken: Option<(string, GenRequest)>)
      requires Valid()
      modifies this
      ensures Valid()
      ensures serverQueue == old(serverQueue)
      ensures taken.Some? <==> old(CanProcess())
      ensures taken.None? ==> localQueue == old(localQueue)
      ensures taken.Some? ==> taken.value == old(localQueue[0])
      ensures taken.Some? && result.Accepted? ==>
        && localQueue == Set(old(localQueue[1..]), result.serverId,
                             taken.value.1.(id := Some(result.serverId)))
        && Get(localQueue, result.serverId) == Some(taken.value.1.(id := Some(result.serverId)))
      ensures taken.Some? && result.Failed? ==>
        localQueue == old(localQueue[1..]) + [old(localQueue[0])]
    {
      taken := ProcessNextRequest();
      if taken.Some? {
        SetAbsentAppends(localQueue, taken.value.0, taken.value.1);
        if result.Accepted? {
          GetAfterSet(localQueue, result.serverId, taken.value.1.(id := Some(result.serverId)), result.serverId);
        }
        CompleteSubmission(taken.value.0, taken.value.1, result);
      }
    }

    /**
      The `queue` command's enqueue: `localQueue.set(key, request)` under
      the timestamp key. The handler then awaits its reply to the user and
      only afterwards makes one drain attempt, a separate
      `ProcessNextRequest` call that other events may precede and that a
      rejected reply skips.
     */
    method Enqueue(key: string, request: GenRequest)
      requires Valid()
      modifies this
      ensures Valid()
      ensures serverQueue == old(serverQueue)
      ensures localQueue == Set(old(localQueue), key, request)
      ensures key !in KeySet(old(localQueue)) ==> localQueue == old(localQueue) + [(key, request)]
      ensures Get(localQueue, key) == Some(request)
    {
      if key !in KeySet(localQueue) {
        SetAbsentAppends(localQueue, key, request);
      }
      GetAfterSet(localQueue, key, request, key);
      localQueue := Set(localQueue, key, request);
    }

    /**
      The socket's `message` handler. FINISHED for an id in `serverQueue`:
      remove it and make one drain attempt. REQUEST for an id in
      `localQueue`: move that entry to `serverQueue` under the same id.
      Anything else is only logged.
     */
    method OnMessage(msg: ProgressMessage) returns (taken: Option<(string, GenRequest)>)
      requires Valid()
      modifies this
      ensures Valid()
      ensures IsFinished(msg) && msg.id in KeySet(old(serverQueue)) ==>
        && serverQueue == Delete(old(serverQueue), msg.id)
        && msg.id !in KeySet(serverQueue)
        && (taken.Some? <==> old(localQueue) != [] && |serverQueue| < MaxProcessingCount)
        && (taken.Some? ==> taken.value == old(localQueue[0]) && localQueue == old(localQueue[1..]))
        && (taken.None? ==> localQueue == old(localQueue))
      ensures !IsFinished(msg) && msg.kind == "REQUEST" && msg.id in KeySet(old(localQueue)) ==>
        && taken.None?
        && localQueue == Delete(old(localQueue), msg.id)
        && serverQueue == Set(old(serverQueue), msg.id, Get(old(localQueue), msg.id).value)
        && msg.id !in KeySet(localQueue)
        && Get(serverQueue, msg.id) == Get(old(localQueue), msg.id)
      ensures IsFinished(msg) && msg.id !in KeySet(old(serverQueue)) ==>
        taken.None? && localQueue == old(localQueue) && serverQueue == old(serverQueue)
      ensures !IsFinished(msg) && !(msg.kind == "REQUEST" && msg.id in KeySet(old(localQueue))) ==>
        taken.None? && localQueue == old(localQueue) && serverQueue == old(serverQueue)
    {
      taken := None;
      if IsFinished(msg) {
        var finished := Get(serverQueue, msg.id);
        if finished.None? {
          return;
        }
        DeleteKeys(serverQueue, msg.id);
        serverQueue := Delete(serverQueue, msg.id);
        taken := ProcessNextRequest();
      } else if msg.kind == "REQUEST" {
        var pending := Get(localQueue, msg.id);
        if pending.Some? {
          DeleteKeys(localQueue, msg.id);
          GetAfterSet(serverQueue, msg.id, pending.value, msg.id);
          localQueue := Delete(localQueue, msg.id);
          serverQueue := Set(serverQueue, msg.id, pending.value);
        }
      }
      // PROGRESS messages, and any other kind, are only logged.
    }

    /**
      A consequence of re-keying instead of moving: when the only pending
      request is accepted and a drain runs before the service's REQUEST
      message arrives, that drain takes the accepted request again.
     */
    method TakenAgainBeforeAcknowledged(key: string, request: GenRequest, serverId: string)
      returns (second: Option<(string, GenRequest)>)
      requires Valid()
      requires localQueue == [(key, request)] && serverQueue == []
      modifies this
      ensures second == Some((serverId, request.(id := Some(serverId))))
      ensures localQueue == [] && serverQueue == []
    {
      var first := ProcessAndSubmit(Accepted(serverId));
      second := ProcessNextRequest();
    }
  }
}
