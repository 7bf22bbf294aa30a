/**
  One service account of src/ApiClient/Account.ts: its pending requests
  (`localQueue`, keyed by the caller's local id), its submitted requests
  (`serverQueue`, keyed by the server id the service returned), its
  connection flag and its concurrency ceiling.

  The source's `processNextRequest` awaits the submission POST between
  taking a request off `localQueue` and handling the reply; other events can
  run in that gap. It is therefore modelled as two steps:
  ProcessNextRequest takes the request (returning it) and CompleteSubmission
  handles the reply. ProcessAndSubmit runs both with nothing in between.
  Emitted events are appended to `events`.
 */
module ApiAccount {
  import opened Wrappers
  import opened OrderedMap
  import opened Types

  type LocalId = string
  type ServerId = string

  datatype AccountSettings = AccountSettings(token: string, maxProcessingCount: int)

  /** A `serverQueue` value: the submitted request and the local id it came in under. */
  datatype InFlight = InFlight(request: GenRequest, localId: LocalId)

  /** What the submission POST gave back. */
  datatype SubmitOutcome =
    | Submitted(serverId: ServerId)
      /** An HTTP error status, with the `illegalWords` pairs when the body has that field. */
    | HttpError(status: int, illegalWords: Option<seq<(int, string)>>)
      /** A failure without an HTTP response: reading its status throws inside the handler. */
    | NoResponse

  /** The events an account emits, each carrying the caller's local id. */
  datatype AccountEvent =
    | ImageReady(message: ProgressMessage, localId: LocalId)
    | RequestFailed(request: GenRequest, error: SubmitOutcome, localId: LocalId)
    | IllegalWords(request: GenRequest, error: SubmitOutcome, words: seq<string>, localId: LocalId)

  predicate IsRateLimited(outcome: SubmitOutcome)
  {
    outcome.HttpError? && outcome.status == 429
  }

  /** `illegalWords.map(([, word]) => word)`. */
  function SecondOfEach(pairs: seq<(int, string)>): (words: seq<string>)
    ensures |words| == |pairs|
    ensures forall i :: 0 <= i < |pairs| ==> words[i] == pairs[i].1
  {
    if pairs == [] then [] else [pairs[0].1] + SecondOfEach(pairs[1..])
  }

  /** The event emitted for an HTTP error other than 429. */
  function FailureEvent(request: GenRequest, outcome: SubmitOutcome, localId: LocalId): AccountEvent
    requires outcome.HttpError?
  {
    if outcome.status == 401 && outcome.illegalWords.Some?
    then IllegalWords(request, outcome, SecondOfEach(outcome.illegalWords.value), localId)
    else RequestFailed(request, outcome, localId)
  }

  class Account {
    const settings: AccountSettings
    /** `ws !== null`: a socket has been created (it is never reset to null). */
    var hasSocket: bool
    var isConnected: bool
    var localQueue: seq<(LocalId, GenRequest)>
    var serverQueue: seq<(ServerId, InFlight)>
    /** Every event emitted so far, oldest first. */
    var events: seq<AccountEvent>

    ghost predicate Valid()
      reads this
    {
      && UniqueKeys(localQueue)
      && UniqueKeys(serverQueue)
      && (isConnected ==> hasSocket)
    }

    /**
      The constructor also starts `connect()`, whose synchronous part finds no
      socket to close; the lookup's result arrives later, through Connect.
     */
    constructor (settings: AccountSettings)
      ensures Valid()
      ensures this.settings == settings
      ensures !hasSocket && !isConnected
      ensures localQueue == [] && serverQueue == [] && events == []
    {
      this.settings := settings;
      hasSocket := false;
      isConnected := false;
      localQueue := [];
      serverQueue := [];
      events := [];
    }

    /** `getServerQueueSize()`: the number of distinct server ids in flight. */
    function GetServerQueueSize(): (r: nat)
      reads this
      ensures UniqueKeys(serverQueue) ==> r == |KeySet(serverQueue)|
    {
      SizeIsKeyCount(serverQueue);
      |serverQueue|
    }

    /** `getMaxProcessingCount()`: the configured ceiling on requests in flight. */
    function GetMaxProcessingCount(): (r: int)
      ensures r == settings.maxProcessingCount
    {
      settings.maxProcessingCount
    }

    /** The guard of `processNextRequest`: connected, something pending, below the ceiling. */
    predicate CanProcess()
      reads this
    {
      isConnected && |localQueue| != 0 && |serverQueue| < settings.maxProcessingCount
    }

    /** `disconnect()`: closing an existing socket clears the flag; without a socket nothing happens. */
    method Disconnect()
      requires Valid()
      modifies this
      ensures Valid()
      ensures isConnected == (old(isConnected) && !old(hasSocket))
      ensures !isConnected
      ensures hasSocket == old(hasSocket)
      ensures localQueue == old(localQueue) && serverQueue == old(serverQueue) && events == old(events)
    {
      if hasSocket {
        isConnected := false;
      }
    }

    /**
      `connect()` once the socket URL lookup has answered: disconnect, then
      open a new socket when the lookup gave a truthy URL. A failed lookup
      (None) and an empty URL both only schedule the retry. The flag stays
      false until that socket opens; neither queue is touched.
     */
    method Connect(lookup: Option<string>)
      requires Valid()
      modifies this
      ensures Valid()
      ensures !isConnected
      ensures hasSocket == (old(hasSocket) || (lookup.Some? && lookup.value != ""))
      ensures localQueue == old(localQueue) && serverQueue == old(serverQueue) && events == old(events)
    {
      Disconnect();
      if lookup.Some? && lookup.value != "" {
        hasSocket := true;
      }
    }

    /** The socket's `open` handler: the only place the flag becomes true. */
    method OnOpen()
      requires Valid()
      requires hasSocket
      modifies this
      ensures Valid()
      ensures isConnected && hasSocket
      ensures localQueue == old(localQueue) && serverQueue == old(serverQueue) && events == old(events)
    {
      isConnected := true;
    }

    /**
      `processNextRequest` up to the submission: when the guard passes, take
      the first-inserted pending entry off `localQueue` and return it;
      otherwise change nothing.
     */
    method ProcessNextRequest() returns (taken: Option<(LocalId, GenRequest)>)
      requires Valid()
      modifies this
      ensures Valid()
      ensures taken.Some? <==> old(CanProcess())
      ensures taken.Some? ==> taken.value == old(localQueue[0]) && localQueue == old(localQueue[1..])
      ensures taken.Some? ==> taken.value.0 !in KeySet(localQueue)
      ensures taken.None? ==> localQueue == old(localQueue)
      ensures serverQueue == old(serverQueue) && events == old(events)
      ensures isConnected == old(isConnected) && hasSocket == old(hasSocket)
    {
      if !isConnected {
        return None;
      }
      if |localQueue| == 0 {
        return None;
      }
      if |serverQueue| >= settings.maxProcessingCount {
        return None;
      }
      var (nextId, request) := localQueue[0];
      DeleteFirst(localQueue);
      localQueue := Delete(localQueue, nextId);
      taken := Some((nextId, request));
    }

    /**
      `processNextRequest` after the submission: on success record the
      request, its id set to the server id, under that id; on 429 put it back
      under its local id (no retry is scheduled: the timer callback only
      names the method); on any other status drop it and emit one event;
      without a response the request is in neither map and no event is
      emitted (the handler throws, and that rejection is not modelled).
     */
    method CompleteSubmission(localId: LocalId, request: GenRequest, outcome: SubmitOutcome)
      requires Valid()
      modifies this
      ensures Valid()
      ensures isConnected == old(isConnected) && hasSocket == old(hasSocket)
      ensures outcome.Submitted? ==>
        && serverQueue == Set(old(serverQueue), outcome.serverId,
                              InFlight(request.(id := Some(outcome.serverId)), localId))
        && localQueue == old(localQueue) && events == old(events)
      ensures IsRateLimited(outcome) ==>
        && localQueue == Set(old(localQueue), localId, request)
        && serverQueue == old(serverQueue) && events == old(events)
      ensures outcome.HttpError? && !IsRateLimited(outcome) ==>
        && events == old(events) + [FailureEvent(request, outcome, localId)]
        && localQueue == old(localQueue) && serverQueue == old(serverQueue)
      ensures outcome.NoResponse? ==>
        localQueue == old(localQueue) && serverQueue == old(serverQueue) && events == old(events)
    {
      match outcome
      case Submitted(id) =>
        serverQueue := Set(serverQueue, id, InFlight(request.(id := Some(id)), localId));
      case HttpError(status, illegalWords) =>
        if status == 429 {
          localQueue := Set(localQueue, localId, request);
        } else if status == 400 {
          events := events + [RequestFailed(request, outcome, localId)];
        } else if status == 401 {
          if illegalWords.Some? {
            events := events + [IllegalWords(request, outcome, SecondOfEach(illegalWords.value), localId)];
          } else {
            events := events + [RequestFailed(request, outcome, localId)];
          }
        } else {
          events := events + [RequestFailed(request, outcome, localId)];
        }
      case NoResponse =>
    }

    /**
      `processNextRequest` when nothing else runs while the submission is
      awaited: the first pending request is submitted and either recorded
      in flight, moved to the back of `localQueue` (429), or dropped.
     */
    method ProcessAndSubmit(outcome: SubmitOutcome) returns (taken: Option<(LocalId, GenRequest)>)
      requires Valid()
      modifies this
      ensures Valid()
      ensures isConnected == old(isConnected) && hasSocket == old(hasSocket)
      ensures taken.Some? <==> old(CanProcess())
      ensures taken.None? ==>
        localQueue == old(localQueue) && serverQueue == old(serverQueue) && events == old(events)
      ensures taken.Some? ==> taken.value == old(localQueue[0])
      ensures taken.Some? && outcome.Submitted? ==>
        && localQueue == old(localQueue[1..])
        && serverQueue == Set(old(serverQueue), outcome.serverId,
                              InFlight(taken.value.1.(id := Some(outcome.serverId)), taken.value.0))
        && events == old(events)
      ensures taken.Some? && IsRateLimited(outcome) ==>
        && localQueue == old(localQueue[1..]) + [old(localQueue[0])]
        && serverQueue == old(serverQueue) && events == old(events)
      ensures taken.Some? && outcome.HttpError? && !IsRateLimited(outcome) ==>
        && localQueue == old(localQueue[1..]) && taken.value.0 !in KeySet(localQueue)
        && serverQueue == old(serverQueue)
        && events == old(events) + [FailureEvent(taken.value.1, outcome, taken.value.0)]
      ensures taken.Some? && outcome.NoResponse? ==>
        && localQueue == old(localQueue[1..]) && taken.value.0 !in KeySet(localQueue)
        && serverQueue == old(serverQueue) && events == old(events)
    {
      taken := ProcessNextRequest();
      if taken.Some? {
        SetAbsentAppends(localQueue, taken.value.0, taken.value.1);
        CompleteSubmission(taken.value.0, taken.value.1, outcome);
      }
    }

    /** `addToQueue(request, localId)`: `localQueue.set`, then one drain attempt. */
    method AddToQueue(request: GenRequest, localId: LocalId) returns (taken: Option<(LocalId, GenRequest)>)
      requires Valid()
      modifies this
      ensures Valid()
      ensures isConnected == old(isConnected) && hasSocket == old(hasSocket)
      ensures serverQueue == old(serverQueue) && events == old(events)
      ensures taken.Some? <==> isConnected && |serverQueue| < settings.maxProcessingCount
      ensures taken.None? ==> localQueue == Set(old(localQueue), localId, request)
      ensures taken.Some? ==>
        && taken.value == Set(old(localQueue), localId, request)[0]
        && localQueue == Set(old(localQueue), localId, request)[1..]
    {
      localQueue := Set(localQueue, localId, request);
      taken := ProcessNextRequest();
    }

    /**
      The socket's `message` handler. A FINISHED message for a server id in
      `serverQueue` removes that entry, emits ImageReady with its local id
      and makes one drain attempt; every other message (a FINISHED one for an
      unknown id, REQUEST, PROGRESS) is only logged.
     */
    method OnMessage(msg: ProgressMessage) returns (taken: Option<(LocalId, GenRequest)>)
      requires Valid()
      modifies this
      ensures Valid()
      ensures isConnected == old(isConnected) && hasSocket == old(hasSocket)
      ensures !IsFinished(msg) || msg.id !in KeySet(old(serverQueue)) ==>
        && taken.None?
        && localQueue == old(localQueue) && serverQueue == old(serverQueue) && events == old(events)
      ensures IsFinished(msg) && msg.id in KeySet(old(serverQueue)) ==>
        && serverQueue == Delete(old(serverQueue), msg.id)
        && msg.id !in KeySet(serverQueue)
        && |serverQueue| == |old(serverQueue)| - 1
        && events == old(events) + [ImageReady(msg, Get(old(serverQueue), msg.id).value.localId)]
        && (taken.Some? <==> isConnected && old(localQueue) != [] && |serverQueue| < settings.maxProcessingCount)
        && (taken.Some? ==> taken.value == old(localQueue[0]) && localQueue == old(localQueue[1..]))
        && (taken.None? ==> localQueue == old(localQueue))
    {
      if IsFinished(msg) {
        var finished := Get(serverQueue, msg.id);
        if finished.None? {
          return None;
        }
        DeleteKeys(serverQueue, msg.id);
        serverQueue := Delete(serverQueue, msg.id);
        events := events + [ImageReady(msg, finished.value.localId)];
        taken := ProcessNextRequest();
      } else {
        // REQUEST and PROGRESS messages, and any other kind, are only logged.
        taken := None;
      }
    }
  }
}
