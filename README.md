# Request dispatch of the unstability.ai Discord bot, in Dafny

This project models the request-dispatch bookkeeping of a Discord bot that
forwards `/queue` image-generation commands to the unstability.ai service.
It covers five source files:

- `src/ApiClient/Account.ts`: one service account. It keeps two
  insertion-ordered JavaScript `Map`s. `localQueue` holds pending requests
  under the caller's local id. `serverQueue` holds submitted requests under
  the server id the service returned. It also keeps an `isConnected` flag
  and a `maxProcessingCount` ceiling.
- `src/ApiClient/AccountManager.ts`: the fleet. It picks the first account,
  in configuration order, that is below its ceiling.
- `src/utils.ts`: a generic array-backed FIFO `Queue<T>`.
- `src/index.ts`: the earlier single-account dispatcher. Its module-level
  maps carry a request through three stages: pending under a timestamp key,
  re-keyed under the server id after submission, then moved to `serverQueue`
  by the service's REQUEST message.
- `src/Index.ts`: the current `/queue` handler. It builds a `GenRequest`
  from the command's options.

Layout, one module per concern:

- `wrappers.dfy`: `Option`.
- `ordered_map.dfy` (`OrderedMap`): a JavaScript `Map` as a sequence of
  key/value pairs with unique keys. `set` on an absent key appends;
  `set` on a present key replaces the value in place; `delete` removes the
  one entry; the first pair is what `entries().next()` yields.
- `types.dfy` (`Types`): `GenRequest` and the socket message.
- `request_builder.dfy` (`RequestBuilder`): both request builders and
  `split('#')`.
- `queue.dfy` (`Utils`): the `Queue` class.
- `account.dfy` (`ApiAccount`): the `Account` class.
- `account_manager.dfy` (`ApiAccountManager`): the `AccountManager` class.
- `legacy_index.dfy` (`LegacyIndex`): the earlier dispatcher as a
  `Dispatcher` class.

Each class keeps the source's mutable state as fields and its methods update
them in place. `Account.Valid()` states that both maps have unique keys and
that a connected account has a socket. `Dispatcher.Valid()` states that its
two maps have unique keys. `AccountManager.Valid()` states that its accounts
are distinct objects, each valid. Every
`parseInt` result is an `Option<int>`, with `None` standing for `NaN`.

`processNextRequest` awaits the submission POST between taking a request
off `localQueue` and handling the reply, and other events can run in
between. Both dispatchers therefore split it in two steps:

- `ProcessNextRequest` applies the guard and pops the first-inserted entry,
  returning it. Until the reply is handled, the request is in neither map.
- `CompleteSubmission` handles the reply, given as a `SubmitOutcome` (or
  `SubmitResult`).

`ProcessAndSubmit` runs both steps with nothing in between. Because the
in-flight count grows only when a reply arrives, overlapping drains can
exceed the ceiling. The model therefore states no global "in flight ≤
ceiling" invariant.

Account events are appended to the `events` field:

- `ImageReady`
- `RequestFailed`
- `IllegalWords`

Each event carries the caller's local id.

Behaviour the code has, and the model keeps:

- Status 429 puts the request back with `Map.set` after it was deleted, so
  it becomes the last entry, not the first. The 15-second timer callback
  only names `processNextRequest` and never calls it, so no retry is
  scheduled. The request is taken again by the next drain, which a later
  `addToQueue` or FINISHED message triggers.
- A successful submission in `Account` makes no further drain attempt.
- A submission error that has no HTTP response makes the handler throw
  while reading the status. The request, already off `localQueue`, is then
  in neither map and no account event is emitted (`NoResponse`). The throw
  rejects `processNextRequest`'s promise, which no caller handles; that
  unhandled rejection is outside the model (see "Left out").
- With 401, an `illegalWords` field (even an empty list) gives
  `IllegalWords`, whose words are the second components of the pairs, in
  order.
- The socket's `close` handler only schedules a reconnect. `isConnected`
  stays true until that reconnect calls `disconnect()`. Since `disconnect()`
  itself closes the socket (src/ApiClient/Account.ts:62), the close handler
  then schedules `connect()` 5 seconds later, so `disconnectAllAccounts`
  does not keep accounts disconnected; the timer is not modelled.
- `AccountManager.addToQueue` does nothing when every account is at its
  ceiling; there is no "fleet saturated" error.
- In `src/index.ts` an accepted request goes back into `localQueue` under
  its server id. A drain that runs before the REQUEST message arrives takes
  it again (`LegacyIndex.Dispatcher.TakenAgainBeforeAcknowledged`).
- A lookup answer that is missing or empty opens no socket: `connect`
  tests the URL for truthiness, and `""` is falsy.
- In `src/index.ts` the `queue` handler sets the request, awaits its reply
  to the user, and only then drains. Other events can run in between, and a
  rejected reply skips the drain. `Enqueue` is therefore the set step
  alone; the drain is a separate `ProcessNextRequest`.
- `genre` is the text before the first `#`. `style` is the second part of
  the split: the text after the first `#`, up to any further `#`. An empty
  part falls back to `digital-art`.

## Model

| member | source | states |
|---|---|---|
| `OrderedMap.Get` | src/ApiClient/Account.ts:88 | `Map.get` is undefined exactly for an absent key, and otherwise yields a value stored under that key |
| `OrderedMap.Set` | src/ApiClient/Account.ts:122 | `Map.set` adds exactly its key to the key set and keeps keys unique |
| `OrderedMap.GetAfterSet` | src/ApiClient/Account.ts:151 | after `set(k, v)`, `get(k)` is `v` and every other key reads as before |
| `OrderedMap.SetAbsentAppends` | src/ApiClient/Account.ts:156-158 | `set` on a key that is not present places the new entry last |
| `OrderedMap.SetPresentInPlace` | src/ApiClient/Account.ts:120-122 | `set` on a present key replaces its value without moving any entry |
| `OrderedMap.DeleteKeys` | src/ApiClient/Account.ts:92 | `delete` of a present key removes one entry and exactly that key; keys stay unique |
| `OrderedMap.GetAfterDelete` | src/ApiClient/Account.ts:88-92 | after `delete(k)`, `get(k)` is undefined and every other key reads as before |
| `OrderedMap.DeleteFirst` | src/ApiClient/Account.ts:132-133 | deleting the first entry's key leaves the other entries in their order |
| `OrderedMap.DeleteFirstOccurrence` | src/index.ts:161 | `delete` removes the first entry holding the key; the rest keep their order |
| `OrderedMap.DeleteAt` | src/index.ts:159-162 | with unique keys, deleting entry i's key removes entry i and nothing else |
| `OrderedMap.UniqueKeysAt` | src/ApiClient/Account.ts:18-19 | in a map, two different positions hold different keys |
| `OrderedMap.SizeIsKeyCount` | src/ApiClient/Account.ts:185-187 | with unique keys, a map's `size` is its number of distinct keys |
| `ApiAccount.SecondOfEach` | src/ApiClient/Account.ts:167 | the word list has one word per `illegalWords` pair: its second component, in order |
| `ApiAccount.Account.constructor` | src/ApiClient/Account.ts:14-26 | a new account has the given settings, no socket, is not connected, and has both maps empty and no events |
| `ApiAccount.Account.GetServerQueueSize` | src/ApiClient/Account.ts:185-187 | the in-flight size is the number of distinct server ids in `serverQueue` |
| `ApiAccount.Account.Disconnect` | src/ApiClient/Account.ts:59-69 | the flag becomes false only when a socket exists (else it was already false); queues and events untouched |
| `ApiAccount.Account.GetMaxProcessingCount` | src/ApiClient/Account.ts:189-191 | the ceiling is the configured `maxProcessingCount` |
| `ApiAccount.Account.Connect` | src/ApiClient/Account.ts:44-57 | after connect the account is not connected; a new socket exists exactly when the lookup gave a non-empty URL (a missing or empty URL opens none); no queued request is lost |
| `ApiAccount.Account.OnOpen` | src/ApiClient/Account.ts:72-74 | the socket's open event is what sets the flag to true; nothing else changes |
| `ApiAccount.Account.ProcessNextRequest` | src/ApiClient/Account.ts:126-133 | a request is taken exactly when connected, something is pending and `serverQueue` is below the ceiling; the taken request is the first-inserted one, the rest keep their order; otherwise neither map changes |
| `ApiAccount.Account.CompleteSubmission` | src/ApiClient/Account.ts:137-182 | success records the request with its id set under the server id and the local id; 429 puts it back under its local id with no event; 400, 401 and other statuses emit exactly one event for the local id (IllegalWords with the words when 401 has them, else RequestFailed) and leave both maps; an error without a response leaves it in neither map and emits no event (the unhandled rejection is listed under Left out) |
| `ApiAccount.Account.ProcessAndSubmit` | src/ApiClient/Account.ts:126-183 | submitted without interleaving, the first pending request is in flight on success, last in `localQueue` on 429, and in neither map after an error, with one failure event per error status |
| `ApiAccount.Account.AddToQueue` | src/ApiClient/Account.ts:120-124 | the request is set under its local id, then one drain attempt takes the first entry exactly when connected and below the ceiling |
| `ApiAccount.Account.OnMessage` | src/ApiClient/Account.ts:83-108 | FINISHED for a known server id deletes exactly that entry, emits ImageReady with the stored local id and makes one drain attempt; FINISHED for an unknown id, REQUEST and PROGRESS change nothing and emit nothing |
| `ApiAccountManager.AccountManager.constructor` | src/ApiClient/AccountManager.ts:15-24 | one fresh, distinct account per settings entry, in the given order |
| `ApiAccountManager.AccountManager.AvailableFrom` | src/ApiClient/AccountManager.ts:27-30 | the filtered list's first index is an available account with every earlier one unavailable; an empty list means no account is available |
| `ApiAccountManager.AccountManager.GetNextAvailableAccount` | src/ApiClient/AccountManager.ts:26-35 | returns the lowest-index account whose server queue size is below its ceiling, and None exactly when every account is at or over its ceiling; it reads and changes nothing else |
| `ApiAccountManager.AccountManager.AddToQueue` | src/ApiClient/AccountManager.ts:37-45 | the selected account, if any, receives the request as through its own `addToQueue`; every other account is untouched, and with no account selected none changes |
| `ApiAccountManager.AccountManager.ConnectAllAccounts` | src/ApiClient/AccountManager.ts:47-51 | every account is connected once, with its own lookup result; queues are kept |
| `ApiAccountManager.AccountManager.DisconnectAllAccounts` | src/ApiClient/AccountManager.ts:53-57 | every account is disconnected once; queues are kept |
| `Utils.Queue.constructor` | src/utils.ts:4-6 | a new queue is empty |
| `Utils.Queue.Enqueue` | src/utils.ts:8-10 | the element is appended at the back and the size grows by one |
| `Utils.Queue.Dequeue` | src/utils.ts:12-17 | empty: returns null and changes nothing; otherwise returns the front element and the rest keep their order |
| `Utils.Queue.Size` | src/utils.ts:30-32 | the number of queued elements |
| `Utils.Queue.Front` | src/utils.ts:19-24 | the first element, null exactly when empty; it cannot change the queue |
| `Utils.Queue.IsEmpty` | src/utils.ts:26-32 | holds exactly when `size()` is 0 |
| `Utils.Queue.Clear` | src/utils.ts:34-36 | the queue is empty afterwards |
| `Utils.Queue.RequeueFront` | src/utils.ts:38-40 | the element is put at position 0, so it is the front |
| `Utils.Queue.DequeueThenRequeue` | src/utils.ts:12-40 | on a non-empty queue, `requeueFront(dequeue())` restores it |
| `RequestBuilder.SplitOn` | src/Index.ts:56 | `split('#')` yields at least one part, no part contains `#`, and joining the parts with `#` gives back the input |
| `RequestBuilder.SplitWithoutSeparator` | src/Index.ts:56 | a value without `#` splits into itself alone |
| `RequestBuilder.SplitAtFirstSeparator` | src/Index.ts:56 | the first part is the text before the first `#`; the other parts are the split of the rest |
| `RequestBuilder.SplitJoin` | src/Index.ts:56 | splitting undoes joining parts that do not contain `#` |
| `RequestBuilder.BuildGenRequest` | src/Index.ts:45-86 | constant fields are fixed; the prompt passes through; the ratio defaults to 1:1 and fixes width and height (3:2, 2:3, else 640×640); count falls back to 1 and the strengths and saturation to 50 when missing, NaN or 0, so none is 0; a given nonzero count, strength or saturation is kept; the negative prompt falls back to the default when missing or empty; genre and style are never empty and never contain `#`; no `style` option gives the default genre and style |
| `RequestBuilder.GenreStyleFromOption` | src/Index.ts:54-84 | genre is the text before the first `#`, style the first segment after it, each defaulted when empty |
| `RequestBuilder.StyleWithoutSeparator` | src/Index.ts:54-84 | a style value without `#` is the genre (defaulted when empty) and the style falls back to the default |
| `RequestBuilder.StyleChoiceRoundTrip` | src/Index.ts:54-84 | a `genre#style` choice yields that genre and that style |
| `RequestBuilder.BuiltRequestWithinBounds` | src/Index.ts:49-83 | options within the command's declared ranges give count 1..4 and strengths and saturation 1..100 |
| `RequestBuilder.BuildLegacyGenRequest` | src/index.ts:241-271 | the earlier builder keeps the aspect-ratio option as given, undefined included |
| `RequestBuilder.LegacyBuilderAgrees` | src/index.ts:245-271 | the earlier builder differs from the current one only in `aspect_ratio`: same size (768×512, 512×768, else 640×640) and same defaults for every input |
| `LegacyIndex.Dispatcher.constructor` | src/index.ts:70-73 | both module-level maps start empty |
| `LegacyIndex.Dispatcher.ProcessNextRequest` | src/index.ts:193-197 | no-op exactly when `localQueue` is empty or `serverQueue` holds 3 or more (no connection check); otherwise the first-inserted entry is taken and the rest keep their order |
| `LegacyIndex.Dispatcher.CompleteSubmission` | src/index.ts:213-221 | on success the request, its id set, is set in `localQueue` under the server id; on error under its original key; `serverQueue` is untouched |
| `LegacyIndex.Dispatcher.ProcessAndSubmit` | src/index.ts:193-222 | without interleaving, an accepted request is in `localQueue` under the server id with its id set and not moved to `serverQueue`; a failed one is last in `localQueue` under its key |
| `LegacyIndex.Dispatcher.Enqueue` | src/index.ts:275 | the request is set under its timestamp key and can be read back there; a new key places it last; `serverQueue` is untouched |
| `LegacyIndex.Dispatcher.OnMessage` | src/index.ts:112-176 | REQUEST for a pending id moves that entry to `serverQueue` under the same id, so exactly one map holds it; FINISHED for a known id deletes it and makes one drain attempt; unknown ids and PROGRESS change nothing |
| `LegacyIndex.Dispatcher.TakenAgainBeforeAcknowledged` | src/index.ts:193-216 | the only pending request, once accepted, is taken again by the next drain if no REQUEST message came first |

## Left out

- Socket and HTTP plumbing is not modelled: the URL lookup, the socket
  `open`/`close`/`error` wiring, the 25-second ping interval (and the
  `pingInterval` field), and the 5, 15 and 30-second reconnect and retry
  timers. The lookup's answer is the `Connect` parameter. The reply to a
  submission is the `SubmitOutcome`/`SubmitResult` parameter. The socket's
  open event is `OnOpen`.
- Discord glue is not modelled: command registration, login, replies and
  follow-ups (including the 401 follow-up), image download and embeds, and
  the `clear` command. Requests therefore carry no interaction object.
- Event listeners and re-emission through `AccountManager` are not
  modelled. Events are each account's `events` log. The manager forwards
  only `imageReady` (src/ApiClient/AccountManager.ts:19-21), so
  `requestFailed` and `illegalWords` never reach the fleet's listeners.
- ApiAccount.Account.CompleteSubmission: for an error without an HTTP
  response the model states only that the request leaves both maps and no
  event is emitted. The unhandled promise rejection that follows is not
  modelled: Node reports it, and from version 15 on it ends the process by
  default.
- LegacyIndex.Dispatcher.Enqueue: the awaited `interaction.reply` between
  the set and the drain (src/index.ts:277) is not modelled as a step. The
  model's caller decides whether and when `ProcessNextRequest` follows.
  A rejected reply corresponds to no drain call.
- Logging is not modelled. The progress value and image list of socket
  messages are not modelled; they are only logged or rendered.
- `Date.now()` is not modelled. The timestamp key is the `key` parameter of
  `LegacyIndex.Dispatcher.Enqueue`.
- `parseInt` is not modelled. Its result is an input, `None` for `NaN`.
  Numbers are unbounded integers rather than doubles; every value involved
  is small.
- Inherited object keys are not modelled. A ratio such as `toString` would
  find a prototype member in the aspect-ratio table; the command offers only
  the three listed ratios.
- `AccountManager.addToQueue` passes a single `{ interaction, GenRequest }`
  object to `Account.addToQueue(GenRequest, localId)` (src/ApiClient/AccountManager.ts:40).
  The model uses `Account`'s two-argument signature. At run time the local
  id would be `undefined` and the stored value the wrapper object.
- ApiAccountManager.AccountManager.GetNextAvailableAccount: returns the
  selected account's index rather than the account object.
- ApiAccountManager.AccountManager.AvailableFrom: its contract describes
  only the first index of the filtered list, which is all that selection
  uses.
- Cross-event interleaving is modelled only through the take/complete
  split and the separate enqueue and drain of `src/index.ts`.
- LegacyIndex.Dispatcher.OnMessage: for FINISHED the source deletes the
  entry, then awaits each image download and the follow-up
  (src/index.ts:127-153), and only then drains (src/index.ts:156). The
  model drains straight after the delete, so it does not capture events
  that run during those awaits, nor the skipped drain when a download or
  the follow-up rejects.
- src/Commands.ts is not modelled; its option ranges appear only as
  `RequestBuilder.WithinOptionBounds`. src/logger.ts and src/types.ts hold
  no behaviour (types.ts is the shape of `Types`).
