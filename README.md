# Live-data relay: the availability state machine

This project models the in-memory core of a small FastAPI relay (`main.py`).
Producers POST a snapshot of match data, or a payload for one stream-link key.
Consumers GET these, and a GET may wait on an `asyncio.Event` until data is
available. Every GET, and every POST /matches, records its path in a route
tracker. The tracker keeps a correlation id and renews it only when the path
changes.

The model has five parts:

- `json_value.dfy` (module `JsonValue`) holds parsed JSON values and request
  bodies. It also defines the two Python operations the handlers apply to
  them: truth testing (`if not matches_data`) and `len(...)`.
- `relay_spec.dfy` (module `RelaySpec`) holds the module-level state as a
  value `State`. It has one pure function per handler, giving the new state
  and the reply. A wait on an event whose flag is clear gives the reply
  `Blocked`. What a waiter gets once woken is the "after wait" function
  (`MatchesAfterWait`, `StreamLinksAfterWait`), evaluated on the state at
  that later time. `Step` and `Run` handle requests one after another.
- `relay_intended.dfy` (module `RelayIntended`) holds corrected versions of
  two handlers, described below, with the properties they are meant to have.
- `relay_properties.dfy` (module `RelayProperties`) holds lemmas over single
  requests and over whole sequences of requests. They cover last-writer-wins,
  404 on an empty publish, per-key isolation, the route-id rule, and how each
  event flag evolves.
- `relay_server.dfy` (module `RelayServer`) holds the class `Relay`. Its
  fields are the module's globals, and its methods are the handlers, which
  update those fields in place. Each method is proved to change the state
  and reply exactly as its `RelaySpec` function says. Two client methods
  exercise the relay's typical scenarios and are verified against the class
  contracts alone.

`uuid.uuid4()` is replaced by an id (`newId`) that the caller passes in.

## How the code differs from what it evidently intends

- The stream-links event (`stream_links_available`, main.py:26) is cleared
  at startup (main.py:172) and is set nowhere. So a GET for a key that is
  not stored waits forever (main.py:107). This holds even after a later POST
  of that very key. The "re-check once, then 404" path (main.py:109-112) can
  never run. The code's own comments say otherwise: the one at main.py:25
  calls the event the control of whether stream-link data is available, and
  the one at main.py:105 says the handler waits until the data becomes
  available. The model of the code as written is `RelaySpec.PostStreamLinks`,
  and `LinksGateStaysClosed`, `ReachableLinksGateClosed`,
  `AbsentLinkBlocks`, `PendingLinkReadNeverReleased` and the client
  `RelayServer.StreamLinksWaiterStaysBlocked` prove its behaviour. The
  corrected step is `RelayIntended.PostStreamLinksReleasing`, which sets the
  event on a successful POST; `RelayIntended.ReleasingPostWakesWaiters`
  proves that a waiter for the posted key then gets its payload and a waiter
  for any other missing key gets 404 after its one re-check.
- In POST /matches, a dict whose `"matches"` value has no length (null, a
  boolean or a number) still replaces the slot at main.py:77. `len` then
  raises at main.py:78, before the event is set, and the reply is an error
  (`RelayProperties.UnsizedMatchesOverwriteWithoutSignal`). If the event was
  already set, a later GET returns that value, or 404 if the value is false
  in Python terms. The corrected step is `RelayIntended.PostMatchesValidated`,
  which rejects such a value before replacing the slot;
  `RelayIntended.ValidatedPostKeepsSlotOnError` proves that it agrees with
  the code on every successful post and keeps the slot and the event on a
  rejected one. A string or dict value has a length, so the code stores and
  signals it like a list.

The rest of the model (the class `Relay` and the lemmas of
`RelayProperties`) follows the code as written.

## Behaviour worth noting

- The startup hook only clears the two events (main.py:171-172). It keeps
  both stores and the route tracker (`RelaySpec.StartupEvent`). Data is lost
  only because a new process starts with fresh globals (`RelaySpec.Init`).

## Model

| member | source | states |
|---|---|---|
| JsonValue.Truthy | main.py:64 | a value is false in Python terms exactly when it is null, `false`, zero, or the empty string, list or dict |
| JsonValue.Get | main.py:77 | `dict.get(key, default)`: the key's value when present, else the default, i.e. a lookup in the dict laid over `{key: default}` |
| JsonValue.Length | main.py:78 | `len` is defined exactly for strings, lists and dicts; where it is defined, the value is true in Python terms iff its length is positive (the `if not` test at line 64) |
| RelaySpec.Init | main.py:20-29 | the import-time state: both events clear (`asyncio.Event()` starts unset, lines 26 and 55), an empty matches list, an empty stream-links table, no route and no id |
| RelaySpec.LogRoute | main.py:31-38 | records the path; takes the new id iff the path differs from the last recorded one (always on the first access); otherwise keeps the id; touches no data or event; with a new id distinct from the old, the id changes iff the path changes |
| RelaySpec.MatchesAfterWait | main.py:61-68 | blocked iff the matches event is clear; once set, 404 iff the stored value is false, otherwise exactly the stored value |
| RelaySpec.GetMatches | main.py:57-68 | logs `/matches` before waiting, then answers as `MatchesAfterWait`; a found value is the stored, true value |
| RelaySpec.PostMatches | main.py:70-87 | logs `/matches`; a malformed or non-dict body is an error and leaves data and events unchanged; a dict replaces the slot with its `"matches"` value (`[]` if absent); success iff that value has a length, and the count is that length; the event ends set iff it was set or the post succeeded; stream links untouched |
| RelaySpec.GetAdmins | main.py:89-93 | logs `/admins` and replies with that path |
| RelaySpec.StreamLinksAfterWait | main.py:106-112 | blocked iff the stream-links event is clear; once set, found iff the key is stored (with its payload), else 404 |
| RelaySpec.GetStreamLinks | main.py:95-112 | logs `/stream_links/<key>`; a stored key is returned at once whatever the event; a missing key goes to the wait; 404 only when the key is missing and the event set |
| RelaySpec.PostStreamLinks | main.py:114-133 | a malformed body is a 400 and changes nothing; a parsed body is stored under the key; every other key's presence and payload, the matches slot, both events and the route tracker are unchanged |
| RelaySpec.StartupEvent | main.py:167-173 | both events end clear; stores and route tracker unchanged |
| RelayIntended.PostStreamLinksReleasing | main.py:114-121 | the corrected POST: the same reply and the same upsert as the code, route and matches untouched, and the stream-links event set exactly when the body parsed (or it was already set) |
| RelayIntended.ReleasingPostWakesWaiters | main.py:105-112 | with the corrected POST, a waiter for the posted key is released with its payload, and a waiter for another missing key is released and answers 404 |
| RelayIntended.PostMatchesValidated | main.py:70-87 | the corrected POST /matches: succeeds exactly when the code does, and on an error leaves the state as the route log alone makes it |
| RelayIntended.ValidatedPostKeepsSlotOnError | main.py:76-81 | the corrected POST equals the code's on every successful post, and a rejected post keeps the slot and the matches event |
| RelayProperties.StepRoute | main.py:36-38 | a request moves the route tracker exactly as `log_route` does for the path its handler logs (lines 59, 72, 91, 97), and not at all for POST /stream_links or startup |
| RelayProperties.IdChangesIffPathChanges | main.py:36-38 | for any logged request whose new id differs from the current id, the id changes iff the path differs from the last one, and the path is recorded |
| RelayProperties.SamePathKeepsId | main.py:36-38 | any run of requests that log only the last recorded path, or log nothing, leaves the path and the id unchanged |
| RelayProperties.MatchesUntouched | main.py:76-77 | only POST /matches rebinds the matches slot |
| RelayProperties.MatchesGateStaysOpen | main.py:81 | once set, the matches event stays set across any requests until a startup |
| RelayProperties.MatchesGateClosedWithoutPost | main.py:81 | a clear matches event stays clear across any requests without a POST /matches |
| RelayProperties.ReadBeforePublishBlocks | main.py:61 | from import time, a GET /matches before any POST /matches blocks |
| RelayProperties.PublishReleasesWaiters | main.py:76-81 | after a successful POST /matches, a woken waiter sees exactly the value just stored (or 404 when it is false), never `Blocked` |
| RelayProperties.LastWriterWins | main.py:76-81 | after a successful POST /matches followed by requests that neither post matches nor restart, the slot holds the posted value and GET returns it, or 404 when it is empty |
| RelayProperties.EmptyPublishReadsNotFound | main.py:77 | posting `[]` or a dict without `"matches"` succeeds with count 0, and the next GET answers 404 instead of waiting |
| RelayProperties.UnsizedMatchesOverwriteWithoutSignal | main.py:77-78 | a `"matches"` value without a length replaces the slot, the reply is an error and the event keeps its previous state |
| RelayProperties.LinksGateStaysClosed | main.py:26 | no sequence of requests sets the stream-links event |
| RelayProperties.ReachableLinksGateClosed | main.py:26 | in every state reachable from import time the stream-links event is clear |
| RelayProperties.LinkEntryUntouched | main.py:121 | a key's presence and payload change only through a POST to that key |
| RelayProperties.LinksNeverRemoved | main.py:121 | a stored key stays stored across any requests |
| RelayProperties.PostLinksIsolation | main.py:114-121 | a POST to one key does not change what a GET of any other key answers |
| RelayProperties.LinksLastWriterWins | main.py:101-103 | after a POST of a payload to a key, followed by requests that do not post to that key, a GET of it returns that payload at once |
| RelayProperties.AbsentLinkBlocks | main.py:105-107 | in a reachable state, a GET of a missing key blocks |
| RelayProperties.PendingLinkReadNeverReleased | main.py:107 | a GET of a missing key blocks, and its re-check stays blocked after any later requests, a POST of the same key included |
| RelayProperties.StartupBlocksReaders | main.py:167-173 | after startup the slot still holds its value, but GET /matches blocks again |
| RelayServer.Relay.constructor | main.py:20-29 | a new relay holds the import-time state: empty slot and table, both events clear (the `data_available` event of line 55 included), no route and no id |
| RelayServer.Relay.LogRoute | main.py:31-38 | updates the tracker fields in place as `RelaySpec.LogRoute` |
| RelayServer.Relay.GetMatches | main.py:57-68 | logs the route, leaves data and events alone, and replies as `RelaySpec.GetMatches`; blocked iff the event is clear |
| RelayServer.Relay.AwaitMatches | main.py:61-68 | reads only; blocked iff the event is clear, 404 iff set with a false value, otherwise the stored value |
| RelayServer.Relay.PostMatches | main.py:70-87 | rebinds the slot and sets the event as `RelaySpec.PostMatches`; stream links untouched |
| RelayServer.Relay.GetAdmins | main.py:89-93 | logs `/admins` and replies with it, as `RelaySpec.GetAdmins` |
| RelayServer.Relay.GetStreamLinks | main.py:95-112 | logs the route, leaves the table and event alone, and replies as `RelaySpec.GetStreamLinks` |
| RelayServer.Relay.AwaitStreamLinks | main.py:106-112 | reads only; blocked iff the event is clear, 404 iff set and the key is missing, otherwise the key's payload |
| RelayServer.Relay.PostStreamLinks | main.py:114-133 | upserts the key in place as `RelaySpec.PostStreamLinks`; the event is unchanged |
| RelayServer.Relay.StartupEvent | main.py:167-173 | clears both event flags, as `RelaySpec.StartupEvent` |
| RelayServer.PostThenGetMatches | main.py:70-87 | on a fresh relay, POST /matches with one record succeeds with count 1, and the next GET returns exactly that one-record list |
| RelayServer.StreamLinksWaiterStaysBlocked | main.py:95-133 | on a fresh relay, a GET of a key blocks, a POST of that key succeeds, and the waiter's re-check still blocks |

## Left out

- The WebSocket endpoint and its client list (main.py:146-165) are network I/O and are not modelled.
- The notification loop in `log_route` (main.py:40-47) is not modelled. It is logging plus a send to each client. A send that raises would abort the handler after the route was recorded; the model does not capture this.
- Scheduling is not modelled. A wait is the reply `Blocked`. The woken waiter's answer is the "after wait" function (or the `Await...` method) taken on a later state. The order in which several waiters wake is not modelled.
- JSON parsing and serialisation are not modelled. A body either fails to parse (`Malformed`) or is a parsed value. Numbers are reals, so NaN and infinities are not represented. Duplicate object keys collapse to one entry.
- `uuid.uuid4()` is not modelled: each logged request takes its new id as a parameter. That the new id differs from the current one is a hypothesis of `IdChangesIffPathChanges`, not a fact of the model.
- The request path of `/stream_links/{watch_id:path}` is modelled as `/stream_links/` followed by the key. URL percent-encoding is not modelled.
- Logging, the human-readable messages, the exception text in error replies and HTTP status codes are not modelled. Replies keep only a tag and, where present, the stored value or count.
- The second GET handler for `/stream_links/{watch_id:path}` (main.py:135-144) is not modelled. It is registered after the first one for the same path, so it is never routed to.
- The unused `MatchData` model (main.py:49-52) and the `uvicorn` launch (main.py:175-177) are not modelled.
