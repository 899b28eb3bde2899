# Notifier: a verified model of the channel-to-webhook relay

`Notifier.py` polls one Discord channel and forwards every new message to a
webhook. Its logic has two parts:

- **`forward`** builds the webhook payload from a raw message record. It copies
  `content` and the author's `username`. It builds the avatar address from the
  CDN template, but only when the author has a non-empty avatar token. It passes
  `embeds` through (`[]` if missing) and reduces each attachment to its `url`.
  It then posts the payload. The webhook's answer is discarded.
- **`monitor`** keeps the process-wide cursor `last_id`:
  - At start-up it seeds the cursor from the newest message (a `limit=1` GET).
  - It then loops forever. Each GET of the messages after the cursor that answers
    200 is followed by forwarding the returned messages in list order. The cursor
    is set to each message's id right after that message has been posted.
  - Any exception (a missing key in a message) ends `monitor`.

The model has five modules:

- `Wrappers` (`wrappers.dfy`): `Option`, `Result`, and `OrEmpty` for
  `d.get(key, [])`.
- `Messages` (`messages.dfy`): the decoded message record.
  - A key that may be missing is an `Option`.
  - Embeds are arbitrary JSON.
  - Python's `KeyError` is `Failure.KeyError(key)`.
- `Transform` (`transform.dfy`): the payload construction, as the pure function
  `ToPayload`.
  - The dictionary's values are evaluated in order: content, username,
    avatar_url, embeds, attachments.
  - So the first missing key in that order is the one that raises: `author`,
    then `username`, then the author's `id` (read only when the avatar is
    truthy), then an attachment's `url`.
- `Trace` (`trace.dfy`): what the relay does, as a trace of events, each either a
  POST (with the status the webhook answered) or a cursor write.
  - An `Effect` is the events of some work plus the exception that ended it.
  - `Chain` runs pieces of work in order and stops at the first exception.
- `Relay` (`relay.dfy`): the specification functions and the `Monitor` class.
  - `ForwardEffect` is one iteration of `for m in msgs`; `BatchEffect` is the
    whole `for` loop; `PollEffect` is one iteration of `while True`; `RunEffect`
    is a finite stretch of iterations; `SeedEffect` is the seeding GET.
  - `Monitor` holds the cursor `lastId`, the log `delivered` of payloads posted,
    and a ghost `trace`. `Valid()` ties the log and the cursor to the trace.
  - Each method is a loop or a step of the source and is proved to append exactly
    the corresponding specification effect to the trace.

The network is an input:

- Each GET is a `Response`: a status and the decoded list.
- The webhook is a function from payload to the status it answers.
- `Start` takes the seeding response and a finite sequence of poll responses.

Behaviour a relay might be expected to have but this code does not; the model
follows the code:

- `content` is copied as is. An empty string stays an empty string. It is not
  turned into null.
- Messages are relayed in the order the API returns them. Nothing sorts them,
  so the cursor ends at the id of the last message returned, not at the greatest
  id (`CursorIsLastNotGreatest`).
- The cursor is assigned unconditionally. It is never compared with the old
  value, so it need not increase.
- A non-200 GET is skipped for that iteration. Nothing retries or backs off, and
  there is no rate limiting and no throttling handling.
- The webhook's status is never looked at, so a rejected delivery still advances
  the cursor (`BatchIgnoresWebhook`).
- Seeding is a GET separate from the first poll. A missing id in the seed message
  raises.

## Model

| member | source | states |
|---|---|---|
| Transform.AvatarUrl | Notifier.py:36 | the avatar address has the length of its parts, starts with `https://cdn.discordapp.com/avatars/` and ends with `.png` |
| Transform.AvatarUrlParts | Notifier.py:36 | the avatar address is `https://cdn.discordapp.com/avatars/`, the author id, `/`, the avatar token and `.png`, in that order, with nothing else |
| Transform.AvatarUrlInjective | Notifier.py:36 | for ids without `/`, two equal avatar addresses come from the same author id and the same token |
| Transform.Links | Notifier.py:38 | the attachments comprehension succeeds exactly when every attachment has a `url`; then it has the same length and order, with element i being `{url: atts[i].url}`; otherwise it raises KeyError `url` |
| Transform.ToPayload | Notifier.py:33-39 | building the payload succeeds exactly when the message is forwardable: it has an author with a username, an author id when the avatar is truthy, and a url on every attachment |
| Transform.ToPayloadRaises | Notifier.py:35-38 | which KeyError a message raises: `author`, then `username`, then `id` (only for a truthy avatar), then `url`, by dictionary evaluation order |
| Transform.ToPayloadFields | Notifier.py:34-38 | the payload's fields: content unchanged (missing stays missing, `""` stays `""`); username from the author; the avatar address only for a non-empty avatar token, otherwise none; embeds verbatim or `[]` when the key is missing; attachments reduced to their urls in the same order, `[]` when the key is missing |
| Trace.Chain | Notifier.py:23-29 | how an uncaught exception ends the loops: pieces of work run in order, and the first that raises ends the run with its exception. It has no postcondition of its own; `Trace.ChainCompletes` and `Trace.ChainStopsAtFirstRaise` state its behaviour |
| Trace.ChainCompletes | Notifier.py:27-29 | a sequence of loop iterations completes exactly when none of its iterations raises |
| Trace.ChainStopsAtFirstRaise | Notifier.py:27-29 | the first iteration that raises ends the loop with that exception: the earlier iterations' events stand, and later iterations leave no trace |
| Relay.ForwardEffect | Notifier.py:28-29 | one iteration of the `for` loop completes exactly when the payload can be built and the message has an id |
| Relay.ForwardEffectSpec | Notifier.py:28-29 | one iteration raises the payload's KeyError, or KeyError `id` after posting the payload, or posts the payload (with the webhook's answer) and then writes the message's id to the cursor |
| Relay.BatchEffect | Notifier.py:27-29 | the `for m in msgs` loop completes exactly when every message can be relayed (payload builds and id present) |
| Relay.RunEffect | Notifier.py:23-30 | the `while True` loop over a finite sequence of responses completes exactly when none of its polls raises |
| Relay.PollEffect | Notifier.py:24-29 | a poll whose GET answers 200 is the `for` loop over exactly the returned list; a poll whose GET does not answer 200 posts nothing, writes nothing and raises nothing |
| Relay.SeedEffect | Notifier.py:19-22 | seeding posts nothing. The cursor becomes `data[0].id` only on status 200 with a non-empty list, and stays unset otherwise. A first element without an id raises KeyError `id` |
| Relay.BatchRelaysInOrder | Notifier.py:27-29 | for well-formed messages the loop completes with exactly 2n events: message i's payload is posted, then the cursor is set to its id, before message i + 1 is touched |
| Relay.BatchDeliversAll | Notifier.py:27-29 | for well-formed messages the webhook receives their payloads in list order, and the cursor ends at the id of the last message returned; an empty batch writes nothing |
| Relay.BatchAdvancesCursor | Notifier.py:13-29 | on top of earlier events, a well-formed batch appends its payloads in list order after the earlier ones, and moves the cursor to the last message's id; an empty batch leaves the cursor where it was |
| Relay.BatchStopsAtFirstFault | Notifier.py:27-29 | the first message that cannot be relayed ends the batch with its exception: the messages before it are relayed as usual and the ones after it are never touched |
| Relay.BatchFaultPosts | Notifier.py:27-29 | a batch that raises at message j has posted the payloads of messages 0..j-1, and message j's own payload when only its id is missing |
| Relay.BatchFaultCursor | Notifier.py:27-29 | a batch that raises at message j leaves the cursor at message j-1's id, or unwritten when j = 0 |
| Relay.CursorIsLastNotGreatest | Notifier.py:29 | relaying ids `"200"` then `"100"` leaves the cursor at `"100"`: list order, not id order |
| Relay.BatchIgnoresWebhook | Notifier.py:40 | whatever the webhook answers, a batch posts the same payloads, writes the same cursor values and raises the same exception |
| Relay.RunIsOneBatch | Notifier.py:23-29 | a run over several GET responses has the effect of one `for` loop over all the messages that the 200-responses returned, in order |
| Relay.Monitor.constructor | Notifier.py:13 | the cursor starts unset, and nothing has been posted |
| Relay.Monitor.Seed | Notifier.py:19-22 | the seeding GET appends `SeedEffect` to the trace; the log is unchanged and the cursor is set to `data[0].id` exactly when the answer is 200 with a non-empty list whose first element has an id |
| Relay.Monitor.Forward | Notifier.py:32-40 | `forward` either raises the payload's KeyError and changes nothing, or posts the payload and appends it to the log; the cursor is untouched |
| Relay.Monitor.ForwardAndAdvance | Notifier.py:28-29 | the loop body appends exactly `ForwardEffect(m)` to the trace and raises what it raises |
| Relay.Monitor.ForwardBatch | Notifier.py:27-29 | the `for` loop appends exactly `BatchEffect(msgs)` to the trace and raises what it raises |
| Relay.Monitor.PollStep | Notifier.py:24-29 | one iteration of `while True` appends exactly `PollEffect(response)` to the trace; a GET that does not answer 200 leaves the log and the cursor unchanged |
| Relay.Monitor.Run | Notifier.py:23-29 | the `while True` loop over a finite sequence of responses appends exactly `RunEffect(responses)` to the trace, and stops at the first exception |
| Relay.Start | Notifier.py:13-29 | `monitor` from start-up: seeding, then (unless seeding raised) the poll loop, in that order, in a fresh state |

## Left out

- Reading `TOKEN`, `CHANNEL_ID` and `WEBHOOK` from the environment, and the start-up `RuntimeError` (Notifier.py:6-11): this is process configuration.
- HTTP and the aiohttp session, the Authorization header, URL building and JSON decoding (Notifier.py:17-19, 24, 26, 40): network I/O. Each GET is an input `Response`, and each POST is a call to the input `webhook`, recorded in the trace. One consequence is not captured: while the cursor is unset, the poll URL contains the literal text `after=None`.
- `asyncio`, `await` and `asyncio.sleep(0.05)` (Notifier.py:30, 43): scheduling and timing only.
- `while True` runs forever. `Relay.Monitor.Run` covers any finite prefix of its iterations, one per GET response.
- Exceptions raised by the GET, by `r.json()` or by the POST (transport errors, a body that is not a list of objects): these are failures of foreign libraries. The only exceptions modelled are the KeyErrors of the message dictionaries.
- JSON values of the wrong type are not modelled: a message field that is not a string, or `embeds`/`attachments` that are present but `null`. `None` in the model means a missing key. Python would forward a `null` `embeds` as `null`, and would raise a TypeError on a `null` `attachments`.
- Ordering and monotonicity of Discord ids: the code never compares ids, so the model makes no assumption about them.
- Relay.Monitor.PollStep, Relay.Monitor.Run: apart from the non-200 case of `PollStep`, the log and the cursor are stated through `Valid()`, as `PostsOf(trace)` and `LastCursor(trace)`, rather than as separate postconditions. `Relay.BatchAdvancesCursor` and `Trace.TraceAppend` give their values after a batch or a run.
