/**
 * The polling loop of `monitor`: the process-wide cursor `last_id`, seeded from the
 * newest message and advanced after each forwarded message. The network is an
 * input: each GET is a `Response` (status and decoded message list) and the webhook
 * is a function from payload to the status it answers.
 */
module Relay {
  import opened Wrappers
  import opened Messages
  import opened Transform
  import opened Trace

  /** The answer to one GET of the channel's messages. */
  datatype Response = Response(status: int, messages: seq<Message>)

  const StatusOk := 200

  /** The message is forwarded and its id read without raising. */
  predicate Relayable(m: Message)
  {
    Forwardable(m) && m.id.Some?
  }

  /**
   * The body of the `for` loop for one message: post its payload, then set the
   * cursor to its id. The id is read only after the POST, so a message without
   * one is still posted before the KeyError.
   */
  function ForwardEffect(m: Message, webhook: Payload -> int): (r: Effect)
    ensures r.raised.None? <==> Relayable(m)
  {
    match ToPayload(m)
    case Err(e) => Effect([], Some(e))
    case Ok(p) =>
      var post := Posted(p, webhook(p));
      match m.id
      case None => Effect([post], Some(KeyError("id")))
      case Some(id) => Effect([post, CursorSet(id)], None)
  }

  /**
   * What one iteration raises, posts and writes: the payload-building exception, or
   * the KeyError on the id after the payload was posted, or both the POST and the
   * cursor write.
   */
  lemma ForwardEffectSpec(m: Message, webhook: Payload -> int)
    ensures !Forwardable(m) ==> ForwardEffect(m, webhook).raised == Some(ToPayload(m).error)
    ensures Forwardable(m) && m.id.None? ==> ForwardEffect(m, webhook).raised == Some(KeyError("id"))
    ensures PostsOf(ForwardEffect(m, webhook).events) == if Forwardable(m) then [ToPayload(m).value] else []
    ensures CursorsOf(ForwardEffect(m, webhook).events) == if Relayable(m) then [m.id.value] else []
    ensures Relayable(m) ==>
      var p := ToPayload(m).value;
      ForwardEffect(m, webhook).events == [Posted(p, webhook(p)), CursorSet(m.id.value)]
  {
  }

  /** The loop body applied to each message of a list, in list order. */
  function ForwardEffects(msgs: seq<Message>, webhook: Payload -> int): (r: seq<Effect>)
    ensures |r| == |msgs|
    ensures forall i :: 0 <= i < |msgs| ==> r[i] == ForwardEffect(msgs[i], webhook)
  {
    if msgs == [] then [] else [ForwardEffect(msgs[0], webhook)] + ForwardEffects(msgs[1..], webhook)
  }

  lemma {:induction false} ForwardEffectsConcat(a: seq<Message>, b: seq<Message>, webhook: Payload -> int)
    ensures ForwardEffects(a + b, webhook) == ForwardEffects(a, webhook) + ForwardEffects(b, webhook)
  {
    if a == [] {
      assert a + b == b;
    } else {
      assert (a + b)[0] == a[0];
      assert (a + b)[1..] == a[1..] + b;
      ForwardEffectsConcat(a[1..], b, webhook);
    }
  }

  /** The whole `for m in msgs` loop over one batch. */
  function BatchEffect(msgs: seq<Message>, webhook: Payload -> int): (r: Effect)
    ensures r.raised.None? <==> forall i :: 0 <= i < |msgs| ==> Relayable(msgs[i])
  {
    ChainCompletes(ForwardEffects(msgs, webhook));
    Chain(ForwardEffects(msgs, webhook))
  }

  /** The messages a response hands to the loop: the list on status 200, nothing otherwise. */
  function Accepted(response: Response): (r: seq<Message>)
    ensures response.status != StatusOk ==> r == []
    ensures response.status == StatusOk ==> r == response.messages
  {
    if response.status == StatusOk then response.messages else []
  }

  /** One iteration of `while True`: the batch is relayed only when the GET answered 200. */
  function PollEffect(response: Response, webhook: Payload -> int): (r: Effect)
    ensures response.status != StatusOk ==> r == Effect([], None)
    ensures response.status == StatusOk ==> r == BatchEffect(response.messages, webhook)
  {
    BatchEffect(Accepted(response), webhook)
  }

  /** One iteration of `while True` per response, in order. */
  function PollEffects(responses: seq<Response>, webhook: Payload -> int): (r: seq<Effect>)
    ensures |r| == |responses|
    ensures forall i :: 0 <= i < |responses| ==> r[i] == PollEffect(responses[i], webhook)
  {
    if responses == [] then [] else [PollEffect(responses[0], webhook)] + PollEffects(responses[1..], webhook)
  }

  /** Iterations of `while True`, one per response, until one raises. */
  function RunEffect(responses: seq<Response>, webhook: Payload -> int): (r: Effect)
    ensures r.raised.None? <==> forall i :: 0 <= i < |responses| ==> PollEffect(responses[i], webhook).raised.None?
  {
    ChainCompletes(PollEffects(responses, webhook));
    Chain(PollEffects(responses, webhook))
  }

  /** Every message the responses hand to the loop, in order. */
  function AllAccepted(responses: seq<Response>): seq<Message>
  {
    if responses == [] then []
    else Accepted(responses[0]) + AllAccepted(responses[1..])
  }

  /**
   * The seeding GET (`limit=1`): on 200 with a non-empty list the cursor becomes the
   * first element's id; reading a missing id raises.
   */
  function SeedEffect(status: int, data: seq<Message>): (r: Effect)
    ensures PostsOf(r.events) == []
    ensures LastCursor(r.events) == if status == StatusOk && |data| > 0 then data[0].id else None
    ensures r.raised == if status == StatusOk && |data| > 0 && data[0].id.None? then Some(KeyError("id")) else None
  {
    if status == StatusOk && |data| > 0 then
      match data[0].id
      case None => Effect([], Some(KeyError("id")))
      case Some(id) =>
        assert CursorsOf([CursorSet(id)]) == [id] + CursorsOf([]);
        Effect([CursorSet(id)], None)
    else Effect([], None)
  }

  // ---------------------------------------------------------------------------
  // Properties of a batch

  /**
   * A batch of well-formed messages is relayed in exactly the order returned: the
   * payload of message i is posted, then the cursor is set to its id, before message
   * i + 1 is touched.
   */
  lemma BatchRelaysInOrder(msgs: seq<Message>, webhook: Payload -> int)
    requires forall i :: 0 <= i < |msgs| ==> Relayable(msgs[i])
    ensures BatchEffect(msgs, webhook).raised == None
    ensures |BatchEffect(msgs, webhook).events| == 2 * |msgs|
    ensures forall i :: 0 <= i < |msgs| ==>
      BatchEffect(msgs, webhook).events[2 * i] == Posted(ToPayload(msgs[i]).value, webhook(ToPayload(msgs[i]).value))
    ensures forall i :: 0 <= i < |msgs| ==>
      BatchEffect(msgs, webhook).events[2 * i + 1] == CursorSet(msgs[i].id.value)
  {
    ChainOfPairs(ForwardEffects(msgs, webhook));
  }

  /**
   * What a batch of well-formed messages leaves behind: the webhook received their
   * payloads in the order returned, and the cursor is the id of the LAST message
   * returned (no sorting, no maximum); an empty batch writes nothing.
   */
  lemma BatchDeliversAll(msgs: seq<Message>, webhook: Payload -> int)
    requires forall i :: 0 <= i < |msgs| ==> Relayable(msgs[i])
    ensures |PostsOf(BatchEffect(msgs, webhook).events)| == |msgs|
    ensures forall i :: 0 <= i < |msgs| ==> PostsOf(BatchEffect(msgs, webhook).events)[i] == ToPayload(msgs[i]).value
    ensures LastCursor(BatchEffect(msgs, webhook).events) == if msgs == [] then None else msgs[|msgs| - 1].id
  {
    var effects := ForwardEffects(msgs, webhook);
    forall i | 0 <= i < |effects|
      ensures effects[i].raised.None?
      ensures PostsOf(effects[i].events) == [ToPayload(msgs[i]).value]
      ensures CursorsOf(effects[i].events) == [msgs[i].id.value]
    {
      ForwardEffectSpec(msgs[i], webhook);
    }
    ChainPostsEach(effects);
    ChainWritesEach(effects);
  }

  /**
   * The cursor and the log after a batch of well-formed messages relayed on top of
   * earlier events: the payloads are appended in list order, and the cursor moves
   * to the id of the last message returned; an empty batch leaves it where it was.
   */
  lemma BatchAdvancesCursor(before: seq<Event>, msgs: seq<Message>, webhook: Payload -> int)
    requires forall i :: 0 <= i < |msgs| ==> Relayable(msgs[i])
    ensures |PostsOf(before + BatchEffect(msgs, webhook).events)| == |PostsOf(before)| + |msgs|
    ensures PostsOf(before + BatchEffect(msgs, webhook).events)[..|PostsOf(before)|] == PostsOf(before)
    ensures forall i :: 0 <= i < |msgs| ==>
      PostsOf(before + BatchEffect(msgs, webhook).events)[|PostsOf(before)| + i] == ToPayload(msgs[i]).value
    ensures LastCursor(before + BatchEffect(msgs, webhook).events) ==
      if msgs == [] then LastCursor(before) else msgs[|msgs| - 1].id
  {
    var added := BatchEffect(msgs, webhook).events;
    BatchDeliversAll(msgs, webhook);
    TraceAppend(before, added);
    assert CursorsOf(added) == [] <==> msgs == [];
  }

  /**
   * The first message that cannot be relayed ends the batch with its exception: the
   * messages before it are relayed as usual and the ones after it are never touched.
   */
  lemma BatchStopsAtFirstFault(msgs: seq<Message>, webhook: Payload -> int, j: nat)
    requires j < |msgs|
    requires forall i :: 0 <= i < j ==> Relayable(msgs[i])
    requires !Relayable(msgs[j])
    ensures BatchEffect(msgs, webhook).raised == ForwardEffect(msgs[j], webhook).raised
    ensures BatchEffect(msgs, webhook).events ==
      BatchEffect(msgs[..j], webhook).events + ForwardEffect(msgs[j], webhook).events
  {
    var effects := ForwardEffects(msgs, webhook);
    var prefix := effects[..j];
    assert prefix == ForwardEffects(msgs[..j], webhook);
    assert forall i :: 0 <= i < j ==> prefix[i].raised.None?;
    ChainCompletes(prefix);
    ChainStopsAtFirstRaise(effects, j);
  }

  /**
   * What a batch that raises at message j posts: the payloads of the messages before
   * it, then its own payload when only its id is missing.
   */
  lemma BatchFaultPosts(msgs: seq<Message>, webhook: Payload -> int, j: nat)
    requires j < |msgs|
    requires forall i :: 0 <= i < j ==> Relayable(msgs[i])
    requires !Relayable(msgs[j])
    ensures PostsOf(BatchEffect(msgs, webhook).events) ==
      PostsOf(BatchEffect(msgs[..j], webhook).events) + (if Forwardable(msgs[j]) then [ToPayload(msgs[j]).value] else [])
  {
    BatchStopsAtFirstFault(msgs, webhook, j);
    PostsOfConcat(BatchEffect(msgs[..j], webhook).events, ForwardEffect(msgs[j], webhook).events);
  }

  /**
   * Where a batch that raises at message j leaves the cursor: at the id of message
   * j - 1, or unset if j = 0.
   */
  lemma BatchFaultCursor(msgs: seq<Message>, webhook: Payload -> int, j: nat)
    requires j < |msgs|
    requires forall i :: 0 <= i < j ==> Relayable(msgs[i])
    requires !Relayable(msgs[j])
    ensures LastCursor(BatchEffect(msgs, webhook).events) == if j == 0 then None else msgs[j - 1].id
  {
    var before := BatchEffect(msgs[..j], webhook).events;
    var last := ForwardEffect(msgs[j], webhook).events;
    assert BatchEffect(msgs, webhook).events == before + last by {
      BatchStopsAtFirstFault(msgs, webhook, j);
    }
    assert CursorsOf(last) == [];
    LastCursorConcat(before, last);
    BatchDeliversAll(msgs[..j], webhook);
    if j > 0 {
      assert msgs[..j][j - 1] == msgs[j - 1];
    }
  }

  /**
   * The cursor follows list order, not id order: relaying ids "200" then "100"
   * leaves the cursor at "100".
   */
  lemma CursorIsLastNotGreatest(newer: Message, older: Message, webhook: Payload -> int)
    requires Relayable(newer) && Relayable(older)
    requires newer.id == Some("200") && older.id == Some("100")
    ensures LastCursor(BatchEffect([newer, older], webhook).events) == Some("100")
  {
    BatchDeliversAll([newer, older], webhook);
  }

  /**
   * The webhook's answers are never looked at: whatever it answers, the same
   * payloads are posted, the same cursor values written, the same exception raised.
   */
  lemma BatchIgnoresWebhook(msgs: seq<Message>, webhook1: Payload -> int, webhook2: Payload -> int)
    ensures BatchEffect(msgs, webhook1).raised == BatchEffect(msgs, webhook2).raised
    ensures PostsOf(BatchEffect(msgs, webhook1).events) == PostsOf(BatchEffect(msgs, webhook2).events)
    ensures CursorsOf(BatchEffect(msgs, webhook1).events) == CursorsOf(BatchEffect(msgs, webhook2).events)
  {
    ChainAgrees(ForwardEffects(msgs, webhook1), ForwardEffects(msgs, webhook2));
  }

  /**
   * Polling is relaying one long batch: a run over several responses has the effect
   * of the `for` loop over all the messages the 200-responses returned, in order.
   */
  lemma {:induction false} RunIsOneBatch(responses: seq<Response>, webhook: Payload -> int)
    ensures RunEffect(responses, webhook) == BatchEffect(AllAccepted(responses), webhook)
  {
    if responses != [] {
      var polls := PollEffects(responses, webhook);
      var rest := responses[1..];
      var restPolls := PollEffects(rest, webhook);
      assert polls == [polls[0]] + restPolls;
      ChainAppend([polls[0]], restPolls);
      ChainSingle(polls[0]);
      RunIsOneBatch(rest, webhook);
      var first := ForwardEffects(Accepted(responses[0]), webhook);
      var later := ForwardEffects(AllAccepted(rest), webhook);
      assert AllAccepted(responses) == Accepted(responses[0]) + AllAccepted(rest);
      ForwardEffectsConcat(Accepted(responses[0]), AllAccepted(rest), webhook);
      assert ForwardEffects(AllAccepted(responses), webhook) == first + later;
      ChainAppend(first, later);
      assert polls[0] == Chain(first);
      assert Chain(restPolls) == Chain(later);
    }
  }

  // ---------------------------------------------------------------------------
  // The relay's state

  /** The state `monitor` keeps: the cursor, and what the webhook has received. */
  class Monitor {
    /** `last_id`: the id of the last message relayed, or the seed. */
    var lastId: Option<string>
    /** Every payload posted to the webhook, in order. */
    var delivered: seq<Payload>
    /** Everything observable the relay has done, in order. */
    ghost var trace: seq<Event>

    ghost predicate Valid()
      reads this
    {
      delivered == PostsOf(trace) && lastId == LastCursor(trace)
    }

    /** The module-level `last_id = None`. */
    constructor ()
      ensures Valid()
      ensures trace == [] && lastId == None && delivered == []
    {
      lastId := None;
      delivered := [];
      trace := [];
    }

    /** The seeding GET, answered with `status` and the list `data`. */
    method Seed(status: int, data: seq<Message>) returns (raised: Option<Failure>)
      requires Valid()
      modifies this
      ensures Valid()
      ensures trace == old(trace) + SeedEffect(status, data).events
      ensures raised == SeedEffect(status, data).raised
      ensures delivered == old(delivered)
      ensures lastId == if status == StatusOk && |data| > 0 && data[0].id.Some? then data[0].id else old(lastId)
    {
      raised := None;
      if status == StatusOk && |data| > 0 {
        if data[0].id.None? {
          raised := Some(KeyError("id"));
          assert SeedEffect(status, data).events == [];
          return;
        }
        ghost var written := [CursorSet(data[0].id.value)];
        assert written == SeedEffect(status, data).events;
        PostsOfConcat(trace, written);
        LastCursorConcat(trace, written);
        lastId := data[0].id;
        trace := trace + written;
      } else {
        assert SeedEffect(status, data).events == [];
      }
    }

    /**
     * `forward`: build the payload and post it to the webhook. The answer is
     * recorded in the trace and otherwise discarded.
     */
    method Forward(m: Message, webhook: Payload -> int) returns (raised: Option<Failure>)
      requires Valid()
      modifies this
      ensures Valid()
      ensures lastId == old(lastId)
      ensures raised == if ToPayload(m).Err? then Some(ToPayload(m).error) else None
      ensures trace == old(trace) +
        if ToPayload(m).Err? then [] else [Posted(ToPayload(m).value, webhook(ToPayload(m).value))]
      ensures delivered == old(delivered) + if ToPayload(m).Err? then [] else [ToPayload(m).value]
    {
      var r := ToPayload(m);
      if r.Err? {
        return Some(r.error);
      }
      var answer := webhook(r.value);
      ghost var post := Posted(r.value, answer);
      PostsOfConcat(trace, [post]);
      LastCursorConcat(trace, [post]);
      assert PostsOf([post]) == [r.value] + PostsOf([]);
      delivered := delivered + [r.value];
      trace := trace + [post];
      raised := None;
    }

    /** The body of `for m in msgs`: `forward(m, s)`, then `last_id = m["id"]`. */
    method ForwardAndAdvance(m: Message, webhook: Payload -> int) returns (raised: Option<Failure>)
      requires Valid()
      modifies this
      ensures Valid()
      ensures trace == old(trace) + ForwardEffect(m, webhook).events
      ensures raised == ForwardEffect(m, webhook).raised
    {
      raised := Forward(m, webhook);
      if raised.Some? || m.id.None? {
        if raised.None? {
          raised := Some(KeyError("id"));
        }
        return;
      }
      ghost var write := CursorSet(m.id.value);
      ghost var posted := trace;
      PostsOfConcat(posted, [write]);
      LastCursorConcat(posted, [write]);
      assert CursorsOf([write]) == [m.id.value] + CursorsOf([]);
      lastId := m.id;
      trace := trace + [write];
      ConcatAssoc(old(trace), posted[|old(trace)|..], [write]);
    }

    /** The `for m in msgs` loop: relay each message in list order until one raises. */
    method ForwardBatch(msgs: seq<Message>, webhook: Payload -> int) returns (raised: Option<Failure>)
      requires Valid()
      modifies this
      ensures Valid()
      ensures trace == old(trace) + BatchEffect(msgs, webhook).events
      ensures raised == BatchEffect(msgs, webhook).raised
    {
      ghost var effects := ForwardEffects(msgs, webhook);
      ghost var start := trace;
      raised := None;
      var i := 0;
      while i < |msgs|
        invariant 0 <= i <= |msgs|
        invariant Valid()
        invariant raised.None? && Chain(effects[..i]).raised.None?
        invariant trace == start + Chain(effects[..i]).events
      {
        ChainExtend(effects, i);
        ghost var done := Chain(effects[..i]).events;
        ghost var step := effects[i];
        assert step == ForwardEffect(msgs[i], webhook);
        raised := ForwardAndAdvance(msgs[i], webhook);
        ConcatAssoc(start, done, step.events);
        if raised.Some? {
          break;
        }
        i := i + 1;
      }
      assert raised.None? ==> effects[..i] == effects;
    }

    /** One iteration of `while True`: GET answered with `response`, then the `for` loop. */
    method PollStep(response: Response, webhook: Payload -> int) returns (raised: Option<Failure>)
      requires Valid()
      modifies this
      ensures Valid()
      ensures trace == old(trace) + PollEffect(response, webhook).events
      ensures raised == PollEffect(response, webhook).raised
      ensures response.status != StatusOk ==> delivered == old(delivered) && lastId == old(lastId)
    {
      raised := None;
      if response.status == StatusOk {
        raised := ForwardBatch(response.messages, webhook);
      }
    }

    /** `while True` over a finite stretch of GET responses; an exception ends it. */
    method Run(responses: seq<Response>, webhook: Payload -> int) returns (raised: Option<Failure>)
      requires Valid()
      modifies this
      ensures Valid()
      ensures trace == old(trace) + RunEffect(responses, webhook).events
      ensures raised == RunEffect(responses, webhook).raised
    {
      ghost var polls := PollEffects(responses, webhook);
      ghost var start := trace;
      raised := None;
      var k := 0;
      while k < |responses|
        invariant 0 <= k <= |responses|
        invariant Valid()
        invariant raised.None? && Chain(polls[..k]).raised.None?
        invariant trace == start + Chain(polls[..k]).events
      {
        ChainExtend(polls, k);
        ghost var done := Chain(polls[..k]).events;
        ghost var poll := polls[k];
        assert poll == PollEffect(responses[k], webhook);
        raised := PollStep(responses[k], webhook);
        ConcatAssoc(start, done, poll.events);
        if raised.Some? {
          break;
        }
        k := k + 1;
      }
      assert trace == start + Chain(polls).events && raised == Chain(polls).raised by {
        if raised.None? {
          assert polls[..k] == polls;
        }
      }
    }
  }

  /**
   * `monitor` from start-up over a finite stretch of responses: the cursor starts
   * unset, is seeded, and then the loop runs unless seeding raised.
   */
  method Start(seed: Response, polls: seq<Response>, webhook: Payload -> int)
    returns (monitor: Monitor, raised: Option<Failure>)
    ensures fresh(monitor) && monitor.Valid()
    ensures monitor.trace == SeedEffect(seed.status, seed.messages).events
      + (if SeedEffect(seed.status, seed.messages).raised.Some? then [] else RunEffect(polls, webhook).events)
    ensures raised == if SeedEffect(seed.status, seed.messages).raised.Some?
      then SeedEffect(seed.status, seed.messages).raised else RunEffect(polls, webhook).raised
  {
    ghost var seeded := SeedEffect(seed.status, seed.messages);
    ghost var ran := RunEffect(polls, webhook);
    monitor := new Monitor();
    raised := monitor.Seed(seed.status, seed.messages);
    assert monitor.trace == seeded.events;
    if raised.None? {
      raised := monitor.Run(polls, webhook);
      assert monitor.trace == seeded.events + ran.events;
    }
  }
}
