/**
 * What the relay does, recorded as a trace of observable events: payloads posted
 * to the webhook and values written to the cursor. An `Effect` is the trace of one
 * piece of work together with the exception, if any, that ended it.
 */
module Trace {
  import opened Wrappers
  import opened Messages
  import opened Transform

  /** One observable action: a POST to the webhook (with the status it answered) or a cursor write. */
  datatype Event = Posted(payload: Payload, answer: int) | CursorSet(id: string)

  /** The events of some work, and the exception that stopped it (`None` if it ran to the end). */
  datatype Effect = Effect(events: seq<Event>, raised: Option<Failure>)

  /** The payloads posted, in order. */
  function PostsOf(events: seq<Event>): (r: seq<Payload>)
    ensures |r| <= |events|
  {
    if events == [] then []
    else
      (match events[0]
       case Posted(p, _) => [p]
       case CursorSet(_) => []) + PostsOf(events[1..])
  }

  /** The values written to the cursor, in order. */
  function CursorsOf(events: seq<Event>): (r: seq<string>)
    ensures |r| <= |events|
  {
    if events == [] then []
    else
      (match events[0]
       case Posted(_, _) => []
       case CursorSet(id) => [id]) + CursorsOf(events[1..])
  }

  /** The cursor after the events, when it started out unset: the last value written. */
  function LastCursor(events: seq<Event>): (r: Option<string>)
    ensures r.None? <==> CursorsOf(events) == []
  {
    var written := CursorsOf(events);
    if written == [] then None else Some(written[|written| - 1])
  }

  /** Regrouping concatenations, stated apart from any trace so that it is cheap to use. */
  lemma ConcatAssoc<T>(a: seq<T>, b: seq<T>, c: seq<T>)
    ensures (a + b) + c == a + (b + c)
  {
  }

  lemma {:induction false} PostsOfConcat(a: seq<Event>, b: seq<Event>)
    ensures PostsOf(a + b) == PostsOf(a) + PostsOf(b)
  {
    if a != [] {
      assert (a + b)[1..] == a[1..] + b;
      PostsOfConcat(a[1..], b);
    } else {
      assert a + b == b;
    }
  }

  lemma {:induction false} CursorsOfConcat(a: seq<Event>, b: seq<Event>)
    ensures CursorsOf(a + b) == CursorsOf(a) + CursorsOf(b)
  {
    if a != [] {
      assert (a + b)[1..] == a[1..] + b;
      CursorsOfConcat(a[1..], b);
    } else {
      assert a + b == b;
    }
  }

  /** A cursor write in later events overrides every earlier one. */
  lemma LastCursorConcat(a: seq<Event>, b: seq<Event>)
    ensures LastCursor(a + b) == if CursorsOf(b) == [] then LastCursor(a) else LastCursor(b)
  {
    CursorsOfConcat(a, b);
  }

  /** What appending events to a trace does to the payloads posted and to the cursor. */
  lemma TraceAppend(before: seq<Event>, added: seq<Event>)
    ensures PostsOf(before + added) == PostsOf(before) + PostsOf(added)
    ensures LastCursor(before + added) == if CursorsOf(added) == [] then LastCursor(before) else LastCursor(added)
  {
    PostsOfConcat(before, added);
    LastCursorConcat(before, added);
  }

  /**
   * Pieces of work run one after the other: the events of each, up to and including
   * the first piece that raises, which stops the rest.
   */
  function Chain(effects: seq<Effect>): Effect
  {
    if effects == [] then Effect([], None)
    else if effects[0].raised.Some? then effects[0]
    else
      var rest := Chain(effects[1..]);
      Effect(effects[0].events + rest.events, rest.raised)
  }

  /** A run completes exactly when none of its pieces raises. */
  lemma {:induction false} ChainCompletes(effects: seq<Effect>)
    ensures Chain(effects).raised.None? <==> forall i :: 0 <= i < |effects| ==> effects[i].raised.None?
  {
    if effects != [] {
      ChainCompletes(effects[1..]);
      if effects[0].raised.None? {
        forall i | 0 < i < |effects| ensures effects[i] == effects[1..][i - 1] { }
      }
    }
  }

  lemma ChainSingle(e: Effect)
    ensures Chain([e]) == e
  {
  }

  /** Running `a` then `b` is running `a`, and then `b` only if `a` did not raise. */
  lemma {:induction false} ChainAppend(a: seq<Effect>, b: seq<Effect>)
    ensures Chain(a + b) ==
      if Chain(a).raised.Some? then Chain(a)
      else Effect(Chain(a).events + Chain(b).events, Chain(b).raised)
  {
    if a == [] {
      assert a + b == b;
    } else {
      var ab := a + b;
      assert ab[0] == a[0];
      if a[0].raised.None? {
        assert ab[1..] == a[1..] + b;
        ChainAppend(a[1..], b);
        var tail := Chain(a[1..]);
        assert Chain(ab) == Effect(a[0].events + Chain(a[1..] + b).events, Chain(a[1..] + b).raised);
        if tail.raised.None? {
          ConcatAssoc(a[0].events, tail.events, Chain(b).events);
        }
      }
    }
  }

  /** The first piece of work that raises decides the outcome; the pieces after it leave no trace. */
  lemma {:induction false} ChainStopsAtFirstRaise(effects: seq<Effect>, j: nat)
    requires j < |effects|
    requires Chain(effects[..j]).raised.None?
    requires effects[j].raised.Some?
    ensures Chain(effects) == Effect(Chain(effects[..j]).events + effects[j].events, effects[j].raised)
  {
    if j == 0 {
      assert effects[..0] == [];
    } else {
      var prefix := effects[..j];
      assert prefix[0] == effects[0];
      assert effects[0].raised.None?;
      var rest := effects[1..];
      assert rest[..j - 1] == prefix[1..];
      assert rest[j - 1] == effects[j];
      ChainStopsAtFirstRaise(rest, j - 1);
      ConcatAssoc(effects[0].events, Chain(prefix[1..]).events, effects[j].events);
    }
  }

  /**
   * One more piece of work after a prefix that did not raise: it either extends the
   * prefix's events, or it raises and decides the outcome of the whole run.
   */
  lemma ChainExtend(effects: seq<Effect>, k: nat)
    requires k < |effects|
    requires Chain(effects[..k]).raised.None?
    ensures effects[k].raised.None? ==>
      Chain(effects[..k + 1]) == Effect(Chain(effects[..k]).events + effects[k].events, None)
    ensures effects[k].raised.Some? ==>
      Chain(effects) == Effect(Chain(effects[..k]).events + effects[k].events, effects[k].raised)
  {
    assert effects[..k + 1] == effects[..k] + [effects[k]];
    ChainAppend(effects[..k], [effects[k]]);
    ChainSingle(effects[k]);
    if effects[k].raised.Some? {
      ChainStopsAtFirstRaise(effects, k);
    }
  }

  /**
   * When every piece of work completes with exactly two events, the run completes and
   * its events are those pairs laid end to end, in order.
   */
  lemma {:induction false} ChainOfPairs(effects: seq<Effect>)
    requires forall i :: 0 <= i < |effects| ==> effects[i].raised.None? && |effects[i].events| == 2
    ensures Chain(effects).raised.None?
    ensures |Chain(effects).events| == 2 * |effects|
    ensures forall i :: 0 <= i < |effects| ==>
      Chain(effects).events[2 * i] == effects[i].events[0] && Chain(effects).events[2 * i + 1] == effects[i].events[1]
  {
    if effects != [] {
      var rest := effects[1..];
      ChainOfPairs(rest);
      var all := Chain(effects).events;
      assert all == effects[0].events + Chain(rest).events;
      forall i | 0 < i < |effects|
        ensures all[2 * i] == effects[i].events[0] && all[2 * i + 1] == effects[i].events[1]
      {
        assert rest[i - 1] == effects[i];
        assert all[2 * i] == Chain(rest).events[2 * (i - 1)];
        assert all[2 * i + 1] == Chain(rest).events[2 * (i - 1) + 1];
      }
    }
  }

  /**
   * When every piece of work completes having posted exactly one payload, the run
   * posts those payloads, in order.
   */
  lemma {:induction false} ChainPostsEach(effects: seq<Effect>)
    requires forall i :: 0 <= i < |effects| ==> effects[i].raised.None?
    requires forall i :: 0 <= i < |effects| ==> |PostsOf(effects[i].events)| == 1
    ensures |PostsOf(Chain(effects).events)| == |effects|
    ensures forall i :: 0 <= i < |effects| ==> PostsOf(Chain(effects).events)[i] == PostsOf(effects[i].events)[0]
  {
    if effects != [] {
      var rest := effects[1..];
      ChainPostsEach(rest);
      var all := PostsOf(Chain(effects).events);
      assert all == PostsOf(effects[0].events) + PostsOf(Chain(rest).events) by {
        PostsOfConcat(effects[0].events, Chain(rest).events);
      }
      forall i | 0 < i < |effects|
        ensures all[i] == PostsOf(effects[i].events)[0]
      {
        assert rest[i - 1] == effects[i];
      }
    }
  }

  /**
   * When every piece of work completes having written the cursor at least once, the
   * run leaves the cursor at the last value the last piece wrote.
   */
  lemma {:induction false} ChainWritesEach(effects: seq<Effect>)
    requires forall i :: 0 <= i < |effects| ==> effects[i].raised.None?
    requires forall i :: 0 <= i < |effects| ==> CursorsOf(effects[i].events) != []
    ensures LastCursor(Chain(effects).events) ==
      if effects == [] then None else LastCursor(effects[|effects| - 1].events)
  {
    if effects != [] {
      var rest := effects[1..];
      ChainWritesEach(rest);
      assert Chain(effects).events == effects[0].events + Chain(rest).events;
      LastCursorConcat(effects[0].events, Chain(rest).events);
      if |effects| > 1 {
        assert rest[|rest| - 1] == effects[|effects| - 1];
      }
    }
  }

  /**
   * Two runs whose pieces raise alike and post and write alike raise, post and
   * write alike as a whole (whatever else differs, such as the webhook's answers).
   */
  lemma {:induction false} ChainAgrees(a: seq<Effect>, b: seq<Effect>)
    requires |a| == |b|
    requires forall i :: 0 <= i < |a| ==> a[i].raised == b[i].raised
    requires forall i :: 0 <= i < |a| ==> PostsOf(a[i].events) == PostsOf(b[i].events)
    requires forall i :: 0 <= i < |a| ==> CursorsOf(a[i].events) == CursorsOf(b[i].events)
    ensures Chain(a).raised == Chain(b).raised
    ensures PostsOf(Chain(a).events) == PostsOf(Chain(b).events)
    ensures CursorsOf(Chain(a).events) == CursorsOf(Chain(b).events)
  {
    if a != [] && a[0].raised.None? {
      ChainAgrees(a[1..], b[1..]);
      PostsOfConcat(a[0].events, Chain(a[1..]).events);
      PostsOfConcat(b[0].events, Chain(b[1..]).events);
      CursorsOfConcat(a[0].events, Chain(a[1..]).events);
      CursorsOfConcat(b[0].events, Chain(b[1..]).events);
    }
  }
}
