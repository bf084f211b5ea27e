/** The order of messages on one work queue, over every run of posts and deliveries. */
module MsgOrder {
  datatype Msg = Msg(kind: int, body: int)

  /** A message on a queue; number counts the messages posted to the queue before it. */
  datatype Item = Item(msg: Msg, high: bool, number: nat)

  datatype Event = Post(msg: Msg, high: bool) | Deliver

  datatype History = History(posted: seq<Item>, pending: seq<Item>, delivered: seq<Item>)

  /** High priority goes to the front, low priority to the back; delivery takes the front. */
  function Step(h: History, e: Event): History {
    match e
    case Post(msg, high) =>
      var item := Item(msg, high, |h.posted|);
      History(h.posted + [item], if high then [item] + h.pending else h.pending + [item], h.delivered)
    case Deliver =>
      if h.pending == [] then h
      else History(h.posted, h.pending[1..], h.delivered + [h.pending[0]])
  }

  function Run(events: seq<Event>): History
    decreases |events|
  {
    if events == [] then History([], [], [])
    else Step(Run(events[..|events| - 1]), events[|events| - 1])
  }

  lemma RunExtends(events: seq<Event>, e: Event)
    ensures Run(events + [e]) == Step(Run(events), e)
  {
    assert (events + [e])[..|events|] == events;
  }

  // ------------------------------------------------------------------- pending

  /** High priority before low, high newest first, low oldest first. */
  ghost predicate Ordered(pending: seq<Item>) {
    forall i, j :: 0 <= i < j < |pending| ==>
      && (pending[j].high ==> pending[i].high && pending[i].number > pending[j].number)
      && (!pending[i].high ==> pending[i].number < pending[j].number)
  }

  ghost predicate NumbersBelow(items: seq<Item>, n: nat) {
    forall i :: 0 <= i < |items| ==> items[i].number < n
  }

  lemma {:induction false} PendingIsOrdered(events: seq<Event>)
    ensures Ordered(Run(events).pending)
    ensures NumbersBelow(Run(events).pending, |Run(events).posted|)
    decreases |events|
  {
    if events != [] {
      PendingIsOrdered(events[..|events| - 1]);
    }
  }

  /** No low-priority message is delivered while a high-priority one waits. */
  lemma HighGoesFirst(events: seq<Event>)
    requires Run(events).pending != []
    ensures var delivered := Run(events + [Deliver]).delivered;
            && |delivered| == |Run(events).delivered| + 1
            && (!delivered[|delivered| - 1].high ==> forall m :: m in Run(events).pending ==> !m.high)
            && (delivered[|delivered| - 1].high ==>
                  forall m :: m in Run(events).pending && m.high ==> m.number <= delivered[|delivered| - 1].number)
  {
    RunExtends(events, Deliver);
    PendingIsOrdered(events);
  }

  // ----------------------------------------------------------------- deliveries

  function Lows(items: seq<Item>): seq<Item> {
    if items == [] then []
    else if items[0].high then Lows(items[1..])
    else [items[0]] + Lows(items[1..])
  }

  lemma {:induction false} LowsConcat(a: seq<Item>, b: seq<Item>)
    ensures Lows(a + b) == Lows(a) + Lows(b)
  {
    if a == [] {
      assert a + b == b;
    } else {
      LowsConcat(a[1..], b);
      assert (a + b)[0] == a[0] && (a + b)[1..] == a[1..] + b;
      Regroup([a[0]], Lows(a[1..]), Lows(b));
    }
  }

  /** Low-priority messages are delivered in posting order, and none is lost or repeated. */
  lemma {:induction false} LowsInPostingOrder(events: seq<Event>)
    ensures var h := Run(events); Lows(h.posted) == Lows(h.delivered) + Lows(h.pending)
    decreases |events|
  {
    if events != [] {
      LowsInPostingOrder(events[..|events| - 1]);
      StepKeepsLows(Run(events[..|events| - 1]), events[|events| - 1]);
    }
  }

  lemma StepKeepsLows(h: History, e: Event)
    requires Lows(h.posted) == Lows(h.delivered) + Lows(h.pending)
    ensures var s := Step(h, e); Lows(s.posted) == Lows(s.delivered) + Lows(s.pending)
  {
    match e
    case Post(msg, high) =>
      PostKeepsLows(h, Item(msg, high, |h.posted|));
    case Deliver =>
      if h.pending != [] {
        LowsFirst(h.delivered, h.pending);
      }
  }

  /** Moving the first entry from one list to the end of another. */
  lemma LowsFirst(a: seq<Item>, b: seq<Item>)
    requires b != []
    ensures Lows(a + [b[0]]) + Lows(b[1..]) == Lows(a) + Lows(b)
  {
    assert Lows([b[0]]) == if b[0].high then [] else [b[0]];
    LowsConcat(a, [b[0]]);
    Regroup(Lows(a), Lows([b[0]]), Lows(b[1..]));
  }

  lemma Regroup<T>(a: seq<T>, b: seq<T>, c: seq<T>)
    ensures (a + b) + c == a + (b + c)
  {
  }

  lemma PostKeepsLows(h: History, item: Item)
    requires Lows(h.posted) == Lows(h.delivered) + Lows(h.pending)
    ensures Lows(h.posted + [item])
            == Lows(h.delivered) + Lows(if item.high then [item] + h.pending else h.pending + [item])
  {
    assert Lows([item]) == if item.high then [] else [item];
    LowsConcat(h.posted, [item]);
    if item.high {
      LowsConcat([item], h.pending);
    } else {
      LowsConcat(h.pending, [item]);
    }
  }

  /** Nothing is lost, made up or delivered twice. */
  lemma {:induction false} PostedIsDeliveredOrPending(events: seq<Event>)
    ensures var h := Run(events); multiset(h.posted) == multiset(h.delivered) + multiset(h.pending)
    decreases |events|
  {
    if events != [] {
      PostedIsDeliveredOrPending(events[..|events| - 1]);
      StepLosesNothing(Run(events[..|events| - 1]), events[|events| - 1]);
    }
  }

  lemma StepLosesNothing(h: History, e: Event)
    requires multiset(h.posted) == multiset(h.delivered) + multiset(h.pending)
    ensures var s := Step(h, e); multiset(s.posted) == multiset(s.delivered) + multiset(s.pending)
  {
    if e == Deliver && h.pending != [] {
      assert h.pending == [h.pending[0]] + h.pending[1..];
    }
  }
}
