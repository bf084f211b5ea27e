/** Where the wrappers of the message pool are and what they stand for, move by move. */
module MsgPoolSpec {
  import opened MsgOrder

  datatype QueueId = Sme | Pe | Wma | Sys

  /** One value for each work queue. */
  datatype PerQueue<T> = PerQueue(sme: T, pe: T, wma: T, sys: T)
  {
    function Of(q: QueueId): T {
      match q
      case Sme => sme
      case Pe => pe
      case Wma => wma
      case Sys => sys
    }

    function With(q: QueueId, t: T): PerQueue<T> {
      match q
      case Sme => this.(sme := t)
      case Pe => this.(pe := t)
      case Wma => this.(wma := t)
      case Sys => this.(sys := t)
    }
  }

  // ----------------------------------------------------------- where wrappers are

  datatype Place = OnFree | On(q: QueueId) | InHand

  /** The list holds exactly the wrappers at place p, each once. */
  ghost predicate At(list: seq<nat>, place: seq<Place>, p: Place) {
    && (forall i :: 0 <= i < |list| ==> list[i] < |place| && place[list[i]] == p)
    && (forall i, j :: 0 <= i < j < |list| ==> list[i] != list[j])
    && (forall w :: 0 <= w < |place| && place[w] == p ==> w in list)
  }

  lemma Stays(list: seq<nat>, place: seq<Place>, p: Place, w: nat, to: Place)
    requires At(list, place, p) && w < |place| && place[w] != p && to != p
    ensures At(list, place[w := to], p)
  {
  }

  lemma Leaves(rest: seq<nat>, place: seq<Place>, p: Place, w: nat, to: Place)
    requires At([w] + rest, place, p) && to != p
    ensures w < |place| && place[w] == p && At(rest, place[w := to], p)
  {
    var list := [w] + rest;
    assert list[0] == w;
    forall i | 0 <= i < |rest| ensures rest[i] < |place| && place[rest[i]] == p && rest[i] != w {
      assert list[i + 1] == rest[i];
    }
    forall i, j | 0 <= i < j < |rest| ensures rest[i] != rest[j] {
      assert list[i + 1] == rest[i] && list[j + 1] == rest[j];
    }
  }

  lemma EntersFront(list: seq<nat>, place: seq<Place>, p: Place, w: nat)
    requires At(list, place, p) && w < |place| && place[w] != p
    ensures At([w] + list, place[w := p], p)
  {
  }

  lemma EntersBack(list: seq<nat>, place: seq<Place>, p: Place, w: nat)
    requires At(list, place, p) && w < |place| && place[w] != p
    ensures At(list + [w], place[w := p], p)
  {
    assert (list + [w])[|list|] == w;
  }

  // ------------------------------------------------------------- what wrappers hold

  ghost predicate Below(list: seq<nat>, n: nat) {
    forall i :: 0 <= i < |list| ==> list[i] < n
  }

  /** The messages behind a list of wrappers. */
  ghost function Items(list: seq<nat>, held: seq<Item>): seq<Item>
    requires Below(list, |held|)
  {
    if list == [] then [] else Items(list[..|list| - 1], held) + [held[list[|list| - 1]]]
  }

  lemma ItemsBack(list: seq<nat>, held: seq<Item>, w: nat)
    requires Below(list, |held|) && w < |held|
    ensures Below(list + [w], |held|) && Items(list + [w], held) == Items(list, held) + [held[w]]
  {
    assert (list + [w])[..|list|] == list;
  }

  lemma {:induction false} ItemsFront(list: seq<nat>, held: seq<Item>, w: nat)
    requires Below(list, |held|) && w < |held|
    ensures Below([w] + list, |held|) && Items([w] + list, held) == [held[w]] + Items(list, held)
    decreases |list|
  {
    if list == [] {
      assert [w] + list == [] + [w];
      ItemsBack([], held, w);
    } else {
      var (init, last) := (list[..|list| - 1], list[|list| - 1]);
      ItemsFront(init, held, w);
      ItemsBack([w] + init, held, last);
      Regroup([w], init, [last]);
      assert init + [last] == list;
      Regroup([held[w]], Items(init, held), [held[last]]);
    }
  }

  /** A wrapper that is not on the list may be refilled. */
  lemma {:induction false} ItemsElsewhere(list: seq<nat>, held: seq<Item>, w: nat, item: Item)
    requires Below(list, |held|) && w < |held| && w !in list
    ensures Items(list, held[w := item]) == Items(list, held)
    decreases |list|
  {
    if list != [] {
      ItemsElsewhere(list[..|list| - 1], held, w, item);
    }
  }

  // ------------------------------------------------------------------------ states

  /** The lists of wrappers, where each wrapper is, what it stands for, and what has
      happened on each work queue. */
  datatype State = State(free: seq<nat>, work: PerQueue<seq<nat>>, place: seq<Place>, held: seq<Item>,
                         events: PerQueue<seq<Event>>)
  {
    /** A work queue holds its wrappers and stands for what its history has left pending. */
    ghost predicate Tracks(q: QueueId) {
      && At(work.Of(q), place, On(q)) && Below(work.Of(q), |held|)
      && Items(work.Of(q), held) == Run(events.Of(q)).pending
    }

    /** Every wrapper is in exactly one place, and every queue tracks its history. */
    ghost predicate Good() {
      && |place| == |held|
      && At(free, place, OnFree)
      && (forall q: QueueId :: Tracks(q))
    }

    ghost predicate Holding(w: nat) {
      w < |place| && place[w] == InHand
    }
  }

  /** The first free wrapper is taken in hand. */
  ghost function Taken(s: State): State
    requires s.Good() && s.free != []
  {
    s.(free := s.free[1..], place := s.place[s.free[0] := InHand])
  }

  ghost function Returned(s: State, w: nat): State
    requires s.Good() && s.Holding(w)
  {
    s.(free := s.free + [w], place := s.place[w := OnFree])
  }

  /** A wrapper in hand gets a new message. */
  ghost function Filled(s: State, w: nat, item: Item): State
    requires s.Good() && s.Holding(w)
  {
    s.(held := s.held[w := item])
  }

  ghost function Enqueued(s: State, q: QueueId, w: nat, high: bool): State
    requires s.Good() && s.Holding(w)
  {
    s.(work := s.work.With(q, if high then [w] + s.work.Of(q) else s.work.Of(q) + [w]), place := s.place[w := On(q)],
       events := s.events.With(q, s.events.Of(q) + [Post(s.held[w].msg, high)]))
  }

  ghost function Dequeued(s: State, q: QueueId): State
    requires s.Good() && s.work.Of(q) != []
  {
    assert s.Tracks(q);
    s.(work := s.work.With(q, s.work.Of(q)[1..]), place := s.place[s.work.Of(q)[0] := InHand],
       events := s.events.With(q, s.events.Of(q) + [Deliver]))
  }

  /** After set-up: all n wrappers are free, in order, and nothing has happened. */
  ghost predicate Fresh(s: State, n: nat) {
    && |s.free| == |s.place| == |s.held| == n
    && (forall k :: 0 <= k < n ==> s.free[k] == k && s.place[k] == OnFree)
    && s.work == PerQueue([], [], [], []) && s.events == PerQueue([], [], [], [])
  }

  lemma FreshIsGood(s: State, n: nat)
    requires Fresh(s, n)
    ensures s.Good()
  {
    forall w | 0 <= w < n ensures w in s.free {
      assert s.free[w] == w;
    }
    forall q: QueueId ensures s.Tracks(q) {
      assert s.work.Of(q) == [] && s.events.Of(q) == [];
    }
  }

  lemma TakenIsGood(s: State)
    requires s.Good() && s.free != []
    ensures Taken(s).Good() && Taken(s).Holding(s.free[0])
  {
    var (w, t) := (s.free[0], Taken(s));
    assert s.free == [w] + s.free[1..];
    Leaves(s.free[1..], s.place, OnFree, w, InHand);
    forall q: QueueId ensures t.Tracks(q) {
      assert s.Tracks(q);
      Stays(s.work.Of(q), s.place, On(q), w, InHand);
    }
  }

  lemma ReturnedIsGood(s: State, w: nat)
    requires s.Good() && s.Holding(w)
    ensures Returned(s, w).Good()
  {
    EntersBack(s.free, s.place, OnFree, w);
    forall q: QueueId ensures Returned(s, w).Tracks(q) {
      assert s.Tracks(q);
      Stays(s.work.Of(q), s.place, On(q), w, OnFree);
    }
  }

  /** A wrapper in hand is on no queue, so refilling it leaves every pending message. */
  lemma FilledIsGood(s: State, w: nat, item: Item)
    requires s.Good() && s.Holding(w)
    ensures Filled(s, w, item).Good() && Filled(s, w, item).Holding(w)
  {
    forall q: QueueId ensures Filled(s, w, item).Tracks(q) {
      assert s.Tracks(q);
      ItemsElsewhere(s.work.Of(q), s.held, w, item);
    }
  }

  lemma EnqueuedTracks(s: State, q: QueueId, w: nat, high: bool)
    requires s.Good() && s.Holding(w)
    requires s.held[w] == Item(s.held[w].msg, high, |Run(s.events.Of(q)).posted|)
    ensures Enqueued(s, q, w, high).Tracks(q)
  {
    assert s.Tracks(q);
    RunExtends(s.events.Of(q), Post(s.held[w].msg, high));
    if high {
      EntersFront(s.work.Of(q), s.place, On(q), w);
      ItemsFront(s.work.Of(q), s.held, w);
    } else {
      EntersBack(s.work.Of(q), s.place, On(q), w);
      ItemsBack(s.work.Of(q), s.held, w);
    }
  }

  lemma EnqueuedIsGood(s: State, q: QueueId, w: nat, high: bool)
    requires s.Good() && s.Holding(w)
    requires s.held[w] == Item(s.held[w].msg, high, |Run(s.events.Of(q)).posted|)
    ensures Enqueued(s, q, w, high).Good()
  {
    var t := Enqueued(s, q, w, high);
    Stays(s.free, s.place, OnFree, w, On(q));
    forall p: QueueId ensures t.Tracks(p) {
      assert s.Tracks(p);
      if p == q {
        EnqueuedTracks(s, q, w, high);
      } else {
        Stays(s.work.Of(p), s.place, On(p), w, On(q));
      }
    }
  }

  lemma HeadIsNext(s: State, q: QueueId)
    requires s.Good() && s.work.Of(q) != []
    ensures s.work.Of(q)[0] < |s.held| && Below(s.work.Of(q)[1..], |s.held|)
    ensures Run(s.events.Of(q)).pending == [s.held[s.work.Of(q)[0]]] + Items(s.work.Of(q)[1..], s.held)
  {
    assert s.Tracks(q);
    var rest := s.work.Of(q)[1..];
    assert s.work.Of(q) == [s.work.Of(q)[0]] + rest;
    forall i | 0 <= i < |rest| ensures rest[i] < |s.held| {
      assert s.work.Of(q)[i + 1] == rest[i];
    }
    ItemsFront(rest, s.held, s.work.Of(q)[0]);
  }

  lemma DequeuedTracks(s: State, q: QueueId)
    requires s.Good() && s.work.Of(q) != []
    ensures Dequeued(s, q).Tracks(q)
  {
    HeadIsNext(s, q);
    RunExtends(s.events.Of(q), Deliver);
    assert s.work.Of(q) == [s.work.Of(q)[0]] + s.work.Of(q)[1..];
    assert s.Tracks(q);
    Leaves(s.work.Of(q)[1..], s.place, On(q), s.work.Of(q)[0], InHand);
  }

  lemma DequeuedIsGood(s: State, q: QueueId)
    requires s.Good() && s.work.Of(q) != []
    ensures Dequeued(s, q).Good() && Dequeued(s, q).Holding(s.work.Of(q)[0])
    ensures Run(s.events.Of(q)).pending != [] && s.held[s.work.Of(q)[0]] == Run(s.events.Of(q)).pending[0]
  {
    assert s.Tracks(q);
    HeadIsNext(s, q);
    Stays(s.free, s.place, OnFree, s.work.Of(q)[0], InHand);
    forall p: QueueId ensures Dequeued(s, q).Tracks(p) {
      assert s.Tracks(p);
      if p == q {
        DequeuedTracks(s, q);
      } else {
        Stays(s.work.Of(p), s.place, On(p), s.work.Of(q)[0], InHand);
      }
    }
  }

  /** Conservation: a wrapper is free, or on one work queue, or in hand, and on a list only
      once. */
  lemma OnePlaceEach(s: State, w: nat)
    requires s.Good() && w < |s.place|
    ensures multiset(s.free)[w] == if s.place[w] == OnFree then 1 else 0
    ensures forall q: QueueId :: multiset(s.work.Of(q))[w] == if s.place[w] == On(q) then 1 else 0
  {
    OnceOrNever(s.free, s.place, OnFree, w);
    forall q: QueueId ensures multiset(s.work.Of(q))[w] == if s.place[w] == On(q) then 1 else 0 {
      assert s.Tracks(q);
      OnceOrNever(s.work.Of(q), s.place, On(q), w);
    }
  }

  lemma OnceOrNever(list: seq<nat>, place: seq<Place>, p: Place, w: nat)
    requires At(list, place, p) && w < |place|
    ensures multiset(list)[w] == if place[w] == p then 1 else 0
  {
    CountDistinct(list, w);
  }

  lemma {:induction false} CountDistinct(list: seq<nat>, w: nat)
    requires forall i, j :: 0 <= i < j < |list| ==> list[i] != list[j]
    ensures multiset(list)[w] == if w in list then 1 else 0
    decreases |list|
  {
    if list != [] {
      var n := |list| - 1;
      assert list == list[..n] + [list[n]];
      CountDistinct(list[..n], w);
    }
  }

  /** On every work queue high-priority messages wait before low-priority ones, newest first,
      and the low-priority messages still waiting are the last of those posted. */
  lemma QueueOrder(s: State, q: QueueId)
    requires s.Good()
    ensures Below(s.work.Of(q), |s.held|)
    ensures var pending := Items(s.work.Of(q), s.held);
            && Ordered(pending)
            && Lows(Run(s.events.Of(q)).posted) == Lows(Run(s.events.Of(q)).delivered) + Lows(pending)
  {
    assert s.Tracks(q);
    PendingIsOrdered(s.events.Of(q));
    LowsInPostingOrder(s.events.Of(q));
  }
}
