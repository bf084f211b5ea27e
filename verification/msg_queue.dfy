/** The message queues and the pool of wrappers that circulate between the free queue, four
    work queues and the hands of whoever posts or processes a message. */
module MsgQueues {
  import opened Wrappers
  import opened MsgOrder
  import opened MsgPoolSpec

  datatype Status = Success | Failure | NoResources

  // ---------------------------------------------------------------------- a queue

  /** A list of wrappers. */
  class Queue {
    var items: seq<nat>

    constructor ()
      ensures items == []
    {
      items := [];
    }

    method Put(w: nat)
      modifies this
      ensures items == old(items) + [w]
    {
      items := items + [w];
    }

    method PutFront(w: nat)
      modifies this
      ensures items == [w] + old(items)
    {
      items := [w] + items;
    }

    method Get() returns (w: Option<nat>)
      modifies this
      ensures old(items) == [] ==> w == None && items == []
      ensures old(items) != [] ==> w.Some? && old(items) == [w.value] + items
    {
      if items == [] {
        return None;
      }
      w := Some(items[0]);
      items := items[1..];
    }

    predicate IsEmpty()
      reads this
    {
      items == []
    }
  }

  // ----------------------------------------------------------------------- the pool

  class MsgPool {
    const count: nat                                // CDS_CORE_MAX_MESSAGES
    const free: Queue
    const sme: Queue
    const pe: Queue
    const wma: Queue
    const sys: Queue
    const bufferOf: array<nat>                      // which buffer a wrapper points to
    const buffers: array<Msg>
    ghost var place: seq<Place>
    ghost var held: seq<Item>
    ghost var events: PerQueue<seq<Event>>

    function QueueOf(q: QueueId): Queue {
      match q
      case Sme => sme
      case Pe => pe
      case Wma => wma
      case Sys => sys
    }

    ghost function View(): State
      reads this, free, sme, pe, wma, sys
    {
      State(free.items, PerQueue(sme.items, pe.items, wma.items, sys.items), place, held, events)
    }

    ghost predicate Distinct() {
      && free != sme && free != pe && free != wma && free != sys
      && sme != pe && sme != wma && sme != sys && pe != wma && pe != sys && wma != sys
    }

    /** Wrappers point to different buffers, which hold what the wrappers stand for. */
    ghost predicate Paired()
      reads this, bufferOf, buffers
    {
      && bufferOf.Length == buffers.Length == |held| == count
      && (forall w :: 0 <= w < count ==> bufferOf[w] < count && buffers[bufferOf[w]] == held[w].msg)
      && (forall v, w :: 0 <= v < w < count ==> bufferOf[v] != bufferOf[w])
    }

    ghost predicate Valid()
      reads this, free, sme, pe, wma, sys, bufferOf, buffers
    {
      Distinct() && Paired() && View().Good()
    }

    /** Pool set-up: wrapper i points to buffer i, and all are free. */
    constructor (count: nat)
      ensures Valid() && this.count == count
      ensures Fresh(View(), count)
    {
      this.count := count;
      free := new Queue();
      sme := new Queue();
      pe := new Queue();
      wma := new Queue();
      sys := new Queue();
      bufferOf := new nat[count](_ => 0);
      buffers := new Msg[count](_ => Msg(0, 0));
      place := seq(count, _ => OnFree);
      held := seq(count, _ => Item(Msg(0, 0), false, 0));
      events := PerQueue([], [], [], []);
      new;
      ghost var (place0, held0, events0) := (place, held, events);
      for i := 0 to count
        invariant Distinct() && place == place0 && held == held0 && events == events0
        invariant sme.items == pe.items == wma.items == sys.items == []
        invariant |free.items| == i && forall k :: 0 <= k < i ==> free.items[k] == k
        invariant forall w :: 0 <= w < i ==> bufferOf[w] == w
        invariant forall w :: 0 <= w < count ==> buffers[w] == Msg(0, 0)
      {
        bufferOf[i] := i;
        free.Put(i);
      }
      FreshIsGood(View(), count);
    }

    // ---------------------------------------------------------------- single moves

    method TakeFree() returns (w: Option<nat>)
      requires Valid()
      modifies this`place, free
      ensures Valid()
      ensures old(free.items) == [] ==> w == None && View() == old(View())
      ensures old(free.items) != [] ==>
                w == Some(old(free.items)[0]) && View() == Taken(old(View())) && View().Holding(w.value)
    {
      w := free.Get();
      if w.Some? {
        TakenIsGood(old(View()));
        place := place[w.value := InHand];
      }
    }

    /** Copies a message behind a wrapper in hand. */
    method Fill(w: nat, msg: Msg, ghost high: bool, ghost number: nat)
      requires Valid() && View().Holding(w)
      modifies this`held, buffers
      ensures Valid() && View() == Filled(old(View()), w, Item(msg, high, number))
    {
      FilledIsGood(View(), w, Item(msg, high, number));
      buffers[bufferOf[w]] := msg;
      held := held[w := Item(msg, high, number)];
    }

    /** Puts a wrapper in hand on a work queue. */
    method Enqueue(q: QueueId, w: nat, high: bool)
      requires Valid() && View().Holding(w)
      requires held[w] == Item(held[w].msg, high, |Run(View().events.Of(q)).posted|)
      modifies this`place, this`events, QueueOf(q)
      ensures Valid() && View() == Enqueued(old(View()), q, w, high)
    {
      EnqueuedIsGood(View(), q, w, high);
      if high {
        QueueOf(q).PutFront(w);
      } else {
        QueueOf(q).Put(w);
      }
      place := place[w := On(q)];
      events := events.With(q, events.Of(q) + [Post(held[w].msg, high)]);
    }

    /** Takes the first wrapper off a work queue. */
    method Dequeue(q: QueueId) returns (w: Option<nat>)
      requires Valid()
      modifies this`place, this`events, QueueOf(q)
      ensures Valid()
      ensures old(View().work.Of(q)) == [] ==> w == None && View() == old(View())
      ensures old(View().work.Of(q)) != [] ==>
                && w == Some(old(View().work.Of(q))[0]) && View() == Dequeued(old(View()), q)
                && View().Holding(w.value) && Run(old(View()).events.Of(q)).pending != []
                && held[w.value] == Run(old(View()).events.Of(q)).pending[0]
    {
      w := QueueOf(q).Get();
      if w.Some? {
        DequeuedIsGood(old(View()), q);
        place := place[w.value := InHand];
        events := events.With(q, events.Of(q) + [Deliver]);
      }
    }

    /** Gives a wrapper back to the free queue. */
    method ReturnMsg(w: nat)
      requires Valid() && View().Holding(w)
      modifies this`place, free
      ensures Valid() && View() == Returned(old(View()), w)
    {
      ReturnedIsGood(View(), w);
      free.Put(w);
      place := place[w := OnFree];
    }

    // ------------------------------------------------------------------ operations

    /** Posts a message; id is None when it names no work queue. */
    method PostMessage(id: Option<QueueId>, msg: Msg, high: bool) returns (status: Status)
      requires Valid()
      modifies this`place, this`held, this`events, free, sme, pe, wma, sys, buffers
      ensures Valid()
      ensures id == None ==> status == Failure
      ensures id.Some? && old(free.items) == [] ==> status == NoResources
      ensures status != Success ==> View() == old(View()) && buffers[..] == old(buffers[..])
      ensures id.Some? && old(free.items) != [] ==>
                && status == Success
                && View().free == old(free.items)[1..]
                && View().events
                   == old(View()).events.With(id.value, old(View()).events.Of(id.value) + [Post(msg, high)])
                && (forall w: nat :: old(View()).Holding(w) ==> View().Holding(w) && held[w] == old(held)[w])
    {
      if id == None {
        return Failure;
      }
      var w := TakeFree();
      if w == None {
        return NoResources;
      }
      assert !old(View()).Holding(w.value);
      Fill(w.value, msg, high, |Run(events.Of(id.value)).posted|);
      Enqueue(id.value, w.value, high);
      return Success;
    }

    /** Takes the next message to process: SYS before WMA before PE before SME. */
    method Next() returns (id: Option<QueueId>, w: nat)
      requires Valid()
      modifies this`place, this`events, sme, pe, wma, sys
      ensures Valid()
      ensures id == if old(sys.items) != [] then Some(Sys) else if old(wma.items) != [] then Some(Wma)
                    else if old(pe.items) != [] then Some(Pe) else if old(sme.items) != [] then Some(Sme) else None
      ensures id == None ==> View() == old(View())
      ensures id.Some? ==>
                && View() == Dequeued(old(View()), id.value) && View().Holding(w)
                && Run(old(View()).events.Of(id.value)).pending != []
                && held[w] == Run(old(View()).events.Of(id.value)).pending[0]
    {
      if !sys.IsEmpty() {
        id := Some(Sys);
      } else if !wma.IsEmpty() {
        id := Some(Wma);
      } else if !pe.IsEmpty() {
        id := Some(Pe);
      } else if !sme.IsEmpty() {
        id := Some(Sme);
      } else {
        return None, 0;
      }
      DequeuedIsGood(View(), id.value);
      var taken := Dequeue(id.value);
      w := taken.value;
    }

    /** Gives a wrapper back and takes the next one off the queue. */
    method ReturnAndTake(q: QueueId, w0: nat) returns (w: Option<nat>)
      requires Valid() && View().Holding(w0)
      modifies this`place, this`events, QueueOf(q), free
      ensures Valid() && free.items == old(free.items) + [w0]
      ensures View().work == old(View()).work.With(q, View().work.Of(q))
      ensures w == None ==> old(View()).work.Of(q) == [] == View().work.Of(q)
      ensures w.Some? ==> View().Holding(w.value) && old(View()).work.Of(q) == [w.value] + View().work.Of(q)
    {
      ReturnMsg(w0);
      w := Dequeue(q);
    }

    /** Gives back everything on one work queue. */
    method FlushQueue(q: QueueId)
      requires Valid()
      modifies this`place, this`events, QueueOf(q), free
      ensures Valid() && View().work == old(View()).work.With(q, [])
      ensures free.items == old(free.items) + old(View()).work.Of(q)
    {
      ghost var all := free.items + View().work.Of(q);
      var w := Dequeue(q);
      while w.Some?
        invariant Valid() && (if w.Some? then View().Holding(w.value) else View().work.Of(q) == [])
        invariant View().work == old(View()).work.With(q, View().work.Of(q))
        invariant all == free.items + if w.Some? then [w.value] + View().work.Of(q) else []
        decreases |View().work.Of(q)|, w.Some?
      {
        Regroup(free.items, [w.value], View().work.Of(q));
        w := ReturnAndTake(q, w.value);
      }
    }

    method Flush()
      requires Valid()
      modifies this`place, this`events, sme, pe, wma, sys, free
      ensures Valid() && View().work == PerQueue([], [], [], [])
      ensures free.items == old(free.items + sys.items + wma.items + pe.items + sme.items)
    {
      FlushQueue(Sys);
      FlushQueue(Wma);
      FlushQueue(Pe);
      FlushQueue(Sme);
    }
  }
}
