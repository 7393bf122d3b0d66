/** A bounded FIFO with readiness and capacity signals: what happens under its lock, and whom it tells afterwards. */
module Queues {
  import opened Results

  /**
   * S and W name the read and write signals a queue may be bound to. The history records everything ever accepted and
   * taken.
   */
  datatype Queue<T, S, W> = Queue(
    capacity: nat, items: seq<T>, closed: bool, readSignal: Option<S>, writeSignal: Option<W>,
    accepted: seq<T>, taken: seq<T>)
  {
    /** First in, first out, within capacity, and nothing lost. */
    ghost predicate Valid() {
      capacity > 0 && |items| <= capacity && accepted == taken + items
    }

    predicate Ready() {
      closed || items != []
    }

    predicate Room() {
      closed || |items| < capacity
    }
  }

  datatype Status = Success | Timeout | Empty | Closed

  /** Signals to be notified once the lock is released. */
  datatype Notes<S, W> = Notes(read: Option<S>, write: Option<W>)

  // ----- critical sections

  /** A push at the moment it stops waiting: there is room, the queue is closed, or its time is up. */
  function Push<T, S, W>(q: Queue<T, S, W>, x: T): (Status, Queue<T, S, W>, Notes<S, W>) {
    if !q.Room() then (Timeout, q, Notes(None, None))
    else if q.closed then (Closed, q, Notes(None, None))
    else (Success, q.(items := q.items + [x], accepted := q.accepted + [x]), Notes(q.readSignal, None))
  }

  /** A pop that does not wait, or has stopped waiting. */
  function Pop<T, S, W>(q: Queue<T, S, W>): (Status, Option<T>, Queue<T, S, W>, Notes<S, W>) {
    if q.items == [] then (if q.closed then Closed else Empty, None, q, Notes(None, None))
    else
      (Success, Some(q.items[0]), q.(items := q.items[1..], taken := q.taken + [q.items[0]]),
        Notes(None, q.writeSignal))
  }

  function SetReadSignal<T, S, W>(q: Queue<T, S, W>, signal: Option<S>): (Queue<T, S, W>, Notes<S, W>) {
    (q.(readSignal := signal), Notes(if q.Ready() then signal else None, None))
  }

  function SetWriteSignal<T, S, W>(q: Queue<T, S, W>, signal: Option<W>): (Queue<T, S, W>, Notes<S, W>) {
    (q.(writeSignal := signal), Notes(None, if q.Room() then signal else None))
  }

  function Close<T, S, W>(q: Queue<T, S, W>): (Queue<T, S, W>, Notes<S, W>) {
    (q.(closed := true), Notes(q.readSignal, q.writeSignal))
  }

  function Fresh<T, S, W>(capacity: nat): Queue<T, S, W> {
    Queue(capacity, [], false, None, None, [], [])
  }

  // ----- what each of them keeps and announces

  ghost predicate ReadyFor<T, S, W>(q: Queue<T, S, W>, s: S) {
    q.readSignal == Some(s) && q.Ready()
  }

  ghost predicate RoomFor<T, S, W>(q: Queue<T, S, W>, w: W) {
    q.writeSignal == Some(w) && q.Room()
  }

  /** Whoever is bound to a queue that became ready, or got room, is told. */
  ghost predicate Announced<T, S, W>(q: Queue<T, S, W>, after: Queue<T, S, W>, notes: Notes<S, W>) {
    && (after.Ready() && after.readSignal.Some? && !(q.Ready() && q.readSignal == after.readSignal) ==>
          notes.read == after.readSignal)
    && (after.Room() && after.writeSignal.Some? && !(q.Room() && q.writeSignal == after.writeSignal) ==>
          notes.write == after.writeSignal)
  }

  lemma PushKeeps<T, S, W>(q: Queue<T, S, W>, x: T)
    requires q.Valid()
    ensures var (status, after, notes) := Push(q, x);
            && after.Valid() && Announced(q, after, notes)
            && (status == Success <==> !q.closed && |q.items| < q.capacity)
            && (status == Timeout <==> !q.Room())
            && (status == Closed <==> q.closed)
            && (status == Success ==>
                  after.items == q.items + [x] && after == q.(items := after.items, accepted := after.accepted))
            && (status != Success ==> after == q)
            && after.taken == q.taken
  {
    assert q.accepted + [x] == q.taken + (q.items + [x]);
  }

  lemma PopKeeps<T, S, W>(q: Queue<T, S, W>)
    requires q.Valid()
    ensures var (status, item, after, notes) := Pop(q);
            && after.Valid() && Announced(q, after, notes)
            && (status == Success <==> q.items != [])
            && (status == Closed <==> q.items == [] && q.closed)
            && (status == Success ==>
                  item.Some? && q.items == [item.value] + after.items && after.taken == q.taken + [item.value])
            && (status != Success ==> item.None? && after == q)
            && after == q.(items := after.items, taken := after.taken)
  {
    if q.items != [] {
      assert q.items == [q.items[0]] + q.items[1..];
    }
  }

  lemma BindingKeeps<T, S, W>(q: Queue<T, S, W>, s: Option<S>, w: Option<W>)
    requires q.Valid()
    ensures var (after, notes) := SetReadSignal(q, s);
            after.Valid() && Announced(q, after, notes) && after.readSignal == s && after == q.(readSignal := s)
    ensures var (after, notes) := SetWriteSignal(q, w);
            after.Valid() && Announced(q, after, notes) && after.writeSignal == w && after == q.(writeSignal := w)
    ensures var (after, notes) := Close(q);
            after.Valid() && Announced(q, after, notes) && after.closed && after == q.(closed := true)
  {
  }

  /** Everything taken by popping until the queue says otherwise, with the final answer. */
  function DrainAll<T, S, W>(q: Queue<T, S, W>): (seq<T>, Status)
    decreases |q.items|
  {
    var (status, item, after, _) := Pop(q);
    if status != Success then ([], status)
    else
      var (rest, last) := DrainAll(after);
      ([item.value] + rest, last)
  }

  /**
   * Closing rejects new items and loses none: every accepted item can still be taken, in order, before Closed is
   * answered.
   */
  lemma {:induction false} ClosedQueueDrains<T, S, W>(q: Queue<T, S, W>, x: T)
    requires q.Valid()
    ensures var closed := Close(q).0;
            && Push(closed, x).0 == Closed && Push(closed, x).1 == closed
            && DrainAll(closed) == (q.items, Closed)
            && q.taken + DrainAll(closed).0 == q.accepted
  {
    DrainsAsQueued(Close(q).0);
  }

  lemma {:induction false} DrainsAsQueued<T, S, W>(q: Queue<T, S, W>)
    ensures DrainAll(q) == (q.items, if q.closed then Closed else Empty)
    decreases |q.items|
  {
    if q.items != [] {
      DrainsAsQueued(Pop(q).2);
      assert q.items == [q.items[0]] + q.items[1..];
    }
  }

  /** A push that answers Success adds its item, behind everything else, to what can still be taken. */
  lemma SuccessfulPushArrives<T, S, W>(q: Queue<T, S, W>, x: T)
    requires q.Valid() && Push(q, x).0 == Success
    ensures DrainAll(Push(q, x).1).0 == DrainAll(q).0 + [x]
  {
    PushKeeps(q, x);
    DrainsAsQueued(q);
    DrainsAsQueued(Push(q, x).1);
  }

  // ----- the objects

  class WaitSignal {
    var revision: nat

    constructor ()
      ensures revision == 0
    {
      revision := 0;
    }

    method Notify()
      modifies this
      ensures revision == old(revision) + 1
    {
      revision := revision + 1;
    }
  }

  class WriteSignal {
    const wake: Option<WaitSignal>
    var revision: nat

    constructor (wake: Option<WaitSignal>)
      ensures revision == 0 && this.wake == wake
    {
      this.wake, revision := wake, 0;
    }

    /** Counts the capacity event, then wakes the shared loop. */
    method Notify()
      modifies this, if wake.Some? then {wake.value} else {}
      ensures revision == old(revision) + 1
      ensures wake.Some? ==> wake.value.revision == old(wake.value.revision) + 1
    {
      revision := revision + 1;
      if wake.Some? {
        wake.value.Notify();
      }
    }
  }

  /** The queue itself. Every method ends with its lock released; the notes it returns are delivered by NotifyAll. */
  class BlockingQueue<T(0)> {
    const capacity: nat
    var items: seq<T>
    var closed: bool
    var readSignal: Option<WaitSignal>
    var writeSignal: Option<WriteSignal>
    ghost var accepted: seq<T>
    ghost var taken: seq<T>

    ghost function View(): Queue<T, WaitSignal, WriteSignal>
      reads this
    {
      Queue(capacity, items, closed, readSignal, writeSignal, accepted, taken)
    }

    constructor (capacity: nat)
      requires capacity > 0
      ensures View() == Fresh(capacity) && View().Valid()
    {
      this.capacity := capacity;
      items, closed, readSignal, writeSignal, accepted, taken := [], false, None, None, [], [];
    }

    method PushLocked(x: T) returns (status: Status, notes: Notes<WaitSignal, WriteSignal>)
      requires View().Valid()
      modifies this
      ensures (status, View(), notes) == Push(old(View()), x) && View().Valid()
      ensures status == Success ==> DrainAll(View()).0 == DrainAll(old(View())).0 + [x]
      ensures status != Success ==> View() == old(View())
    {
      PushKeeps(View(), x);
      if Push(View(), x).0 == Success {
        SuccessfulPushArrives(View(), x);
      }
      if !closed && |items| >= capacity {
        return Timeout, Notes(None, None);
      }
      if closed {
        return Closed, Notes(None, None);
      }
      items := items + [x];
      accepted := accepted + [x];
      return Success, Notes(readSignal, None);
    }

    method PopLocked() returns (status: Status, item: Option<T>, notes: Notes<WaitSignal, WriteSignal>)
      requires View().Valid()
      modifies this
      ensures (status, item, View(), notes) == Pop(old(View())) && View().Valid()
      ensures status == Success ==> item.Some? && old(items) == [item.value] + items
      ensures status != Success ==> old(items) == [] && View() == old(View())
    {
      PopKeeps(View());
      if items == [] {
        return if closed then Closed else Empty, None, Notes(None, None);
      }
      item := Some(items[0]);
      items := items[1..];
      taken := taken + [item.value];
      return Success, item, Notes(None, writeSignal);
    }

    method SetReadSignalLocked(signal: Option<WaitSignal>) returns (notes: Notes<WaitSignal, WriteSignal>)
      requires View().Valid()
      modifies this
      ensures (View(), notes) == SetReadSignal(old(View()), signal) && View().Valid()
    {
      readSignal := signal;
      return Notes(if closed || items != [] then signal else None, None);
    }

    method SetWriteSignalLocked(signal: Option<WriteSignal>) returns (notes: Notes<WaitSignal, WriteSignal>)
      requires View().Valid()
      modifies this
      ensures (View(), notes) == SetWriteSignal(old(View()), signal) && View().Valid()
    {
      writeSignal := signal;
      return Notes(None, if closed || |items| < capacity then signal else None);
    }

    method CloseLocked() returns (notes: Notes<WaitSignal, WriteSignal>)
      requires View().Valid()
      modifies this
      ensures (View(), notes) == Close(old(View())) && View().Valid()
    {
      closed := true;
      return Notes(readSignal, writeSignal);
    }
  }

  /** What follows the release of the lock: the readiness signal first, then the capacity signal. */
  method NotifyAll(notes: Notes<WaitSignal, WriteSignal>)
    modifies if notes.read.Some? then {notes.read.value} else {},
             if notes.write.Some? then {notes.write.value} else {},
             if notes.write.Some? && notes.write.value.wake.Some? then {notes.write.value.wake.value} else {}
    ensures notes.read.Some? ==> notes.read.value.revision > old(notes.read.value.revision)
    ensures notes.write.Some? ==> notes.write.value.revision == old(notes.write.value.revision) + 1
    ensures notes.write.Some? && notes.write.value.wake.Some? ==>
      notes.write.value.wake.value.revision > old(notes.write.value.wake.value.revision)
  {
    if notes.read.Some? {
      notes.read.value.Notify();
    }
    if notes.write.Some? {
      notes.write.value.Notify();
    }
  }
}
