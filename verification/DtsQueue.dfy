/**
 * The ordering theory of the packet interleaver: sorted insertion, readiness, and what every run of pushes and pops
 * emits.
 */
module DtsQueue {
  import opened Results

  /**
   * A packet with its track number, its decoding instant in seconds, and that instant as the interleaver measures it in
   * microseconds.
   */
  datatype Item<P> = Item(packet: P, track: nat, dts: int, time: real, us: int)

  const MAX_SPAN_US := 10000000

  /** By instant, then by track order. */
  ghost predicate Less<P>(a: Item<P>, b: Item<P>) {
    a.time < b.time || (a.time == b.time && a.track < b.track)
  }

  ghost predicate Sorted<P>(s: seq<Item<P>>) {
    forall i, j :: 0 <= i < j < |s| ==> !Less(s[j], s[i])
  }

  datatype State<P> = State(queue: seq<Item<P>>, highest: seq<Option<int>>, initialized: bool, flushed: bool)

  /** The upper-bound position: behind everything that is not greater. */
  ghost function Position<P>(queue: seq<Item<P>>, x: Item<P>): (p: nat)
    ensures p <= |queue|
    ensures forall i :: 0 <= i < p ==> !Less(x, queue[i])
    ensures p < |queue| ==> Less(x, queue[p])
  {
    if queue == [] || Less(x, queue[0]) then 0 else 1 + Position(queue[1..], x)
  }

  ghost function Insert<P>(queue: seq<Item<P>>, x: Item<P>): seq<Item<P>> {
    var p := Position(queue, x);
    queue[..p] + [x] + queue[p..]
  }

  ghost function Push<P>(s: State<P>, x: Item<P>): Result<State<P>>
    requires x.track < |s.highest|
  {
    if s.flushed then Err(LogicError)
    else if s.highest[x.track].Some? && x.dts < s.highest[x.track].value then Err(InvalidArgument)
    else Ok(s.(queue := Insert(s.queue, x), highest := s.highest[x.track := Some(x.dts)]))
  }

  ghost predicate Queued<P>(queue: seq<Item<P>>, track: nat) {
    exists i :: 0 <= i < |queue| && queue[i].track == track
  }

  ghost predicate AllTracksBuffered<P>(queue: seq<Item<P>>, tracks: nat) {
    forall t :: 0 <= t < tracks ==> Queued(queue, t)
  }

  predicate ExceedsDelta<P>(queue: seq<Item<P>>) {
    |queue| >= 2 && queue[|queue| - 1].us - queue[0].us > MAX_SPAN_US
  }

  ghost predicate AllTracksSeen<P>(s: State<P>) {
    forall t :: 0 <= t < |s.highest| ==> s.highest[t].Some?
  }

  /** How many front packets one pop loop takes. */
  ghost function Taken<P>(queue: seq<Item<P>>, tracks: nat, flush: bool): (n: nat)
    ensures n <= |queue|
    ensures flush ==> n == |queue|
    ensures n < |queue| ==> !AllTracksBuffered(queue[n..], tracks) && !ExceedsDelta(queue[n..])
  {
    if queue == [] || !(flush || AllTracksBuffered(queue, tracks) || ExceedsDelta(queue)) then 0
    else
      var n := 1 + Taken(queue[1..], tracks, flush);
      assert queue[n..] == queue[1..][n - 1..];
      n
  }

  lemma TakenUnfolds<P>(queue: seq<Item<P>>, tracks: nat, flush: bool)
    ensures Taken(queue, tracks, flush) ==
      if queue == [] || !(flush || AllTracksBuffered(queue, tracks) || ExceedsDelta(queue)) then 0
      else 1 + Taken(queue[1..], tracks, flush)
  {
  }

  /** The packets handed out and the state left; starting up for too long without every track is an error. */
  ghost function PopReady<P>(s: State<P>, flush: bool): Result<(State<P>, seq<Item<P>>)> {
    if !flush && !s.initialized && !AllTracksSeen(s) && ExceedsDelta(s.queue) then Err(RuntimeError)
    else
      var initialized := s.initialized || flush || AllTracksSeen(s);
      var n := if initialized then Taken(s.queue, |s.highest|, flush) else 0;
      Ok((State(s.queue[n..], s.highest, initialized, s.flushed || flush), s.queue[..n]))
  }

  // ----- insertion

  lemma {:induction false} PositionSplits<P>(queue: seq<Item<P>>, x: Item<P>, i: nat)
    requires Sorted(queue) && i < |queue|
    ensures i < Position(queue, x) <==> !Less(x, queue[i])
  {
  }

  lemma InsertKeepsSorted<P>(queue: seq<Item<P>>, x: Item<P>)
    requires Sorted(queue)
    ensures Sorted(Insert(queue, x))
  {
    forall i: nat | i < |queue|
      ensures i < Position(queue, x) <==> !Less(x, queue[i])
    {
      PositionSplits(queue, x, i);
    }
  }

  lemma SortedTail<P>(queue: seq<Item<P>>)
    requires Sorted(queue) && queue != []
    ensures Sorted(queue[1..])
  {
  }

  // ----- packets of one track

  ghost function OfTrack<P>(items: seq<Item<P>>, track: nat): seq<Item<P>> {
    if items == [] then []
    else (if items[0].track == track then [items[0]] else []) + OfTrack(items[1..], track)
  }

  lemma {:induction false} OfTrackConcat<P>(a: seq<Item<P>>, b: seq<Item<P>>, track: nat)
    ensures OfTrack(a + b, track) == OfTrack(a, track) + OfTrack(b, track)
    decreases a
  {
    if a == [] {
      assert a + b == b;
    } else {
      assert (a + b)[0] == a[0] && (a + b)[1..] == a[1..] + b;
      OfTrackConcat(a[1..], b, track);
      var first := if a[0].track == track then [a[0]] else [];
      assert first + (OfTrack(a[1..], track) + OfTrack(b, track)) ==
        (first + OfTrack(a[1..], track)) + OfTrack(b, track);
    }
  }

  lemma {:induction false} OfTrackMember<P>(items: seq<Item<P>>, x: Item<P>)
    ensures x in items <==> x in OfTrack(items, x.track)
    decreases items
  {
    if items != [] {
      OfTrackMember(items[1..], x);
    }
  }

  lemma {:induction false} OfTrackOnly<P>(items: seq<Item<P>>, track: nat, x: Item<P>)
    requires x in OfTrack(items, track)
    ensures x.track == track && x in items
    decreases items
  {
    if items[0].track != track || x != items[0] {
      OfTrackOnly(items[1..], track, x);
    }
  }

  lemma {:induction false} NoneOfTrack<P>(items: seq<Item<P>>, track: nat)
    requires forall i :: 0 <= i < |items| ==> items[i].track != track
    ensures OfTrack(items, track) == []
    decreases items
  {
    if items != [] {
      NoneOfTrack(items[1..], track);
    }
  }

  /** An insertion appends to its own track and leaves the others alone, provided nothing of its track is later. */
  lemma InsertAppendsToTrack<P>(queue: seq<Item<P>>, x: Item<P>, track: nat)
    requires Sorted(queue)
    requires forall i :: 0 <= i < |queue| && queue[i].track == x.track ==> !Less(x, queue[i])
    ensures OfTrack(Insert(queue, x), track) == OfTrack(queue, track) + if x.track == track then [x] else []
  {
    var p := Position(queue, x);
    assert queue == queue[..p] + queue[p..];
    OfTrackConcat(queue[..p], queue[p..], track);
    OfTrackConcat(queue[..p] + [x], queue[p..], track);
    OfTrackConcat(queue[..p], [x], track);
    assert [x][1..] == [];
    if x.track == track {
      forall i | 0 <= i < |queue[p..]|
        ensures queue[p..][i].track != track
      {
        PositionSplits(queue, x, p + i);
      }
      NoneOfTrack(queue[p..], track);
    }
  }

  // ----- one push, one pop

  lemma InsertAdds<P>(queue: seq<Item<P>>, x: Item<P>)
    ensures multiset(Insert(queue, x)) == multiset(queue) + multiset{x}
  {
    var p := Position(queue, x);
    assert queue == queue[..p] + queue[p..];
  }

  lemma PushAdds<P>(s: State<P>, x: Item<P>)
    requires x.track < |s.highest| && Push(s, x).Ok?
    ensures var after := Push(s, x).value;
            multiset(after.queue) == multiset(s.queue) + multiset{x} && |after.highest| == |s.highest|
  {
    InsertAdds(s.queue, x);
  }

  lemma PopSplits<P>(s: State<P>, flush: bool)
    requires PopReady(s, flush).Ok?
    ensures var (after, out) := PopReady(s, flush).value;
            && s.queue == out + after.queue
            && multiset(s.queue) == multiset(out) + multiset(after.queue)
            && (Sorted(s.queue) ==> Sorted(after.queue))
            && (flush ==> after.queue == [])
            && after.highest == s.highest
  {
    var (after, out) := PopReady(s, flush).value;
    assert s.queue == out + after.queue;
  }

  // ----- every run

  datatype Op<P> = Enter(item: Item<P>) | Leave(flush: bool)

  /**
   * A session with its history. `forced` and `strained` are said below; `origin` is what FirstPackets would have
   * answered just before the first pop that returned packets.
   */
  datatype Session<P> = Session(
    state: State<P>, pushed: seq<Item<P>>, emitted: seq<Item<P>>, forced: bool, strained: bool, failed: bool,
      origin: Option<seq<Item<P>>>)

  ghost function Start<P>(tracks: nat): Session<P> {
    Session(State([], seq(tracks, _ => None), false, false), [], [], false, false, false, None)
  }

  /** The first queued packet of each track that has one. */
  ghost function FirstPackets<P>(queue: seq<Item<P>>, tracks: nat): seq<Item<P>> {
    if tracks == 0 then []
    else
      FirstPackets(queue, tracks - 1)
      + if OfTrack(queue, tracks - 1) == [] then [] else [OfTrack(queue, tracks - 1)[0]]
  }

  /** A pop is forced when it takes packets past the point where every track was buffered. */
  ghost predicate Forced<P>(queue: seq<Item<P>>, tracks: nat, taken: nat)
    requires taken <= |queue|
  {
    exists i :: 0 <= i < taken && !AllTracksBuffered(queue[i..], tracks)
  }

  /** A pop is strained when it takes a packet while the queue measured more than the window. */
  ghost predicate Strained<P>(queue: seq<Item<P>>, taken: nat)
    requires taken <= |queue|
  {
    exists i :: 0 <= i < taken && ExceedsDelta(queue[i..])
  }

  ghost function Perform<P>(s: Session<P>, op: Op<P>): Session<P>
    requires op.Enter? ==> op.item.track < |s.state.highest|
  {
    if s.failed then s
    else
      match op
      case Enter(x) =>
        (match Push(s.state, x)
         case Err(_) => s.(failed := true)
         case Ok(after) => s.(state := after, pushed := s.pushed + [x]))
      case Leave(flush) =>
        match PopReady(s.state, flush)
        case Err(_) => s.(failed := true)
        case Ok((after, out)) =>
          s.(state := after,
             emitted := s.emitted + out,
             forced := s.forced || (!flush && Forced(s.state.queue, |s.state.highest|, |out|)),
             strained := s.strained || (!flush && Strained(s.state.queue, |out|)),
             origin := if s.origin.None? && out != [] then Some(FirstPackets(s.state.queue, |s.state.highest|))
               else s.origin)
  }

  /** Ticks of track t last `rates[t]` seconds. */
  ghost predicate Placed<P>(x: Item<P>, rates: seq<real>) {
    x.track < |rates| && rates[x.track] > 0.0 && x.time == x.dts as real * rates[x.track]
  }

  ghost predicate OpPlaced<P>(op: Op<P>, rates: seq<real>) {
    op.Enter? ==> Placed(op.item, rates)
  }

  ghost function Run<P>(rates: seq<real>, ops: seq<Op<P>>): (s: Session<P>)
    requires forall i :: 0 <= i < |ops| ==> OpPlaced(ops[i], rates)
    ensures |s.state.highest| == |rates|
  {
    if ops == [] then Start(|rates|)
    else
      assert OpPlaced(ops[|ops| - 1], rates);
      Perform(Run(rates, ops[..|ops| - 1]), ops[|ops| - 1])
  }

  /** DTS of one track never goes back, and `highest` is its last value. */
  ghost predicate TrackInOrder<P>(items: seq<Item<P>>, highest: Option<int>) {
    && (items == [] <==> highest.None?)
    && (items != [] ==> highest == Some(items[|items| - 1].dts))
    && (forall i, j :: 0 <= i < j < |items| ==> items[i].dts <= items[j].dts)
  }

  ghost predicate TracksInOrder<P>(s: Session<P>) {
    forall t :: 0 <= t < |s.state.highest| ==>
      && OfTrack(s.emitted, t) + OfTrack(s.state.queue, t) == OfTrack(s.pushed, t)
      && TrackInOrder(OfTrack(s.pushed, t), s.state.highest[t])
  }

  ghost predicate AllPlaced<P>(items: seq<Item<P>>, rates: seq<real>) {
    forall i :: 0 <= i < |items| ==> Placed(items[i], rates)
  }

  /** Conservation, order within tracks, and a sorted queue. */
  ghost predicate Conserving<P>(s: Session<P>, rates: seq<real>) {
    && |s.state.highest| == |rates|
    && AllPlaced(s.pushed, rates)
    && Sorted(s.state.queue)
    && TracksInOrder(s)
    && multiset(s.emitted) + multiset(s.state.queue) == multiset(s.pushed)
  }

  lemma QueuedWasPushed<P>(s: Session<P>, rates: seq<real>, x: Item<P>)
    requires Conserving(s, rates)
    requires x in s.state.queue || x in s.emitted
    ensures x in s.pushed && Placed(x, rates)
    ensures s.state.highest[x.track].Some? && x.dts <= s.state.highest[x.track].value
  {
    assert x in multiset(s.emitted) + multiset(s.state.queue);
    OfTrackMember(s.pushed, x);
    assert x in multiset(s.pushed);
    assert x in OfTrack(s.pushed, x.track);
  }

  lemma TimeFollowsDts(a: int, b: int, rate: real)
    requires rate > 0.0 && a <= b
    ensures a as real * rate <= b as real * rate
  {
  }

  lemma NotBeforeOwnTrack<P>(s: Session<P>, x: Item<P>, q: Item<P>, rates: seq<real>)
    requires Conserving(s, rates) && Placed(x, rates)
    requires q in s.state.queue && q.track == x.track
    requires s.state.highest[x.track].Some? ==> s.state.highest[x.track].value <= x.dts
    ensures !Less(x, q)
  {
    QueuedWasPushed(s, rates, q);
    TimeFollowsDts(q.dts, x.dts, rates[x.track]);
  }

  lemma PushKeepsTracksInOrder<P>(s: Session<P>, x: Item<P>)
    requires TracksInOrder(s) && Sorted(s.state.queue) && x.track < |s.state.highest|
    requires !s.failed && Push(s.state, x).Ok?
    requires forall i :: 0 <= i < |s.state.queue| && s.state.queue[i].track == x.track ==> !Less(x, s.state.queue[i])
    ensures TracksInOrder(Perform(s, Enter(x)))
  {
    hide Less, Insert, TrackInOrder;
    var after := Perform(s, Enter(x));
    forall t | 0 <= t < |s.state.highest|
      ensures OfTrack(after.emitted, t) + OfTrack(after.state.queue, t) == OfTrack(after.pushed, t)
      ensures TrackInOrder(OfTrack(after.pushed, t), after.state.highest[t])
    {
      InsertAppendsToTrack(s.state.queue, x, t);
      OfTrackConcat(s.pushed, [x], t);
      assert [x][1..] == [];
      OrderSnoc(OfTrack(s.pushed, t), s.state.highest[t], x);
      assert after.pushed == s.pushed + [x];
      assert OfTrack([x], t) == if x.track == t then [x] else [];
    }
  }

  lemma OrderSnoc<P>(own: seq<Item<P>>, highest: Option<int>, x: Item<P>)
    requires TrackInOrder(own, highest)
    ensures highest.None? || highest.value <= x.dts ==> TrackInOrder(own + [x], Some(x.dts))
    ensures own + [] == own
  {
  }

  lemma FailureConserves<P>(s: Session<P>, rates: seq<real>)
    requires Conserving(s, rates)
    ensures Conserving(s.(failed := true), rates)
  {
    hide Sorted, TrackInOrder;
  }

  lemma PushConserves<P>(s: Session<P>, x: Item<P>, rates: seq<real>)
    requires Conserving(s, rates) && Placed(x, rates)
    ensures Conserving(Perform(s, Enter(x)), rates)
  {
    hide Insert, Sorted, TracksInOrder, Less, Position;
    FailureConserves(s, rates);
    if !s.failed && Push(s.state, x).Ok? {
      forall i | 0 <= i < |s.state.queue| && s.state.queue[i].track == x.track
        ensures !Less(x, s.state.queue[i])
      {
        NotBeforeOwnTrack(s, x, s.state.queue[i], rates);
      }
      InsertKeepsSorted(s.state.queue, x);
      InsertAdds(s.state.queue, x);
      PushKeepsTracksInOrder(s, x);
    }
  }

  lemma MoveOfTrack<P>(emitted: seq<Item<P>>, out: seq<Item<P>>, rest: seq<Item<P>>, t: nat)
    ensures OfTrack(emitted + out, t) + OfTrack(rest, t) == OfTrack(emitted, t) + OfTrack(out + rest, t)
  {
    OfTrackConcat(emitted, out, t);
    OfTrackConcat(out, rest, t);
  }

  lemma PopKeepsTracksInOrder<P>(s: Session<P>, flush: bool)
    requires TracksInOrder(s)
    ensures TracksInOrder(Perform(s, Leave(flush)))
  {
    if !s.failed && PopReady(s.state, flush).Ok? {
      var (after, out) := PopReady(s.state, flush).value;
      PopSplits(s.state, flush);
      forall t | 0 <= t < |s.state.highest|
        ensures OfTrack(s.emitted + out, t) + OfTrack(after.queue, t) == OfTrack(s.pushed, t)
      {
        MoveOfTrack(s.emitted, out, after.queue, t);
      }
    }
  }

  lemma PopConserves<P>(s: Session<P>, flush: bool, rates: seq<real>)
    requires Conserving(s, rates)
    ensures Conserving(Perform(s, Leave(flush)), rates)
  {
    PopKeepsTracksInOrder(s, flush);
    if !s.failed && PopReady(s.state, flush).Ok? {
      PopSplits(s.state, flush);
    }
  }

  /** Over every run: nothing is lost or duplicated, each track leaves in push order, and the queue stays sorted. */
  lemma {:induction false} EveryRunConserves<P>(rates: seq<real>, ops: seq<Op<P>>)
    requires forall i :: 0 <= i < |ops| ==> OpPlaced(ops[i], rates)
    ensures Conserving(Run(rates, ops), rates)
    decreases |ops|
  {
    if ops != [] {
      var before := ops[..|ops| - 1];
      var last := ops[|ops| - 1];
      EveryRunConserves(rates, before);
      if last.Enter? {
        PushConserves(Run(rates, before), last.item, rates);
      } else {
        PopConserves(Run(rates, before), last.flush, rates);
      }
    }
  }

  // ----- global order

  /** No packet of track t at or after DTS `dts` sorts before e. */
  ghost predicate Bounded<P>(e: Item<P>, t: nat, dts: int, rates: seq<real>)
    requires t < |rates|
  {
    var time := dts as real * rates[t];
    e.time < time || (e.time == time && e.track <= t)
  }

  ghost predicate EmittedBeforeFuture<P>(s: Session<P>, rates: seq<real>)
    requires |s.state.highest| == |rates|
  {
    forall i, t :: 0 <= i < |s.emitted| && 0 <= t < |rates| ==>
      s.state.highest[t].Some? && Bounded(s.emitted[i], t, s.state.highest[t].value, rates)
  }

  ghost predicate EmittedBeforeQueued<P>(s: Session<P>) {
    forall i, j :: 0 <= i < |s.emitted| && 0 <= j < |s.state.queue| ==> !Less(s.state.queue[j], s.emitted[i])
  }

  ghost predicate Ordered<P>(s: Session<P>, rates: seq<real>)
    requires |s.state.highest| == |rates|
  {
    && Sorted(s.emitted)
    && EmittedBeforeQueued(s)
    && (!s.state.flushed ==> EmittedBeforeFuture(s, rates))
  }

  lemma BoundedNotLess<P>(e: Item<P>, x: Item<P>, dts: int, rates: seq<real>)
    requires Placed(x, rates) && dts <= x.dts
    requires Bounded(e, x.track, dts, rates)
    ensures !Less(x, e) && Bounded(e, x.track, x.dts, rates)
  {
    TimeFollowsDts(dts, x.dts, rates[x.track]);
  }

  lemma InsertMembers<P>(queue: seq<Item<P>>, x: Item<P>, j: nat)
    requires j < |Insert(queue, x)|
    ensures Insert(queue, x)[j] == x || exists k :: 0 <= k < |queue| && queue[k] == Insert(queue, x)[j]
  {
    var p := Position(queue, x);
    if j < p {
      assert Insert(queue, x)[j] == queue[j];
    } else if j > p {
      assert Insert(queue, x)[j] == queue[j - 1];
    }
  }

  lemma PushKeepsOrdered<P>(s: Session<P>, x: Item<P>, rates: seq<real>)
    requires Conserving(s, rates) && Ordered(s, rates) && Placed(x, rates)
    requires !s.failed && Push(s.state, x).Ok?
    ensures Ordered(Perform(s, Enter(x)), rates)
  {
    var after := Perform(s, Enter(x));
    forall i | 0 <= i < |s.emitted|
      ensures !Less(x, s.emitted[i]) && Bounded(s.emitted[i], x.track, x.dts, rates)
    {
      BoundedNotLess(s.emitted[i], x, s.state.highest[x.track].value, rates);
    }
    forall i, j | 0 <= i < |s.emitted| && 0 <= j < |after.state.queue|
      ensures !Less(after.state.queue[j], s.emitted[i])
    {
      InsertMembers(s.state.queue, x, j);
    }
  }

  lemma BoundedThrough<P>(e: Item<P>, q: Item<P>, dts: int, rates: seq<real>)
    requires Placed(q, rates) && q.dts <= dts && !Less(q, e)
    ensures Bounded(e, q.track, dts, rates)
  {
    TimeFollowsDts(q.dts, dts, rates[q.track]);
  }

  /** A packet popped while every track was buffered precedes whatever any track may still bring. */
  lemma PoppedBeforeFuture<P>(s: Session<P>, i: nat, t: nat, rates: seq<real>)
    requires Conserving(s, rates) && i < |s.state.queue| && t < |rates|
    requires AllTracksBuffered(s.state.queue[i..], |rates|)
    ensures s.state.highest[t].Some? && Bounded(s.state.queue[i], t, s.state.highest[t].value, rates)
  {
    assert Queued(s.state.queue[i..], t);
    var k :| 0 <= k < |s.state.queue[i..]| && s.state.queue[i..][k].track == t;
    var q := s.state.queue[i + k];
    QueuedWasPushed(s, rates, q);
    BoundedThrough(s.state.queue[i], q, s.state.highest[t].value, rates);
  }

  /** A packet leaves a queue only if that is flushed, buffers every track, or measures more than the window. */
  lemma {:induction false} TakenOnlyByRule<P>(queue: seq<Item<P>>, tracks: nat, flush: bool, k: nat)
    requires k < Taken(queue, tracks, flush)
    ensures flush || AllTracksBuffered(queue[k..], tracks) || ExceedsDelta(queue[k..])
    decreases k
  {
    if k == 0 {
      assert queue[0..] == queue;
    } else {
      TakenOnlyByRule(queue[1..], tracks, flush, k - 1);
      assert queue[1..][k - 1..] == queue[k..];
    }
  }

  lemma ForcedIsStrained<P>(s: State<P>)
    requires PopReady(s, false).Ok?
    ensures Forced(s.queue, |s.highest|, |PopReady(s, false).value.1|) ==>
              Strained(s.queue, |PopReady(s, false).value.1|)
  {
    var n := |PopReady(s, false).value.1|;
    if i :| 0 <= i < n && !AllTracksBuffered(s.queue[i..], |s.highest|) {
      TakenOnlyByRule(s.queue, |s.highest|, false, i);
    }
  }

  lemma UnforcedPop<P>(s: Session<P>, k: nat)
    requires !s.failed && PopReady(s.state, false).Ok?
    requires !Perform(s, Leave(false)).forced
    requires k < |PopReady(s.state, false).value.1|
    ensures k < |s.state.queue| && AllTracksBuffered(s.state.queue[k..], |s.state.highest|)
    ensures PopReady(s.state, false).value.1[k] == s.state.queue[k]
  {
    assert !Forced(s.state.queue, |s.state.highest|, |PopReady(s.state, false).value.1|);
  }

  lemma PopKeepsEmittedBeforeFuture<P>(s: Session<P>, rates: seq<real>)
    requires Conserving(s, rates) && EmittedBeforeFuture(s, rates)
    requires !s.failed && PopReady(s.state, false).Ok?
    requires !Perform(s, Leave(false)).forced
    ensures EmittedBeforeFuture(Perform(s, Leave(false)), rates)
  {
    var (rest, out) := PopReady(s.state, false).value;
    forall k, t | 0 <= k < |out| && 0 <= t < |rates|
      ensures s.state.highest[t].Some? && Bounded(out[k], t, s.state.highest[t].value, rates)
    {
      UnforcedPop(s, k);
      PoppedBeforeFuture(s, k, t, rates);
    }
  }

  lemma EmissionStaysSorted<P>(emitted: seq<Item<P>>, out: seq<Item<P>>, rest: seq<Item<P>>)
    requires Sorted(emitted) && Sorted(out + rest)
    requires forall i, j :: 0 <= i < |emitted| && 0 <= j < |out + rest| ==> !Less((out + rest)[j], emitted[i])
    ensures Sorted(emitted + out)
    ensures forall i, j :: 0 <= i < |emitted + out| && 0 <= j < |rest| ==> !Less(rest[j], (emitted + out)[i])
  {
    forall j | 0 <= j < |rest|
      ensures (out + rest)[|out| + j] == rest[j]
    {
    }
    forall i | 0 <= i < |out|
      ensures (out + rest)[i] == out[i]
    {
    }
  }

  lemma PopKeepsOrdered<P>(s: Session<P>, flush: bool, rates: seq<real>)
    requires Conserving(s, rates) && Ordered(s, rates)
    requires !s.failed && PopReady(s.state, flush).Ok?
    requires !Perform(s, Leave(flush)).forced
    ensures Ordered(Perform(s, Leave(flush)), rates)
  {
    var (after, out) := PopReady(s.state, flush).value;
    PopSplits(s.state, flush);
    EmissionStaysSorted(s.emitted, out, after.queue);
    if !after.flushed {
      PopKeepsEmittedBeforeFuture(s, rates);
    }
  }

  /**
   * If no pop took packets past full buffering, everything emitted over the whole run, the final flush included, is in
   * global order. A run that did has met a queue measuring more than ten seconds, so without one the order is global.
   */
  lemma {:induction false} UnforcedRunIsSorted<P>(rates: seq<real>, ops: seq<Op<P>>)
    requires forall i :: 0 <= i < |ops| ==> OpPlaced(ops[i], rates)
    ensures !Run(rates, ops).forced ==> Ordered(Run(rates, ops), rates) && Sorted(Run(rates, ops).emitted)
    ensures Run(rates, ops).forced ==> Run(rates, ops).strained
    ensures !Run(rates, ops).strained ==> Sorted(Run(rates, ops).emitted)
    decreases |ops|
  {
    if ops != [] {
      var before := ops[..|ops| - 1];
      var last := ops[|ops| - 1];
      var s := Run(rates, before);
      UnforcedRunIsSorted(rates, before);
      EveryRunConserves(rates, before);
      if last.Leave? && !last.flush && PopReady(s.state, false).Ok? {
        ForcedIsStrained(s.state);
      }
      if !Run(rates, ops).forced && !s.failed {
        assert OpPlaced(last, rates);
        if last.Enter? {
          if Push(s.state, last.item).Ok? {
            PushKeepsOrdered(s, last.item, rates);
          }
        } else if PopReady(s.state, last.flush).Ok? {
          PopKeepsOrdered(s, last.flush, rates);
        }
      }
    }
  }

  // ----- what stays queued

  /**
   * After any pop that returns normally the measured window is kept: the ends of the queue measure at most ten seconds
   * apart, and so do any two packets that measure between them. Past startup some track has nothing queued.
   */
  lemma QueueStaysWithinWindow<P>(s: State<P>, flush: bool)
    requires PopReady(s, flush).Ok? && |s.highest| > 0
    ensures var after := PopReady(s, flush).value.0;
            var queue := after.queue;
            && (queue != [] ==> queue[|queue| - 1].us - queue[0].us <= MAX_SPAN_US)
            && (forall i, j :: 0 <= i < |queue| && 0 <= j < |queue| ==>
                  queue[0].us <= queue[i].us && queue[j].us <= queue[|queue| - 1].us ==>
                  queue[j].us - queue[i].us <= MAX_SPAN_US)
            && (after.initialized ==> !AllTracksBuffered(queue, |s.highest|))
            && (!after.initialized ==> !AllTracksSeen(s))
  {
    PopLeavesWindow(s, flush);
    hide PopReady, AllTracksBuffered;
  }

  lemma PopLeavesWindow<P>(s: State<P>, flush: bool)
    requires PopReady(s, flush).Ok? && |s.highest| > 0
    ensures var (after, out) := PopReady(s, flush).value;
            && s.queue == out + after.queue
            && !ExceedsDelta(after.queue)
            && (after.initialized ==> !AllTracksBuffered(after.queue, |s.highest|))
            && (!after.initialized ==> !AllTracksSeen(s))
  {
    var (after, out) := PopReady(s, flush).value;
    if after.queue == [] {
      assert !Queued(after.queue, 0);
    }
  }

  // ----- the packets a common time shift is derived from

  lemma {:induction false} FirstPacketsCover<P>(queue: seq<Item<P>>, tracks: nat, t: nat)
    requires t < tracks && OfTrack(queue, t) != []
    ensures OfTrack(queue, t)[0] in FirstPackets(queue, tracks)
  {
    if t < tracks - 1 {
      FirstPacketsCover(queue, tracks - 1, t);
    }
  }

  /** The captured origin holds the first packet ever pushed on each track. */
  ghost predicate OriginCovers<P>(s: Session<P>) {
    && (s.state.initialized && !s.state.flushed ==> AllTracksSeen(s.state))
    && (s.state.flushed ==> s.state.initialized && s.state.queue == [])
    && (s.origin.None? ==> s.emitted == [])
    && (s.origin.Some? ==>
          forall t :: 0 <= t < |s.state.highest| ==>
            if OfTrack(s.pushed, t) == [] then s.state.flushed else OfTrack(s.pushed, t)[0] in s.origin.value)
  }

  lemma PushKeepsOrigin<P>(s: Session<P>, x: Item<P>)
    requires OriginCovers(s) && !s.failed && x.track < |s.state.highest| && Push(s.state, x).Ok?
    ensures OriginCovers(Perform(s, Enter(x)))
  {
    forall t | 0 <= t < |s.state.highest|
      ensures OfTrack(s.pushed + [x], t) == OfTrack(s.pushed, t) + OfTrack([x], t)
    {
      OfTrackConcat(s.pushed, [x], t);
    }
  }

  lemma PopKeepsOrigin<P>(s: Session<P>, flush: bool)
    requires OriginCovers(s) && TracksInOrder(s) && !s.failed && PopReady(s.state, flush).Ok?
    ensures OriginCovers(Perform(s, Leave(flush)))
  {
    var (after, out) := PopReady(s.state, flush).value;
    if s.origin.None? && out != [] {
      forall t | 0 <= t < |s.state.highest| && OfTrack(s.pushed, t) != []
        ensures OfTrack(s.pushed, t)[0] in FirstPackets(s.state.queue, |s.state.highest|)
      {
        assert OfTrack(s.emitted, t) == [];
        FirstPacketsCover(s.state.queue, |s.state.highest|, t);
      }
    }
  }

  lemma {:induction false} EveryRunKeepsOrigin<P>(rates: seq<real>, ops: seq<Op<P>>)
    requires forall i :: 0 <= i < |ops| ==> OpPlaced(ops[i], rates)
    ensures OriginCovers(Run(rates, ops))
    decreases |ops|
  {
    if ops != [] {
      var before := ops[..|ops| - 1];
      var last := ops[|ops| - 1];
      var s := Run(rates, before);
      EveryRunKeepsOrigin(rates, before);
      EveryRunConserves(rates, before);
      if !s.failed {
        assert OpPlaced(last, rates);
        if last.Enter? {
          if Push(s.state, last.item).Ok? {
            PushKeepsOrigin(s, last.item);
          }
        } else if PopReady(s.state, last.flush).Ok? {
          PopKeepsOrigin(s, last.flush);
        }
      }
    }
  }

  /** Every packet a run ever emits is at or after an origin packet of its own track. */
  lemma EmittedAtOrAfterOrigin<P>(rates: seq<real>, ops: seq<Op<P>>, e: Item<P>)
    requires forall i :: 0 <= i < |ops| ==> OpPlaced(ops[i], rates)
    requires e in Run(rates, ops).emitted
    ensures var s := Run(rates, ops);
            s.origin.Some? && exists f :: f in s.origin.value && f in s.pushed && f.track == e.track && f.dts <= e.dts
  {
    var s := Run(rates, ops);
    EveryRunConserves(rates, ops);
    EveryRunKeepsOrigin(rates, ops);
    QueuedWasPushed(s, rates, e);
    OfTrackMember(s.pushed, e);
    var own := OfTrack(s.pushed, e.track);
    OfTrackOnly(s.pushed, e.track, own[0]);
    assert own[0] in s.origin.value;
  }

  // ----- what a pop or a push answers in any run

  /** The rule by which the front packet of a queue may leave. */
  ghost predicate Due<P>(queue: seq<Item<P>>, tracks: nat, flush: bool) {
    flush || AllTracksBuffered(queue, tracks) || ExceedsDelta(queue)
  }

  lemma BufferedWasSeen<P>(s: Session<P>, rates: seq<real>)
    requires Conserving(s, rates) && AllTracksBuffered(s.state.queue, |rates|)
    ensures AllTracksSeen(s.state)
  {
    forall t | 0 <= t < |rates|
      ensures s.state.highest[t].Some?
    {
      assert Queued(s.state.queue, t);
      var i :| 0 <= i < |s.state.queue| && s.state.queue[i].track == t;
      QueuedWasPushed(s, rates, s.state.queue[i]);
    }
  }

  /**
   * In every run a pop takes packets from the front exactly as long as the rule holds of what is queued. It fails
   * exactly when the queue measures more than the window while some track has never had a packet.
   */
  lemma EveryPopFollowsTheRule<P>(rates: seq<real>, ops: seq<Op<P>>, flush: bool)
    requires forall i :: 0 <= i < |ops| ==> OpPlaced(ops[i], rates)
    ensures var s := Run(rates, ops);
            match PopReady(s.state, flush)
            case Err(_) =>
              && !flush && ExceedsDelta(s.state.queue)
              && exists t :: 0 <= t < |rates| && OfTrack(s.pushed, t) == []
            case Ok((after, out)) =>
              && s.state.queue == out + after.queue
              && (forall k :: 0 <= k < |out| ==> Due(s.state.queue[k..], |rates|, flush))
              && (after.queue != [] ==> !Due(after.queue, |rates|, flush))
              && (flush || !ExceedsDelta(s.state.queue) || forall t :: 0 <= t < |rates| ==> OfTrack(s.pushed, t) != [])
  {
    hide Run, Position, Insert, Less, AllTracksBuffered;
    var s := Run(rates, ops);
    EveryRunConserves(rates, ops);
    EveryRunKeepsOrigin(rates, ops);
    match PopReady(s.state, flush)
    case Err(_) =>
    case Ok((after, out)) =>
      PopSplits(s.state, flush);
      forall k | 0 <= k < |out|
        ensures Due(s.state.queue[k..], |rates|, flush)
      {
        TakenOnlyByRule(s.state.queue, |rates|, flush, k);
      }
      if !after.initialized && AllTracksBuffered(s.state.queue, |rates|) {
        BufferedWasSeen(s, rates);
      }
  }

  /** `highest` is an accepted DTS of the track, and no accepted one of the track exceeds it. */
  lemma LatestOfTrack<P>(s: Session<P>, rates: seq<real>, track: nat)
    requires Conserving(s, rates) && track < |rates|
    ensures forall e :: e in s.pushed && e.track == track ==>
                          s.state.highest[track].Some? && e.dts <= s.state.highest[track].value
    ensures s.state.highest[track].Some? ==>
              exists e :: e in s.pushed && e.track == track && e.dts == s.state.highest[track].value
  {
    var own := OfTrack(s.pushed, track);
    assert TrackInOrder(own, s.state.highest[track]);
    hide Conserving, OfTrack;
    forall e | e in s.pushed && e.track == track
      ensures e in own
    {
      OfTrackMember(s.pushed, e);
    }
    if own != [] {
      OfTrackOnly(s.pushed, track, own[|own| - 1]);
    }
  }

  /** In every run a push is accepted exactly before the flush and at or after everything accepted on its track. */
  lemma EveryPushIsAnswered<P>(rates: seq<real>, ops: seq<Op<P>>, x: Item<P>)
    requires forall i :: 0 <= i < |ops| ==> OpPlaced(ops[i], rates)
    requires x.track < |rates|
    ensures var s := Run(rates, ops);
            Push(s.state, x).Ok? <==>
            !s.state.flushed && forall e :: e in s.pushed && e.track == x.track ==> e.dts <= x.dts
  {
    hide Run, Insert, Conserving;
    var s := Run(rates, ops);
    EveryRunConserves(rates, ops);
    LatestOfTrack(s, rates, x.track);
  }
}
