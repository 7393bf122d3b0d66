/**
 * The DTS interleaver of one remux session, in the source's form, and the session results that follow from its theory.
 */
module Interleaver {
  import opened Results
  import opened TimeMath
  import opened MediaTimestamps
  import opened DtsQueue

  // ----- packets as the theory sees them

  function MeasuredUs(p: Packet): int
    requires p.dts.Some? && p.timeBase.Positive()
  {
    AvRescaleQ(p.dts.value, p.timeBase, MICROSECONDS)
  }

  ghost function Place(p: Packet, streams: seq<Stream>): Item<Packet>
    requires Valid(p, streams)
  {
    var t := TrackOrder(streams, p.stream);
    Item(p, t, p.dts.value, Seconds(p.dts.value, streams[t].timeBase), MeasuredUs(p))
  }

  ghost function Rates(streams: seq<Stream>): seq<real> {
    seq(|streams|, t requires 0 <= t < |streams| => streams[t].timeBase.Value())
  }

  lemma PlaceIsPlaced(p: Packet, streams: seq<Stream>)
    requires Valid(p, streams)
    ensures Placed(Place(p, streams), Rates(streams))
  {
    assert streams[TrackOrder(streams, p.stream)].timeBase.Value() > 0.0;
  }

  ghost predicate AllValid(packets: seq<Packet>, streams: seq<Stream>) {
    forall i :: 0 <= i < |packets| ==> Valid(packets[i], streams)
  }

  ghost function Places(packets: seq<Packet>, streams: seq<Stream>): seq<Item<Packet>>
    requires AllValid(packets, streams)
  {
    seq(|packets|, i requires 0 <= i < |packets| => Place(packets[i], streams))
  }

  /** The comparator of the source: av_compare_ts, then track order. */
  predicate Precedes(left: Packet, right: Packet, streams: seq<Stream>)
    requires Valid(left, streams) && Valid(right, streams)
  {
    var c := CompareTs(left.dts.value, left.timeBase, right.dts.value, right.timeBase);
    if c != 0 then c < 0 else TrackOrder(streams, left.stream) < TrackOrder(streams, right.stream)
  }

  lemma ComparatorIsLess(left: Packet, right: Packet, streams: seq<Stream>)
    requires Valid(left, streams) && Valid(right, streams)
    ensures Precedes(left, right, streams) <==> Less(Place(left, streams), Place(right, streams))
  {
    hide Seconds, CompareTs, MeasuredUs, SameRational;
    CompareIsInstantOrder(left.dts.value, left.timeBase, right.dts.value, right.timeBase);
    SameRationalSameInstant(left.dts.value, left.timeBase, streams[TrackOrder(streams, left.stream)].timeBase);
    SameRationalSameInstant(right.dts.value, right.timeBase, streams[TrackOrder(streams, right.stream)].timeBase);
  }

  lemma PlacesConcat(a: seq<Packet>, b: seq<Packet>, streams: seq<Stream>)
    requires AllValid(a, streams) && AllValid(b, streams)
    ensures AllValid(a + b, streams)
    ensures Places(a + b, streams) == Places(a, streams) + Places(b, streams)
  {
  }

  lemma PlacesSplit(packets: seq<Packet>, n: nat, streams: seq<Stream>)
    requires AllValid(packets, streams) && n <= |packets|
    ensures AllValid(packets[..n], streams) && AllValid(packets[n..], streams)
    ensures Places(packets[..n], streams) == Places(packets, streams)[..n]
    ensures Places(packets[n..], streams) == Places(packets, streams)[n..]
  {
  }

  lemma OnTrack(p: Packet, t: nat, streams: seq<Stream>)
    requires ValidStreams(streams) && t < |streams|
    ensures p.stream == streams[t].index <==> TrackOrder(streams, p.stream) == t
  {
  }

  lemma QueuedOnTrack(packets: seq<Packet>, t: nat, streams: seq<Stream>)
    requires ValidStreams(streams) && t < |streams| && AllValid(packets, streams)
    ensures (exists i :: 0 <= i < |packets| && packets[i].stream == streams[t].index) <==>
      Queued(Places(packets, streams), t)
  {
    hide Seconds, MeasuredUs, SameRational;
    var items := Places(packets, streams);
    forall i | 0 <= i < |packets|
      ensures packets[i].stream == streams[t].index <==> items[i].track == t
    {
      OnTrack(packets[i], t, streams);
    }
    if i :| 0 <= i < |packets| && packets[i].stream == streams[t].index {
      assert items[i].track == t;
    }
  }

  class PacketInterleaver {
    const streams: seq<Stream>
    var queue: seq<Packet>
    var highest: seq<Option<int>>
    var initialized: bool
    var flushed: bool

    constructor (streams: seq<Stream>)
      requires ValidStreams(streams)
      ensures this.streams == streams && Consistent()
      ensures View() == Start<Packet>(|streams|).state
    {
      this.streams := streams;
      queue := [];
      highest := seq(|streams|, _ => None);
      initialized, flushed := false, false;
    }

    ghost predicate Paired()
      reads this
    {
      AllValid(queue, streams) && |highest| == |streams| > 0
    }

    ghost function View(): State<Packet>
      reads this
      requires Paired()
    {
      State(Places(queue, streams), highest, initialized, flushed)
    }

    ghost predicate Consistent()
      reads this
    {
      Paired() && Sorted(View().queue)
    }

    /** Files a packet behind everything not later than it; a rejected packet changes nothing. */
    method Push(p: Packet) returns (r: Result<()>)
      requires Consistent()
      modifies this
      ensures Consistent()
      ensures r.Err? ==> View() == old(View())
      ensures !Valid(p, streams) ==> r == Err(if flushed then LogicError else InvalidArgument)
      ensures Valid(p, streams) ==>
                match DtsQueue.Push(old(View()), Place(p, streams))
                case Ok(after) => r.Ok? && View() == after
                case Err(e) => r == Err(e)
    {
      hide Seconds, CompareTs, MeasuredUs, SameRational, Precedes;
      if flushed {
        return Err(LogicError);
      }
      var _ :- Validate(p, streams);
      var track := TrackOrder(streams, p.stream);
      if highest[track].Some? && p.dts.value < highest[track].value {
        return Err(InvalidArgument);
      }
      var position := UpperBound(p);
      InsertKeepsSorted(View().queue, Place(p, streams));
      PlacesSplit(queue, position, streams);
      PlacesConcat(queue[..position], [p], streams);
      PlacesConcat(queue[..position] + [p], queue[position..], streams);
      assert Places([p], streams) == [Place(p, streams)];
      queue := queue[..position] + [p] + queue[position..];
      highest := highest[track := Some(p.dts.value)];
      return Ok(());
    }

    method UpperBound(p: Packet) returns (position: nat)
      requires Consistent() && Valid(p, streams)
      ensures position == Position(View().queue, Place(p, streams))
    {
      hide Seconds, CompareTs, MeasuredUs, SameRational, Precedes, Less;
      ghost var items, x := View().queue, Place(p, streams);
      var first, last := 0, |queue|;
      while first < last
        invariant 0 <= first <= Position(items, x) <= last <= |queue|
      {
        var middle := (first + last) / 2;
        ComparatorIsLess(p, queue[middle], streams);
        PositionSplits(items, x, middle);
        if Precedes(p, queue[middle], streams) {
          last := middle;
        } else {
          first := middle + 1;
        }
      }
      return first;
    }

    predicate HasPacket(t: nat)
      reads this
      requires t < |streams|
    {
      exists i :: 0 <= i < |queue| && queue[i].stream == streams[t].index
    }

    predicate Buffered()
      reads this
    {
      forall t :: 0 <= t < |streams| ==> HasPacket(t)
    }

    lemma BufferedIsAllTracks()
      requires Paired() && ValidStreams(streams)
      ensures Buffered() <==> AllTracksBuffered(View().queue, |streams|)
    {
      hide Place;
      forall t | 0 <= t < |streams|
        ensures HasPacket(t) <==> Queued(View().queue, t)
      {
        QueuedOnTrack(queue, t, streams);
      }
    }

    predicate WindowExceeded()
      reads this
      requires Paired()
    {
      |queue| >= 2 &&
      var (first, last) := (MeasuredUs(queue[0]), MeasuredUs(queue[|queue| - 1]));
      last > first && last - first > MAX_SPAN_US
    }

    lemma WindowIsExceedsDelta()
      requires Paired()
      ensures WindowExceeded() <==> ExceedsDelta(View().queue)
    {
      hide Seconds, MeasuredUs, SameRational;
    }

    /** Hands out the packets whose turn has come; with `flush`, all of them for good. */
    method PopReady(flush: bool) returns (r: Result<seq<Packet>>)
      requires Consistent() && ValidStreams(streams)
      modifies this
      ensures Consistent()
      ensures match DtsQueue.PopReady(old(View()), flush)
              case Ok((after, out)) => r.Ok? && AllValid(r.value, streams) && Places(r.value, streams) == out &&
                View() == after
              case Err(e) => r == Err(e) && View() == old(View())
    {
      hide Seconds, MeasuredUs, SameRational, Sorted, Place, Valid, AllTracksBuffered, ExceedsDelta;
      if flush {
        flushed := true;
      }
      var allSeen := forall t :: 0 <= t < |highest| ==> highest[t].Some?;
      WindowIsExceedsDelta();
      if !flush && !initialized && !allSeen && WindowExceeded() {
        return Err(RuntimeError);
      }
      initialized := initialized || flush || allSeen;
      if !initialized {
        return Ok([]);
      }
      var result := TakeReady(flush);
      return Ok(result);
    }

    method TakeReady(flush: bool) returns (result: seq<Packet>)
      requires Consistent() && ValidStreams(streams)
      modifies this`queue
      ensures Consistent() && AllValid(result, streams)
      ensures var (items, n) := (old(View().queue), Taken(old(View().queue), |streams|, flush));
              Places(result, streams) == items[..n] && View() == old(View()).(queue := items[n..])
    {
      hide Seconds, MeasuredUs, SameRational, Sorted, Place, Valid, AllTracksBuffered, ExceedsDelta;
      hide ValidStreams, TrackOrder, Taken;
      result := [];
      ghost var items := View().queue;
      ghost var n := Taken(items, |streams|, flush);
      while queue != [] && (flush || Buffered() || WindowExceeded())
        invariant Consistent() && AllValid(result, streams)
        invariant |result| <= n && Places(result, streams) == items[..|result|]
        invariant View() == old(View()).(queue := items[|result|..])
        invariant n == |result| + Taken(View().queue, |streams|, flush)
        decreases |queue|
      {
        BufferedIsAllTracks();
        WindowIsExceedsDelta();
        TakenUnfolds(View().queue, |streams|, flush);
        var p := PopFront();
        PlacesConcat(result, [p], streams);
        result := result + [p];
      }
      BufferedIsAllTracks();
      WindowIsExceedsDelta();
      TakenUnfolds(View().queue, |streams|, flush);
    }

    method PopFront() returns (p: Packet)
      requires Consistent() && queue != []
      modifies this`queue
      ensures Consistent() && |queue| == |old(queue)| - 1
      ensures AllValid([p], streams) && Places([p], streams) == [old(View().queue[0])]
      ensures View() == old(View()).(queue := old(View()).queue[1..])
    {
      hide Place;
      p := queue[0];
      PlacesSplit(queue, 1, streams);
      SortedTail(View().queue);
      queue := queue[1..];
    }

    /** The first queued packet of every track that has one, in track order. */
    method FirstPackets() returns (result: seq<Packet>)
      requires Consistent() && ValidStreams(streams)
      ensures AllValid(result, streams)
      ensures Places(result, streams) == DtsQueue.FirstPackets(View().queue, |streams|)
    {
      hide Place, Valid, ValidStreams, Sorted;
      result := [];
      for t := 0 to |streams|
        invariant AllValid(result, streams)
        invariant Places(result, streams) == DtsQueue.FirstPackets(View().queue, t)
      {
        var i := 0;
        while i < |queue| && queue[i].stream != streams[t].index
          invariant 0 <= i <= |queue|
          invariant OfTrack(View().queue, t) == OfTrack(View().queue[i..], t)
        {
          PlacedOnTrack(queue[i], streams, t);
          assert View().queue[i..][1..] == View().queue[i + 1..];
          i := i + 1;
        }
        if i < |queue| {
          PlacedOnTrack(queue[i], streams, t);
          PlacesConcat(result, [queue[i]], streams);
          assert Places([queue[i]], streams) == [View().queue[i]];
          result := result + [queue[i]];
        }
      }
    }
  }

  lemma PlacedOnTrack(p: Packet, streams: seq<Stream>, t: nat)
    requires Valid(p, streams) && ValidStreams(streams) && t < |streams|
    ensures Place(p, streams).track == t <==> p.stream == streams[t].index
  {
  }

  // ----- one shift for the whole session

  /** A run fed with placed packets, as the class does. */
  ghost predicate PacketRun(ops: seq<Op<Packet>>, streams: seq<Stream>) {
    forall i :: 0 <= i < |ops| && ops[i].Enter? ==> IsPlaced(ops[i].item, streams)
  }

  ghost predicate IsPlaced(x: Item<Packet>, streams: seq<Stream>) {
    Valid(x.packet, streams) && x == Place(x.packet, streams)
  }

  lemma PacketRunIsPlaced(ops: seq<Op<Packet>>, streams: seq<Stream>)
    requires PacketRun(ops, streams)
    ensures forall i :: 0 <= i < |ops| ==> OpPlaced(ops[i], Rates(streams))
  {
    forall i | 0 <= i < |ops| && ops[i].Enter?
      ensures Placed(ops[i].item, Rates(streams))
    {
      PlaceIsPlaced(ops[i].item.packet, streams);
    }
  }

  ghost function SessionOf(ops: seq<Op<Packet>>, streams: seq<Stream>): Session<Packet>
    requires PacketRun(ops, streams)
  {
    PacketRunIsPlaced(ops, streams);
    Run(Rates(streams), ops)
  }

  lemma {:induction false} PushedArePlaced(ops: seq<Op<Packet>>, streams: seq<Stream>, x: Item<Packet>)
    requires PacketRun(ops, streams)
    requires x in SessionOf(ops, streams).pushed
    ensures IsPlaced(x, streams)
    decreases |ops|
  {
    hide Place, Valid;
    var before, last := ops[..|ops| - 1], ops[|ops| - 1];
    assert PacketRun(before, streams);
    if x in SessionOf(before, streams).pushed {
      PushedArePlaced(before, streams, x);
    } else {
      assert x == last.item;
    }
  }

  ghost function PacketsOf(items: seq<Item<Packet>>): seq<Packet> {
    seq(|items|, i requires 0 <= i < |items| => items[i].packet)
  }

  /**
   * The shift taken from the first packets, just before the first pop that returned any, serves every packet the
   * session ever emits.
   */
  lemma OneShiftServesTheSession(ops: seq<Op<Packet>>, streams: seq<Stream>, shift: int, e: Item<Packet>)
    requires PacketRun(ops, streams)
    requires e in SessionOf(ops, streams).emitted
    requires SessionOf(ops, streams).origin.Some? ==>
               LeastShift(shift, PacketsOf(SessionOf(ops, streams).origin.value), streams)
    ensures Valid(e.packet, streams)
    ensures Milliseconds(e.packet.dts.value, e.packet.timeBase).Ok? ==>
              Shifted(Milliseconds(e.packet.dts.value, e.packet.timeBase).value, shift) != Err(InvalidArgument)
    ensures e.packet.pts.value >= e.packet.dts.value ==> Convert(e.packet, streams, Some(shift)) != Err(InvalidArgument)
  {
    hide Milliseconds, Convert, Shifted, Seconds, MeasuredUs;
    var s := SessionOf(ops, streams);
    PacketRunIsPlaced(ops, streams);
    EmittedAtOrAfterOrigin(Rates(streams), ops, e);
    EveryRunConserves(Rates(streams), ops);
    QueuedWasPushed(s, Rates(streams), e);
    var f :| f in s.origin.value && f in s.pushed && f.track == e.track && f.dts <= e.dts;
    PushedArePlaced(ops, streams, e);
    PushedArePlaced(ops, streams, f);
    var packets := PacketsOf(s.origin.value);
    var i :| 0 <= i < |s.origin.value| && s.origin.value[i] == f;
    assert packets[i] == f.packet;
    assert Earliests(packets, streams)[i] == Earliest(f.packet, streams);
    SameTrack(f.packet, e.packet, streams);
    OriginServes(f.packet, e.packet, streams, shift);
  }

  lemma SameTrack(p: Packet, q: Packet, streams: seq<Stream>)
    requires Valid(p, streams) && Valid(q, streams)
    requires TrackOrder(streams, p.stream) == TrackOrder(streams, q.stream)
    ensures p.stream == q.stream
  {
  }

  lemma OriginServes(origin: Packet, p: Packet, streams: seq<Stream>, shift: int)
    requires Valid(origin, streams) && InRange(origin, streams) && Valid(p, streams)
    requires Earliest(origin, streams) >= -shift
    requires origin.stream == p.stream && origin.dts.value <= p.dts.value
    ensures Milliseconds(p.dts.value, p.timeBase).Ok? ==>
              Shifted(Milliseconds(p.dts.value, p.timeBase).value, shift) != Err(InvalidArgument)
    ensures p.pts.value >= p.dts.value ==> Convert(p, streams, Some(shift)) != Err(InvalidArgument)
  {
    if p.pts.value >= p.dts.value {
      NotBeforeOrigin(origin, p, streams, shift);
    }
    if Milliseconds(p.dts.value, p.timeBase).Ok? {
      hide Rescale, SameRational;
      SameRationalTransitive(origin.timeBase, streams[TrackOrder(streams, p.stream)].timeBase, p.timeBase);
      MillisecondsInOrder(origin.dts.value, p.dts.value, origin.timeBase, p.timeBase);
    }
  }

  // ----- the ten-second window in exact time

  /** The microsecond value of the packet is representable, so it really is its instant rounded. */
  predicate Measurable(p: Packet)
    requires p.dts.Some? && p.timeBase.Positive()
  {
    MeasuredUs(p) != INT64_MIN
  }

  /** The instant in microseconds, rounded as the source rounds it but without its 64-bit limit. */
  ghost function ExactUs(x: Item<Packet>): int {
    Round(x.time * 1000000.0)
  }

  lemma MicrosecondsOfSeconds(dts: int, tb: TimeBase)
    ensures Scaled(dts, tb, MICROSECONDS) == Round(Seconds(dts, tb) * 1000000.0)
  {
    var v, f := tb.Value(), Factor(tb, MICROSECONDS);
    FactorToMicroseconds(tb);
    Associate(dts as real, v, f);
    assert Scaled(dts, tb, MICROSECONDS) == ScaleBy(dts, f) == Round(dts as real * f);
  }

  lemma FactorToMicroseconds(tb: TimeBase)
    ensures Factor(tb, MICROSECONDS) == tb.Value() * 1000000.0
  {
    assert MICROSECONDS.Value() * 1000000.0 == 1.0;
  }

  lemma Associate(x: real, v: real, f: real)
    requires f == v * 1000000.0
    ensures x * f == (x * v) * 1000000.0
  {
    assert (x * v) * 1000000.0 == x * (v * 1000000.0);
  }

  /** A representable packet measures exactly, any other one as the smallest integer. */
  lemma MeasuredOrSmallest(x: Item<Packet>, streams: seq<Stream>)
    requires IsPlaced(x, streams)
    ensures Measurable(x.packet) <==> -INT64_MAX <= ExactUs(x) <= INT64_MAX
    ensures x.us == if Measurable(x.packet) then ExactUs(x) else INT64_MIN
  {
    hide AvRescaleQ, Round, Seconds, Scaled, SameRational;
    var p := x.packet;
    AvRescaleIsScaled(p.dts.value, p.timeBase, MICROSECONDS);
    MicrosecondsOfSeconds(p.dts.value, p.timeBase);
    SameRationalSameInstant(p.dts.value, p.timeBase, streams[TrackOrder(streams, p.stream)].timeBase);
  }

  lemma ExactInOrder(a: Item<Packet>, b: Item<Packet>)
    requires !Less(b, a)
    ensures a.time <= b.time && ExactUs(a) <= ExactUs(b)
  {
    RoundMonotone(a.time * 1000000.0, b.time * 1000000.0);
  }

  /** The exact span of a queue, the one the window is meant to bound. */
  ghost predicate TrulyExceeds(queue: seq<Item<Packet>>)
    requires queue != []
  {
    ExactUs(queue[|queue| - 1]) - ExactUs(queue[0]) > MAX_SPAN_US
  }

  ghost predicate EndsPlaced(queue: seq<Item<Packet>>, streams: seq<Stream>)
    requires queue != []
  {
    IsPlaced(queue[0], streams) && IsPlaced(queue[|queue| - 1], streams)
  }

  /**
   * The guard of a reliable window test: the back of the queue is representable, and so is the front, unless the back
   * is far enough from the smallest integer for the front to be read as that.
   */
  predicate WindowReadable(front: Packet, back: Packet)
    requires front.dts.Some? && front.timeBase.Positive() && back.dts.Some? && back.timeBase.Positive()
  {
    Measurable(back) && (Measurable(front) || MeasuredUs(back) - INT64_MIN > MAX_SPAN_US)
  }

  /**
   * On a sorted queue the window test never raises a false alarm. It sees an excess span exactly when it can read the
   * ends, so it answers correctly exactly when it can read them or there is nothing to see.
   */
  lemma WindowTestCorrectIff(queue: seq<Item<Packet>>, streams: seq<Stream>)
    requires |queue| >= 2 && Sorted(queue) && EndsPlaced(queue, streams)
    ensures var readable := WindowReadable(queue[0].packet, queue[|queue| - 1].packet);
            && (ExceedsDelta(queue) <==> TrulyExceeds(queue) && readable)
            && ((ExceedsDelta(queue) <==> TrulyExceeds(queue)) <==> !TrulyExceeds(queue) || readable)
  {
    hide Round, AvRescaleQ, Seconds, SameRational;
    var front, back := queue[0], queue[|queue| - 1];
    MeasuredOrSmallest(front, streams);
    MeasuredOrSmallest(back, streams);
    ExactInOrder(front, back);
  }

  /** What a pop leaves, when it leaves two packets or more. */
  ghost function Left(s: State<Packet>, flush: bool): seq<Item<Packet>>
    requires DtsQueue.PopReady(s, flush).Ok?
  {
    DtsQueue.PopReady(s, flush).value.0.queue
  }

  lemma LeftIsSorted(s: State<Packet>, flush: bool)
    requires DtsQueue.PopReady(s, flush).Ok? && |s.highest| > 0 && Sorted(s.queue)
    ensures Sorted(Left(s, flush)) && !ExceedsDelta(Left(s, flush))
  {
    hide DtsQueue.PopReady;
    PopSplits(s, flush);
    PopLeavesWindow(s, flush);
  }

  /**
   * A pop keeps the ten-second promise whenever the ends of what it leaves are representable. If only the front is
   * known to be, and does not itself lie in the last ten seconds of the representable range, then the promise is kept
   * exactly when the back is representable too.
   */
  lemma PopKeepsWindowIff(s: State<Packet>, flush: bool, streams: seq<Stream>)
    requires DtsQueue.PopReady(s, flush).Ok? && |s.highest| > 0 && Sorted(s.queue)
    requires |Left(s, flush)| >= 2 && EndsPlaced(Left(s, flush), streams)
    ensures var queue := Left(s, flush);
            var (front, back) := (queue[0], queue[|queue| - 1]);
            && (WindowReadable(front.packet, back.packet) ==> !TrulyExceeds(queue))
            && (Measurable(front.packet) && front.us <= INT64_MAX - MAX_SPAN_US ==>
                  (!TrulyExceeds(queue) <==> Measurable(back.packet)))
  {
    hide DtsQueue.PopReady, Round, AvRescaleQ, Seconds, SameRational;
    var queue := Left(s, flush);
    LeftIsSorted(s, flush);
    WindowTestCorrectIff(queue, streams);
    MeasuredOrSmallest(queue[0], streams);
    MeasuredOrSmallest(queue[|queue| - 1], streams);
    ExactInOrder(queue[0], queue[|queue| - 1]);
  }

  /**
   * If the front and the back of what a pop leaves are representable in microseconds, no two packets left are more
   * than ten seconds, to within a microsecond, apart. Nothing is asked of the packets popped or of those in between.
   */
  lemma QueueSpansAtMostTenSeconds(s: State<Packet>, flush: bool, streams: seq<Stream>, i: nat, j: nat)
    requires DtsQueue.PopReady(s, flush).Ok? && |s.highest| > 0 && Sorted(s.queue)
    requires i < |Left(s, flush)| && j < |Left(s, flush)| && EndsPlaced(Left(s, flush), streams)
    requires Measurable(Left(s, flush)[0].packet) && Measurable(Left(s, flush)[|Left(s, flush)| - 1].packet)
    ensures Left(s, flush)[j].time - Left(s, flush)[i].time <= 10.000001
  {
    hide DtsQueue.PopReady, Round, Place, Valid, MeasuredUs;
    var queue := Left(s, flush);
    var last := |queue| - 1;
    LeftIsSorted(s, flush);
    MeasuredOrSmallest(queue[0], streams);
    MeasuredOrSmallest(queue[last], streams);
    RoundError(queue[0].time * 1000000.0);
    RoundError(queue[last].time * 1000000.0);
    assert queue[0].time <= queue[i].time && queue[j].time <= queue[last].time by {
      assert !Less(queue[last], queue[j]) || j == last;
    }
  }

  /** What can be checked of a packet before it is pushed. */
  predicate Representable(p: Packet) {
    p.dts.Some? && p.timeBase.Positive() && Measurable(p)
  }

  lemma {:induction false} PushedWasEntered(ops: seq<Op<Packet>>, streams: seq<Stream>, x: Item<Packet>)
    requires PacketRun(ops, streams) && x in SessionOf(ops, streams).pushed
    ensures exists k :: 0 <= k < |ops| && ops[k] == Enter(x)
    decreases |ops|
  {
    hide IsPlaced;
    var before, last := ops[..|ops| - 1], ops[|ops| - 1];
    assert PacketRun(before, streams);
    if x in SessionOf(before, streams).pushed {
      PushedWasEntered(before, streams, x);
    } else {
      assert ops[|ops| - 1] == Enter(x);
    }
  }

  lemma LeftWasEntered(ops: seq<Op<Packet>>, streams: seq<Stream>, flush: bool, i: nat)
    requires PacketRun(ops, streams) && DtsQueue.PopReady(SessionOf(ops, streams).state, flush).Ok?
    requires i < |Left(SessionOf(ops, streams).state, flush)|
    ensures var x := Left(SessionOf(ops, streams).state, flush)[i];
            IsPlaced(x, streams) && exists k :: 0 <= k < |ops| && ops[k] == Enter(x)
  {
    hide DtsQueue.PopReady, IsPlaced, Run;
    var s := SessionOf(ops, streams);
    var x := Left(s.state, flush)[i];
    PacketRunIsPlaced(ops, streams);
    EveryRunConserves(Rates(streams), ops);
    PopSplits(s.state, flush);
    assert x in s.state.queue;
    QueuedWasPushed(s, Rates(streams), x);
    PushedArePlaced(ops, streams, x);
    PushedWasEntered(ops, streams, x);
  }

  /**
   * In every session that pushes only packets representable in microseconds, no two packets a normal pop leaves are
   * more than ten seconds, to within a microsecond, apart.
   */
  lemma SessionKeepsTheWindow(ops: seq<Op<Packet>>, streams: seq<Stream>, flush: bool, i: nat, j: nat)
    requires streams != [] && PacketRun(ops, streams)
    requires forall k :: 0 <= k < |ops| && ops[k].Enter? ==> Representable(ops[k].item.packet)
    requires DtsQueue.PopReady(SessionOf(ops, streams).state, flush).Ok?
    requires i < |Left(SessionOf(ops, streams).state, flush)| && j < |Left(SessionOf(ops, streams).state, flush)|
    ensures var queue := Left(SessionOf(ops, streams).state, flush); queue[j].time - queue[i].time <= 10.000001
  {
    hide DtsQueue.PopReady, Place, Valid, Measurable, Run;
    var s := SessionOf(ops, streams);
    PacketRunIsPlaced(ops, streams);
    EveryRunConserves(Rates(streams), ops);
    LeftWasEntered(ops, streams, flush, 0);
    LeftWasEntered(ops, streams, flush, |Left(s.state, flush)| - 1);
    QueueSpansAtMostTenSeconds(s.state, flush, streams, i, j);
  }

  // ----- a session that breaks the promise

  const SECONDS_STREAMS := [Stream(0, true, Rational(1, 1)), Stream(1, false, Rational(1, 1))]

  function InSeconds(stream: int, dts: int): Packet {
    Packet(0, stream, Some(dts), Some(dts), Rational(1, 1))
  }

  lemma PlacedInSeconds(track: nat, dts: int)
    requires track < 2 && INT64_MIN < dts <= INT64_MAX
    ensures var p := InSeconds(track, dts);
            && Valid(p, SECONDS_STREAMS)
            && Place(p, SECONDS_STREAMS) == Item(p, track, dts, dts as real, MeasuredUs(p))
  {
    assert SECONDS_STREAMS[1..][0].index == 1;
    assert TrackOrder(SECONDS_STREAMS, track) == track;
    assert Seconds(dts, Rational(1, 1)) == dts as real;
  }

  /**
   * A state whose pop returns normally and leaves its queue as it was, two packets of one track that are aeons apart:
   * seconds as the time base, a packet at zero and one at the end of the 64-bit range, the other track drained.
   */
  lemma WindowTestCanMiss()
    ensures Valid(InSeconds(1, 0), SECONDS_STREAMS) && Valid(InSeconds(1, INT64_MAX), SECONDS_STREAMS)
    ensures var queue := [Place(InSeconds(1, 0), SECONDS_STREAMS), Place(InSeconds(1, INT64_MAX), SECONDS_STREAMS)];
            var s := State(queue, [Some(0), Some(INT64_MAX)], true, false);
            && Sorted(queue) && TrulyExceeds(queue)
            && DtsQueue.PopReady(s, false) == Ok((s, []))
            && queue[1].time - queue[0].time == INT64_MAX as real
  {
    PlacedInSeconds(1, 0);
    PlacedInSeconds(1, INT64_MAX);
    assert RescaleInteger(INT64_MAX, 1000000, 1) > INT64_MAX;
    assert MeasuredUs(InSeconds(1, INT64_MAX)) == INT64_MIN;
    var queue := [Place(InSeconds(1, 0), SECONDS_STREAMS), Place(InSeconds(1, INT64_MAX), SECONDS_STREAMS)];
    assert !Queued(queue, 0);
    assert !AllTracksBuffered(queue, 2);
    assert Taken(queue, 2, false) == 0;
  }

  /** What such a session does: a packet on each track, a pop, one far later packet on the second track, a pop. */
  ghost function FarSession(): seq<Op<Packet>> {
    var (first, second) := (Place(InSeconds(0, 0), SECONDS_STREAMS), Place(InSeconds(1, 0), SECONDS_STREAMS));
    var far := Place(InSeconds(1, INT64_MAX), SECONDS_STREAMS);
    [Enter(first), Enter(second), Leave(false), Enter(far), Leave(false)]
  }

  /** That state is not contrived: a session of valid packets, none of its pops failing, ends in it. */
  lemma SessionCanBreakTheWindow()
    ensures PacketRun(FarSession(), SECONDS_STREAMS)
    ensures forall i :: 0 <= i < |FarSession()| ==> OpPlaced(FarSession()[i], Rates(SECONDS_STREAMS))
    ensures var ops := FarSession();
            var s := Run(Rates(SECONDS_STREAMS), ops);
            && !s.failed && ops[|ops| - 1].Leave?
            && s.state.queue ==
                 [Place(InSeconds(1, 0), SECONDS_STREAMS), Place(InSeconds(1, INT64_MAX), SECONDS_STREAMS)]
            && TrulyExceeds(s.state.queue)
  {
    hide Place, Valid, AvRescaleQ, TrulyExceeds, Run, DtsQueue.Push, DtsQueue.PopReady, Less;
    PlacedInSeconds(0, 0);
    PlacedInSeconds(1, 0);
    PlacedInSeconds(1, INT64_MAX);
    var rates, ops := Rates(SECONDS_STREAMS), FarSession();
    PacketRunIsPlaced(ops, SECONDS_STREAMS);
    WindowTestCanMiss();
    var (first, second, far) := (ops[0].item, ops[1].item, ops[3].item);
    var s0: State<Packet> := State([], [None, None], false, false);
    StartsEmpty(rates, ops);
    PushedLast(s0, first);
    var s1 := State([first], [Some(0), None], false, false);
    assert s0.queue + [first] == s1.queue && s0.highest[0 := Some(0)] == s1.highest;
    EnterOf(rates, ops, 0, s0, s1);
    FarIsLater(first, second);
    PushedLast(s1, second);
    var s2 := State([first, second], [Some(0), Some(0)], false, false);
    assert s1.queue + [second] == s2.queue && s1.highest[1 := Some(0)] == s2.highest;
    EnterOf(rates, ops, 1, s1, s2);
    FirstLeaves(first, second, s2);
    var s3 := State([second], [Some(0), Some(0)], true, false);
    LeaveOf(rates, ops, 2, s2, s3);
    FarIsLater(second, far);
    PushedLast(s3, far);
    var s4 := State([second, far], [Some(0), Some(INT64_MAX)], true, false);
    assert s3.queue + [far] == s4.queue && s3.highest[1 := Some(INT64_MAX)] == s4.highest;
    EnterOf(rates, ops, 3, s3, s4);
    LeaveOf(rates, ops, 4, s4, s4);
    assert ops[..5] == ops;
  }

  lemma StartsEmpty(rates: seq<real>, ops: seq<Op<Packet>>)
    requires |rates| == 2
    ensures Run(rates, ops[..0]) == Session(State([], [None, None], false, false), [], [], false, false, false, None)
  {
    var none: seq<Option<int>> := [None, None];
    assert Start<Packet>(2).state.highest == none;
  }

  lemma FarIsLater(a: Item<Packet>, b: Item<Packet>)
    requires a.time < b.time || (a.time == b.time && a.track <= b.track)
    ensures !Less(b, a)
  {
  }

  lemma PushedLast(s: State<Packet>, x: Item<Packet>)
    requires !s.flushed && x.track < |s.highest| && (s.highest[x.track].Some? ==> s.highest[x.track].value <= x.dts)
    requires forall i :: 0 <= i < |s.queue| ==> !Less(x, s.queue[i])
    ensures DtsQueue.Push(s, x) == Ok(s.(queue := s.queue + [x], highest := s.highest[x.track := Some(x.dts)]))
  {
    assert Position(s.queue, x) == |s.queue|;
    assert Insert(s.queue, x) == s.queue + [x];
  }

  /** The session is going well and in this state. */
  ghost predicate Reached(s: Session<Packet>, state: State<Packet>) {
    !s.failed && s.state == state
  }

  lemma EnterOf(rates: seq<real>, ops: seq<Op<Packet>>, k: nat, from: State<Packet>, to: State<Packet>)
    requires k < |ops| && forall i :: 0 <= i < |ops| ==> OpPlaced(ops[i], rates)
    requires Reached(Run(rates, ops[..k]), from) && ops[k].Enter? && ops[k].item.track < |from.highest|
    requires DtsQueue.Push(from, ops[k].item) == Ok(to)
    ensures Reached(Run(rates, ops[..k + 1]), to)
  {
    assert ops[..k + 1][..k] == ops[..k];
  }

  lemma LeaveOf(rates: seq<real>, ops: seq<Op<Packet>>, k: nat, from: State<Packet>, to: State<Packet>)
    requires k < |ops| && forall i :: 0 <= i < |ops| ==> OpPlaced(ops[i], rates)
    requires Reached(Run(rates, ops[..k]), from) && ops[k] == Leave(false)
    requires DtsQueue.PopReady(from, false).Ok? && DtsQueue.PopReady(from, false).value.0 == to
    ensures Reached(Run(rates, ops[..k + 1]), to)
  {
    assert ops[..k + 1][..k] == ops[..k];
  }

  lemma FirstLeaves(first: Item<Packet>, second: Item<Packet>, s: State<Packet>)
    requires first.track == 0 && second.track == 1
    requires |s.highest| == 2 && s.highest[0].Some? && s.highest[1].Some?
    requires s == State([first, second], s.highest, false, false)
    ensures DtsQueue.PopReady(s, false) == Ok((State([second], s.highest, true, false), [first]))
  {
    assert s.queue[0].track == 0 && s.queue[1].track == 1;
    assert AllTracksBuffered(s.queue, 2);
    assert s.queue[1..] == [second] && s.queue[..1] == [first];
    assert !Queued([second], 0);
    assert Taken([second], 2, false) == 0;
    assert Taken(s.queue, 2, false) == 1;
    assert AllTracksSeen(s);
  }
}
