/**
 * The lazy, bounded frame-rate converter, and the proof that its output is the reference grid of the inputs it
 * accepted.
 */
module ForceFps {
  import opened Results
  import opened TimeMath
  import opened FrameGrid

  /** A decoder read result. `drawable` sums up the checks on the picture itself: present, video, positive size. */
  datatype Input =
    | Null
    | Frame(picture: int, stream: int, pts: Option<int>, timeBase: Rational, drawable: bool)
    | Eof(stream: int, endPts: Option<int>, timeBase: Rational, carriesFrame: bool)
  {
    function Pts(): Option<int> {
      if Null? then None else if Frame? then pts else endPts
    }

    /** Timestamps are int64 values other than AV_NOPTS_VALUE, which is None here. */
    predicate WellFormed() {
      Pts().Some? ==> INT64_MIN < Pts().value <= INT64_MAX
    }
  }

  // ----- admission

  /** Where a timestamp falls on the output grid, if it is usable at all. */
  function Place(x: Input, grid: TimeBase): Result<int> {
    if x.Pts().None? || x.Null? || !x.timeBase.Positive() then Err(InvalidArgument)
    else Rescale(x.Pts().value, x.timeBase, grid)
  }

  /** An input TryPushFrame may put into the queue. */
  predicate Admissible(x: Input, grid: TimeBase) {
    && x.WellFormed()
    && match x
       case Null => false
       case Frame(_, _, _, _, drawable) => drawable && Place(x, grid).Ok?
       case Eof(_, endPts, _, carriesFrame) => !carriesFrame && (endPts.Some? ==> Place(x, grid).Ok?)
  }

  function ItemOf(x: Input, grid: TimeBase): Item<Input>
    requires Admissible(x, grid)
  {
    if x.Frame? then Image(x, Place(x, grid).value)
    else End(x.stream, if x.endPts.Some? then Some(Place(x, grid).value) else None)
  }

  /** A timestamp in a usable time base, whose place on the grid is a proper 64-bit value. */
  ghost predicate Placeable(pts: Option<int>, timeBase: Rational, grid: TimeBase) {
    pts.Some? && timeBase.Positive() && INT64_MIN < Scaled(pts.value, timeBase, grid) < INT64_MAX
  }

  /**
   * An input is admitted exactly if it is a drawable frame, or an end that carries none, with a usable timestamp (an
   * end may also have none). It stands on the tick that its timestamp scales to, exactly rounded.
   */
  lemma InputsLandOnTheGrid(x: Input, grid: TimeBase)
    requires x.WellFormed()
    ensures Admissible(x, grid) <==>
            match x
            case Null => false
            case Frame(_, _, pts, timeBase, drawable) => drawable && Placeable(pts, timeBase, grid)
            case Eof(_, endPts, timeBase, carriesFrame) =>
              !carriesFrame && (endPts.Some? ==> Placeable(endPts, timeBase, grid))
    ensures Admissible(x, grid) ==>
              ItemOf(x, grid) ==
              match x
              case Frame(_, _, pts, timeBase, _) => Image(x, Scaled(pts.value, timeBase, grid))
              case Eof(stream, endPts, timeBase, _) =>
                End(stream, if endPts.Some? then Some(Scaled(endPts.value, timeBase, grid)) else None)
  {
    hide Scaled, AvRescaleQ;
  }

  ghost predicate AllAdmissible(inputs: seq<Input>, grid: TimeBase) {
    forall i :: 0 <= i < |inputs| ==> Admissible(inputs[i], grid)
  }

  ghost function Items(inputs: seq<Input>, grid: TimeBase): seq<Item<Input>>
    requires AllAdmissible(inputs, grid)
  {
    seq(|inputs|, i requires 0 <= i < |inputs| => ItemOf(inputs[i], grid))
  }

  // ----- the jump test

  const HALF_SECOND: TimeBase := Rational(1, 2)

  /** The source's test: a regression, or slots to repeat that span more than half a second. */
  predicate IsDiscontinuity(previous: int, tick: int, grid: TimeBase) {
    || tick < previous
    || tick - previous > INT64_MAX
    || (tick - previous > 1 && CompareTs(tick - previous - 1, grid, 1, HALF_SECOND) > 0)
  }

  /** The largest step that is not a jump, in ticks. */
  function Limit(grid: TimeBase): (limit: int)
    ensures limit >= 1
  {
    Min(INT64_MAX, 1 + grid.den / (2 * grid.num))
  }

  lemma DiscontinuityIsJump(previous: int, tick: int, grid: TimeBase)
    ensures IsDiscontinuity(previous, tick, grid) <==> Jump(previous, tick, Limit(grid))
  {
    var fillers := tick - previous - 1;
    QuotientThreshold(fillers, grid.num, grid.den);
  }

  lemma QuotientThreshold(n: int, a: int, b: int)
    requires a > 0 && b > 0
    ensures n * (a * 2) > b <==> n > b / (2 * a)
  {
    var q := b / (2 * a);
    assert b == q * (2 * a) + b % (2 * a);
    if n > q {
      assert n * (2 * a) >= (q + 1) * (2 * a);
    } else {
      assert n * (2 * a) <= q * (2 * a);
    }
  }

  /**
   * Repeated copies between two inputs of a segment never span more than half a second, and the limit is the largest
   * with that property.
   */
  lemma FillersSpanAtMostHalfASecond(previous: int, tick: int, grid: TimeBase)
    requires tick > previous && tick - previous <= INT64_MAX
    ensures !Jump(previous, tick, Limit(grid)) <==> tick == previous + 1 || Seconds(tick - previous - 1, grid) <= 0.5
  {
    DiscontinuityIsJump(previous, tick, grid);
    CompareIsInstantOrder(tick - previous - 1, grid, 1, HALF_SECOND);
  }

  // ----- one read

  datatype State = State(inputs: seq<Item<Input>>, history: History<Input>)

  ghost predicate Valid(s: State, limit: int) {
    s.history.Kept? ==>
      && s.history.lastTick < s.history.next <= INT64_MAX
      // While a gap is being filled the input beyond it stays at the front.
      && (s.history.next != s.history.lastTick + 1 ==>
            && s.inputs != [] && s.inputs[0].Image?
            && !Jump(s.history.lastTick, s.inputs[0].tick, limit)
            && s.history.next <= s.inputs[0].tick)
  }

  ghost predicate TicksRepresentable(items: seq<Item<Input>>) {
    forall i :: 0 <= i < |items| && items[i].Image? ==> items[i].tick < INT64_MAX
  }

  /** What TryReadFrame returns and leaves behind. */
  ghost function Read(s: State, limit: int): (r: (Option<Output<Input>>, State))
    requires Valid(s, limit) && TicksRepresentable(s.inputs)
    ensures Valid(r.1, limit) && TicksRepresentable(r.1.inputs)
    ensures r.0.None? ==> r.1.inputs == []
    decreases |s.inputs|
  {
    if s.inputs == [] then (None, s)
    else
      var h, x, rest := s.history, s.inputs[0], s.inputs[1..];
      if x.End? then (Some(Ended(x.stream, x.endTick)), State(rest, Empty))
      else if Late(h, x.tick, limit) then Read(State(rest, HistoryAfter(h, x, limit)), limit)
      else if Early(h, x.tick, limit) then
        (Some(Picture(h.last, h.next, !h.used)), s.(history := h.(used := true, next := h.next + 1)))
      else (Some(Picture(x.picture, x.tick, true)), State(rest, HistoryAfter(h, x, limit)))
  }

  class Converter {
    const grid: TimeBase
    const capacity: nat
    var stopped: bool
    var inputs: seq<Input>
    var last: Option<Input>
    var lastUsed: bool
    var lastInputPts: Option<int>
    var nextPts: Option<int>

    /** The source rejects a non-positive rate or a zero capacity. */
    constructor (fps: TimeBase, capacity: nat)
      requires capacity > 0
      ensures grid == Inverse(fps) && this.capacity == capacity
      ensures Consistent() && !stopped && View() == State([], Empty)
    {
      this.grid := Inverse(fps);
      this.capacity := capacity;
      stopped := false;
      inputs := [];
      last, lastUsed, lastInputPts, nextPts := None, false, None, None;
    }

    ghost predicate Paired()
      reads this
    {
      && AllAdmissible(inputs, grid) && |inputs| <= capacity
      && last.Some? == lastInputPts.Some? == nextPts.Some?
    }

    ghost function View(): State
      reads this
      requires Paired()
    {
      State(
        Items(inputs, grid),
        if nextPts.None? then Empty else Kept(last.value, lastUsed, lastInputPts.value, nextPts.value))
    }

    ghost predicate Consistent()
      reads this
    {
      Paired() && Valid(View(), Limit(grid)) && TicksRepresentable(View().inputs)
    }

    /** Accepts exactly the admissible inputs that fit; a malformed one is reported and changes nothing. */
    method TryPushFrame(x: Input) returns (r: Result<bool>)
      requires Consistent() && x.WellFormed()
      modifies this
      ensures Consistent() && stopped == old(stopped)
      ensures r.Err? <==> !stopped && |old(inputs)| < capacity && !Admissible(x, grid)
      ensures r == Ok(true) <==> !stopped && |old(inputs)| < capacity && Admissible(x, grid)
      ensures r == Ok(true) ==> View() == Enqueued(old(View()), ItemOf(x, grid))
      ensures r != Ok(true) ==> View() == old(View())
    {
      if stopped || |inputs| >= capacity {
        return Ok(false);
      }
      match x {
        case Null =>
          return Err(InvalidArgument);
        case Frame(_, _, pts, timeBase, drawable) =>
          if !drawable || pts.None? || !timeBase.Positive() {
            return Err(InvalidArgument);
          }
          var _ :- Rescale(pts.value, timeBase, grid);
        case Eof(_, endPts, timeBase, carriesFrame) =>
          if carriesFrame || (endPts.Some? && !timeBase.Positive()) {
            return Err(InvalidArgument);
          }
          if endPts.Some? {
            var _ :- Rescale(endPts.value, timeBase, grid);
          }
      }
      inputs := inputs + [x];
      assert Items(inputs, grid) == Items(old(inputs), grid) + [ItemOf(x, grid)];
      return Ok(true);
    }

    method TryReadFrame() returns (r: Option<Output<Input>>)
      requires Consistent()
      modifies this
      ensures Consistent() && stopped == old(stopped)
      ensures stopped ==> r.None? && View() == old(View())
      ensures !stopped ==> (r, View()) == Read(old(View()), Limit(grid))
    {
      if stopped {
        return None;
      }
      while inputs != []
        invariant Consistent() && !stopped
        invariant Read(View(), Limit(grid)) == Read(old(View()), Limit(grid))
        decreases |inputs|
      {
        r := ConsumeFront();
        if r.Some? {
          return r;
        }
      }
      return None;
    }

    /** One iteration of the read loop: an output, or an input that got no slot of its own. */
    method ConsumeFront() returns (r: Option<Output<Input>>)
      requires Consistent() && inputs != []
      modifies this
      ensures Consistent() && stopped == old(stopped)
      ensures r.Some? ==> (r, View()) == Read(old(View()), Limit(grid))
      ensures r.None? ==> |inputs| < |old(inputs)| && Read(View(), Limit(grid)) == Read(old(View()), Limit(grid))
    {
      var x, item := Front();
      if item.End? {
        PopInput();
        ClearHistory();
        return Some(Ended(item.stream, item.endTick));
      }
      var pts := item.tick;
      var discontinuity := Jumps(pts);
      if nextPts.Some? && !discontinuity {
        if pts < nextPts.value {
          Remember(x, false);
          PopInput();
          return None;
        }
        if pts > nextPts.value {
          r := Some(Picture(last.value, nextPts.value, !lastUsed));
          lastUsed := true;
          nextPts := Some(nextPts.value + 1);
          return r;
        }
      }
      Remember(x, true);
      lastInputPts := Some(pts);
      nextPts := Some(pts + 1);
      PopInput();
      return Some(Picture(x, pts, true));
    }

    method Jumps(pts: int) returns (b: bool)
      ensures b <==> lastInputPts.Some? && Jump(lastInputPts.value, pts, Limit(grid))
    {
      if lastInputPts.None? {
        return false;
      }
      DiscontinuityIsJump(lastInputPts.value, pts, grid);
      return IsDiscontinuity(lastInputPts.value, pts, grid);
    }

    /** The front of the queue with its place on the grid. */
    method Front() returns (x: Input, item: Item<Input>)
      requires Paired() && inputs != []
      ensures x == inputs[0] && item == View().inputs[0] && (item.Image? ==> item.picture == x)
    {
      x := inputs[0];
      item := ItemOf(x, grid);
    }

    method PopInput()
      requires Paired() && inputs != [] && TicksRepresentable(View().inputs)
      modifies this`inputs
      ensures |inputs| < |old(inputs)|
      ensures Paired() && View() == old(View()).(inputs := old(View()).inputs[1..])
      ensures TicksRepresentable(View().inputs)
    {
      inputs := inputs[1..];
    }

    method Remember(x: Input, used: bool)
      modifies this`last, this`lastUsed
      ensures last == Some(x) && lastUsed == used
      ensures lastInputPts.Some? && old(Paired()) ==>
                Paired() && View() == old(View()).(history := old(View()).history.(last := x, used := used))
    {
      last, lastUsed := Some(x), used;
    }

    method ClearHistory()
      requires AllAdmissible(inputs, grid) && |inputs| <= capacity
      modifies this`last, this`lastUsed, this`lastInputPts, this`nextPts
      ensures Paired() && View() == State(Items(inputs, grid), Empty)
    {
      last, lastUsed, lastInputPts, nextPts := None, false, None, None;
    }

    method Stop()
      requires Consistent()
      modifies this
      ensures Consistent() && stopped
      ensures View() == if old(stopped) then old(View()) else State([], Empty)
    {
      if stopped {
        return;
      }
      stopped := true;
      inputs := [];
      ClearHistory();
    }

    method Reset()
      modifies this
      ensures Consistent() && !stopped && View() == State([], Empty)
    {
      inputs := [];
      ClearHistory();
      stopped := false;
    }
  }

  ghost function Enqueued(s: State, x: Item<Input>): State {
    s.(inputs := s.inputs + [x])
  }

  // ----- what a state still owes

  ghost function Owed(s: State, limit: int): seq<Output<Input>> {
    Expand(s.history, s.inputs, limit)
  }

  /** A read hands over exactly the next owed output, and never changes what consuming everything would leave. */
  lemma {:induction false} ReadTakesNextOwed(s: State, limit: int)
    requires Valid(s, limit) && TicksRepresentable(s.inputs)
    ensures var (out, after) := Read(s, limit);
            && Owed(s, limit) == (if out.Some? then [out.value] else []) + Owed(after, limit)
            && FinalHistory(s.history, s.inputs, limit) == FinalHistory(after.history, after.inputs, limit)
    decreases |s.inputs|
  {
    if s.inputs != [] && s.inputs[0].Image? {
      var h, x := s.history, s.inputs[0];
      if Late(h, x.tick, limit) {
        ReadTakesNextOwed(State(s.inputs[1..], HistoryAfter(h, x, limit)), limit);
      } else if Early(h, x.tick, limit) {
        var filled := h.(used := true, next := h.next + 1);
        assert Fillers(h, x.tick - h.next) ==
          [Picture(h.last, h.next, !h.used)] + Fillers(filled, x.tick - filled.next);
        assert OutputsOf(h, x, limit) == [Picture(h.last, h.next, !h.used)] + OutputsOf(filled, x, limit);
      }
    }
  }

  // ----- every run of pushes and reads

  datatype Op = Push(input: Item<Input>) | Pull

  datatype Session = Session(state: State, accepted: seq<Item<Input>>, emitted: seq<Output<Input>>)

  const START := Session(State([], Empty), [], [])

  /** One call on a running converter; a full queue leaves everything as it was. */
  ghost function Perform(s: Session, op: Op, capacity: nat, limit: int): Session
    requires Faithful(s, limit)
  {
    match op
    case Push(x) =>
      if |s.state.inputs| < capacity && (x.Image? ==> x.tick < INT64_MAX)
      then s.(state := Enqueued(s.state, x), accepted := s.accepted + [x])
      else s
    case Pull =>
      var (out, after) := Read(s.state, limit);
      s.(state := after, emitted := s.emitted + if out.Some? then [out.value] else [])
  }

  /** Emitted plus owed is what the accepted inputs alone determine. */
  ghost predicate Faithful(s: Session, limit: int) {
    && Valid(s.state, limit) && TicksRepresentable(s.state.inputs)
    && s.emitted + Owed(s.state, limit) == Expand(Empty, s.accepted, limit)
    && FinalHistory(s.state.history, s.state.inputs, limit) == FinalHistory(Empty, s.accepted, limit)
  }

  lemma PushKeepsFaithful(s: Session, x: Item<Input>, limit: int)
    requires Faithful(s, limit) && (x.Image? ==> x.tick < INT64_MAX)
    ensures Faithful(s.(state := Enqueued(s.state, x), accepted := s.accepted + [x]), limit)
  {
    PushOwesMore(s.state.history, s.state.inputs, s.accepted, s.emitted, x, limit);
  }

  lemma PushOwesMore(h: History<Input>, queue: seq<Item<Input>>, accepted: seq<Item<Input>>,
                     emitted: seq<Output<Input>>, x: Item<Input>, limit: int)
    requires emitted + Expand(h, queue, limit) == Expand(Empty, accepted, limit)
    requires FinalHistory(h, queue, limit) == FinalHistory(Empty, accepted, limit)
    ensures emitted + Expand(h, queue + [x], limit) == Expand(Empty, accepted + [x], limit)
    ensures FinalHistory(h, queue + [x], limit) == FinalHistory(Empty, accepted + [x], limit)
  {
    hide Expand, FinalHistory;
    ExpandConcat(h, queue, [x], limit);
    ExpandConcat(Empty, accepted, [x], limit);
    var tail := Expand(FinalHistory(h, queue, limit), [x], limit);
    assert emitted + (Expand(h, queue, limit) + tail) == (emitted + Expand(h, queue, limit)) + tail;
  }

  lemma PullKeepsFaithful(s: Session, limit: int)
    requires Faithful(s, limit)
    ensures Faithful(Perform(s, Pull, 0, limit), limit)
  {
    ReadTakesNextOwed(s.state, limit);
    var (out, after) := Read(s.state, limit);
    var handed := if out.Some? then [out.value] else [];
    assert s.emitted + (handed + Owed(after, limit)) == (s.emitted + handed) + Owed(after, limit);
  }

  lemma PerformKeepsFaithful(s: Session, op: Op, capacity: nat, limit: int)
    requires Faithful(s, limit)
    ensures Faithful(Perform(s, op, capacity, limit), limit)
  {
    if op.Pull? {
      PullKeepsFaithful(s, limit);
    } else if op.input.Image? ==> op.input.tick < INT64_MAX {
      PushKeepsFaithful(s, op.input, limit);
    }
  }

  ghost function Run(s: Session, ops: seq<Op>, capacity: nat, limit: int): (r: Session)
    requires Faithful(s, limit)
    ensures Faithful(r, limit)
    decreases ops
  {
    if ops == [] then s
    else
      PerformKeepsFaithful(s, ops[0], capacity, limit);
      Run(Perform(s, ops[0], capacity, limit), ops[1..], capacity, limit)
  }

  /**
   * Whatever the schedule of pushes and reads and whatever the capacity, the output so far is a prefix of the reference
   * for the accepted inputs, and the whole of it once a read finds nothing.
   */
  lemma OutputDependsOnAcceptedInputsOnly(ops: seq<Op>, capacity: nat, grid: TimeBase)
    ensures var limit := Limit(grid);
            var s := Run(START, ops, capacity, limit);
            && s.emitted <= Reference(s.accepted, limit)
            && (Read(s.state, limit).0.None? ==> s.emitted == Reference(s.accepted, limit))
  {
    var limit := Limit(grid);
    var s := Run(START, ops, capacity, limit);
    ExpandIsReference(s.accepted, limit);
    ReadTakesNextOwed(s.state, limit);
  }

  /**
   * Two schedules that accepted the same inputs never contradict each other, and agree completely once both are
   * drained.
   */
  lemma SchedulesAgree(ops: seq<Op>, capacity: nat, other: seq<Op>, otherCapacity: nat, grid: TimeBase)
    requires var limit := Limit(grid);
             Run(START, ops, capacity, limit).accepted == Run(START, other, otherCapacity, limit).accepted
    ensures var limit := Limit(grid);
            var (a, b) := (Run(START, ops, capacity, limit), Run(START, other, otherCapacity, limit));
            && (a.emitted <= b.emitted || b.emitted <= a.emitted)
            && (Read(a.state, limit).0.None? && Read(b.state, limit).0.None? ==> a.emitted == b.emitted)
  {
    OutputDependsOnAcceptedInputsOnly(ops, capacity, grid);
    OutputDependsOnAcceptedInputsOnly(other, otherCapacity, grid);
  }
}
