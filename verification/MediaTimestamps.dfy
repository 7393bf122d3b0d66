/**
 * Encoded packets, the tracks they belong to, and the one millisecond shift all tracks share at the protocol boundary.
 */
module MediaTimestamps {
  import opened Results
  import opened TimeMath

  /** Timestamps are int64 values; AV_NOPTS_VALUE is None. */
  datatype Packet = Packet(id: int, stream: int, pts: Option<int>, dts: Option<int>, timeBase: Rational)

  datatype Stream = Stream(index: int, video: bool, timeBase: TimeBase)

  predicate Timestamp(t: Option<int>) {
    t.Some? && INT64_MIN < t.value <= INT64_MAX
  }

  /** At least one track, at most one of each kind, no index twice: what the constructors accept. */
  ghost predicate ValidStreams(streams: seq<Stream>) {
    && streams != []
    && forall i, j :: 0 <= i < j < |streams| ==>
         streams[i].index != streams[j].index && streams[i].video != streams[j].video
  }

  /** Position of a track, or the number of tracks when there is none. */
  function TrackOrder(streams: seq<Stream>, index: int): (t: nat)
    ensures t <= |streams|
    ensures t < |streams| ==> streams[t].index == index
    ensures forall i :: 0 <= i < t ==> streams[i].index != index
  {
    if streams == [] || streams[0].index == index then 0 else 1 + TrackOrder(streams[1..], index)
  }

  /** A packet with both timestamps, on a declared track, in that track's time base as a rational number. */
  predicate Valid(p: Packet, streams: seq<Stream>) {
    && Timestamp(p.pts) && Timestamp(p.dts) && p.timeBase.Positive()
    && TrackOrder(streams, p.stream) < |streams|
    && SameRational(p.timeBase, streams[TrackOrder(streams, p.stream)].timeBase)
  }

  function Validate(p: Packet, streams: seq<Stream>): (r: Result<()>)
    ensures r.Ok? <==> Valid(p, streams)
    ensures r.Err? ==> r.error == InvalidArgument
  {
    if Valid(p, streams) then Ok(()) else Err(InvalidArgument)
  }

  function Milliseconds(value: int, timeBase: TimeBase): Result<int> {
    Rescale(value, timeBase, MILLISECONDS)
  }

  /** Both millisecond timestamps of a packet lie in range. */
  predicate InRange(p: Packet, streams: seq<Stream>)
    requires Valid(p, streams)
  {
    Milliseconds(p.pts.value, p.timeBase).Ok? && Milliseconds(p.dts.value, p.timeBase).Ok?
  }

  datatype Times = Times(pts: int, dts: int)

  function Shifted(value: int, shift: int): Result<int> {
    if value < -shift then Err(InvalidArgument)
    else if value > INT64_MAX - shift then Err(Overflow)
    else Ok(value + shift)
  }

  /** Milliseconds after the common origin. */
  function Convert(p: Packet, streams: seq<Stream>, shift: Option<int>): Result<Times> {
    var _ :- Validate(p, streams);
    if shift.None? then Err(LogicError)
    else
      var pts :- Milliseconds(p.pts.value, p.timeBase);
      var shiftedPts :- Shifted(pts, shift.value);
      var dts :- Milliseconds(p.dts.value, p.timeBase);
      var shiftedDts :- Shifted(dts, shift.value);
      Ok(Times(shiftedPts, shiftedDts))
  }

  class Converter {
    const streams: seq<Stream>
    var shift: Option<int>

    constructor (streams: seq<Stream>)
      requires ValidStreams(streams)
      ensures this.streams == streams && shift == None
    {
      this.streams := streams;
      shift := None;
    }

    /** The shift is the least nonnegative one that brings every given timestamp to zero or later. */
    method Initialize(first: seq<Packet>) returns (r: Result<()>)
      modifies this
      ensures old(shift).Some? ==> r.Ok? && shift == old(shift)
      ensures r.Ok? ==> shift.Some?
      ensures r.Ok? && old(shift).None? ==> LeastShift(shift.value, first, streams)
      ensures r.Err? ==> shift == old(shift)
      ensures r.Err? ==> !AllInRange(first, streams)
    {
      if shift.Some? {
        return Ok(());
      }
      var minimum := 0;
      for i := 0 to |first|
        invariant shift == old(shift)
        invariant LeastShift(-minimum, first[..i], streams)
      {
        var p := first[i];
        var _ :- Validate(p, streams);
        var pts :- Milliseconds(p.pts.value, p.timeBase);
        var dts :- Milliseconds(p.dts.value, p.timeBase);
        var before := minimum;
        minimum := Min(minimum, Min(pts, dts));
        LeastShiftSnoc(-before, first[..i], p, -minimum, streams);
        assert first[..i + 1] == first[..i] + [p];
      }
      assert first[..|first|] == first;
      shift := Some(-minimum);
      return Ok(());
    }

    /**
     * Both timestamps as exact milliseconds after the origin, never negative; or, in this order, a rejected packet, a
     * missing shift, what is wrong with the presentation time, what is wrong with the decoding time.
     */
    method ConvertPacket(p: Packet) returns (r: Result<Times>)
      ensures !Valid(p, streams) ==> r == Err(InvalidArgument)
      ensures Valid(p, streams) && shift.None? ==> r == Err(LogicError)
      ensures Valid(p, streams) && shift.Some? ==>
        var pts := ExactMs(p.pts.value, p.timeBase);
        var dts := ExactMs(p.dts.value, p.timeBase);
        var first := if Fault(pts, shift.value).Some? then Fault(pts, shift.value) else Fault(dts, shift.value);
        if first.Some? then r == Err(first.value)
        else
          && r == Ok(Times(pts + shift.value, dts + shift.value))
          && 0 <= pts + shift.value <= INT64_MAX && 0 <= dts + shift.value <= INT64_MAX
      ensures r == Convert(p, streams, shift)
    {
      hide Rescale, ExactMs, SameRational;
      var _ :- Validate(p, streams);
      if shift.None? {
        return Err(LogicError);
      }
      MillisecondsAreExact(p.pts.value, p.timeBase);
      MillisecondsAreExact(p.dts.value, p.timeBase);
      var pts :- Milliseconds(p.pts.value, p.timeBase);
      var shiftedPts :- Shifted(pts, shift.value);
      var dts :- Milliseconds(p.dts.value, p.timeBase);
      var shiftedDts :- Shifted(dts, shift.value);
      return Ok(Times(shiftedPts, shiftedDts));
    }
  }

  /** The timestamp in milliseconds by exact arithmetic, rounded to nearest. */
  ghost function ExactMs(value: int, timeBase: TimeBase): int {
    Scaled(value, timeBase, MILLISECONDS)
  }

  /** Why a timestamp at so many exact milliseconds cannot be put out under a shift, if it cannot. */
  ghost function Fault(ms: int, shift: int): Option<Error> {
    if !(INT64_MIN < ms < INT64_MAX) then Some(Overflow)
    else if ms + shift < 0 then Some(InvalidArgument)
    else if ms + shift > INT64_MAX then Some(Overflow)
    else None
  }

  /** The source's milliseconds are the exact ones whenever those lie strictly inside the 64-bit range. */
  lemma MillisecondsAreExact(value: int, timeBase: TimeBase)
    requires INT64_MIN < value
    ensures Milliseconds(value, timeBase)
         == if INT64_MIN < ExactMs(value, timeBase) < INT64_MAX then Ok(ExactMs(value, timeBase)) else Err(Overflow)
  {
    AvRescaleIsScaled(value, timeBase, MILLISECONDS);
  }

  function Earliest(p: Packet, streams: seq<Stream>): int
    requires Valid(p, streams) && InRange(p, streams)
  {
    Min(Milliseconds(p.pts.value, p.timeBase).value, Milliseconds(p.dts.value, p.timeBase).value)
  }

  ghost predicate AllInRange(first: seq<Packet>, streams: seq<Stream>) {
    forall i :: 0 <= i < |first| ==> Valid(first[i], streams) && InRange(first[i], streams)
  }

  ghost function Earliests(first: seq<Packet>, streams: seq<Stream>): seq<int>
    requires AllInRange(first, streams)
  {
    seq(|first|, i requires 0 <= i < |first| => Earliest(first[i], streams))
  }

  ghost predicate LeastShiftOf(shift: int, values: seq<int>) {
    && shift >= 0
    && (forall i :: 0 <= i < |values| ==> values[i] >= -shift)
    && (shift != 0 ==> -shift in values)
  }

  ghost predicate LeastShift(shift: int, first: seq<Packet>, streams: seq<Stream>) {
    AllInRange(first, streams) && LeastShiftOf(shift, Earliests(first, streams))
  }

  lemma LeastShiftSnoc(shift: int, first: seq<Packet>, p: Packet, wider: int, streams: seq<Stream>)
    requires LeastShift(shift, first, streams)
    requires Valid(p, streams) && InRange(p, streams)
    requires wider == -Min(-shift, Earliest(p, streams))
    ensures LeastShift(wider, first + [p], streams)
  {
    assert Earliests(first + [p], streams) == Earliests(first, streams) + [Earliest(p, streams)];
  }

  /** One shift keeps every millisecond difference, within and across tracks, and never produces a negative time. */
  lemma DifferencesPreserved(p: Packet, q: Packet, streams: seq<Stream>, shift: Option<int>)
    requires Convert(p, streams, shift).Ok? && Convert(q, streams, shift).Ok?
    ensures Valid(p, streams) && InRange(p, streams) && Valid(q, streams) && InRange(q, streams)
    ensures var (a, b) := (Convert(p, streams, shift).value, Convert(q, streams, shift).value);
            && a.pts >= 0 && a.dts >= 0
            && a.dts - b.dts ==
                 Milliseconds(p.dts.value, p.timeBase).value - Milliseconds(q.dts.value, q.timeBase).value
            && a.pts - b.pts ==
                 Milliseconds(p.pts.value, p.timeBase).value - Milliseconds(q.pts.value, q.timeBase).value
            && a.pts - b.dts ==
                 Milliseconds(p.pts.value, p.timeBase).value - Milliseconds(q.dts.value, q.timeBase).value
  {
  }

  /**
   * On one track a later timestamp is never earlier in milliseconds, whatever pair of integers writes its time base.
   */
  lemma MillisecondsInOrder(x: int, y: int, a: TimeBase, b: TimeBase)
    requires INT64_MIN < x <= y && SameRational(a, b)
    requires Milliseconds(x, a).Ok? && Milliseconds(y, b).Ok?
    ensures Milliseconds(x, a).value <= Milliseconds(y, b).value
  {
    SameRationalScales(x, a, b, MILLISECONDS);
    ScaledMonotone(x, y, b, MILLISECONDS);
  }

  /** A packet at or after an origin packet of its track is never rejected as lying before the origin. */
  lemma NotBeforeOrigin(origin: Packet, p: Packet, streams: seq<Stream>, shift: int)
    requires Valid(origin, streams) && InRange(origin, streams) && Valid(p, streams)
    requires Earliest(origin, streams) >= -shift
    requires origin.stream == p.stream && origin.dts.value <= p.dts.value <= p.pts.value
    ensures Convert(p, streams, Some(shift)) != Err(InvalidArgument)
  {
    var t := streams[TrackOrder(streams, p.stream)].timeBase;
    SameRationalTransitive(origin.timeBase, t, p.timeBase);
    if Milliseconds(p.dts.value, p.timeBase).Ok? {
      MillisecondsInOrder(origin.dts.value, p.dts.value, origin.timeBase, p.timeBase);
    }
    if Milliseconds(p.pts.value, p.timeBase).Ok? {
      MillisecondsInOrder(origin.dts.value, p.pts.value, origin.timeBase, p.timeBase);
    }
  }

  lemma SameRationalTransitive(a: TimeBase, b: TimeBase, c: TimeBase)
    requires SameRational(a, b) && SameRational(c, b)
    ensures SameRational(a, c)
  {
    EqualValues(a, b);
    EqualValues(c, b);
    assert a.num as real / a.den as real == c.num as real / c.den as real;
    EqualQuotients(a.num, a.den, c.num, c.den);
  }

  lemma EqualQuotients(a: int, b: int, c: int, d: int)
    requires b > 0 && d > 0 && a as real / b as real == c as real / d as real
    ensures a * d == c * b
  {
    var q := a as real / b as real;
    assert q * b as real == a as real && q * d as real == c as real;
    assert (a as real) * (d as real) == (c as real) * (b as real);
    assert (a * d) as real == (c * b) as real;
  }
}
