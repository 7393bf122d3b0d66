/** The realtime clock both tracks share: it maps presentation times to release times. */
module RealtimeTiming {
  import opened Results
  import opened TimeMath

  /** Thresholds in microseconds. */
  datatype Config = Config(negativeTolerance: int, discontinuity: int, jitter: int, discard: Option<int>) {
    /** What the constructor accepts; anything else is rejected as an invalid argument. */
    predicate Valid() {
      && 0 <= negativeTolerance
      && 0 <= jitter < discontinuity
      && (discard.Some? ==> 0 <= discard.value < negativeTolerance)
    }
  }

  datatype Decision = Release | Discard | WaitUntil(deadline: int)

  /** A decision and the mapping it leaves behind. */
  datatype Outcome = Outcome(decision: Result<Decision>, offset: Option<int>)

  /** How far the frame is ahead of its release time under a mapping; negative when late. */
  function Lead(offset: int, pts: int, now: int): int {
    pts - offset - now
  }

  ghost predicate ForwardJump(c: Config, offset: Option<int>, pts: int, now: int) {
    offset.Some? && Lead(offset.value, pts, now) >= c.discontinuity
  }

  ghost predicate TooLate(c: Config, offset: Option<int>, pts: int, now: int) {
    offset.Some? && Lead(offset.value, pts, now) < -c.negativeTolerance
  }

  /** Late enough to be discarded, not late enough to move the mapping. */
  ghost predicate InLateBand(c: Config, offset: Option<int>, pts: int, now: int) {
    && offset.Some? && c.discard.Some?
    && -c.negativeTolerance <= Lead(offset.value, pts, now) < -c.discard.value
  }

  /** Ahead of its time, but not so far as to be a discontinuity. */
  ghost predicate Early(c: Config, offset: Option<int>, pts: int, now: int) {
    offset.Some? && 0 < Lead(offset.value, pts, now) < c.discontinuity
  }

  /** What one call decides, by cases on the lead of the frame. */
  function Decide(c: Config, offset: Option<int>, pts: int, now: int): Outcome {
    if offset.None? then Resync(c, offset, pts, now, false)
    else
      match Difference(offset.value, pts, now)
      case Err(e) => Outcome(Err(e), offset)
      case Ok(lead) =>
        if lead < -c.negativeTolerance then Resync(c, offset, pts, now, false)
        else if lead >= c.discontinuity then Resync(c, offset, pts, now, true)
        else if c.discard.Some? && lead < -c.discard.value then Outcome(Ok(Discard), offset)
        else if lead > 0 then Outcome(Ok(WaitUntil(pts - offset.value)), offset)
        else Outcome(Ok(Release), offset)
  }

  function Difference(offset: int, pts: int, now: int): Result<int> {
    var due :- Checked(pts - offset);
    Checked(due - now)
  }

  function Resync(c: Config, offset: Option<int>, pts: int, now: int, forward: bool): Outcome {
    match Candidate(c, pts, now)
    case Err(e) => Outcome(Err(e), offset)
    case Ok(candidate) =>
      Outcome(Ok(Release), Some(if offset.None? || forward then candidate else Min(offset.value, candidate)))
  }

  function Candidate(c: Config, pts: int, now: int): Result<int> {
    var ahead :- Checked(pts - now);
    Checked(ahead - c.jitter)
  }

  class Clock {
    const config: Config
    var offset: Option<int>

    constructor (config: Config)
      requires config.Valid()
      ensures this.config == config && offset == None
    {
      this.config := config;
      offset := None;
    }

    method Schedule(pts: int, now: int) returns (r: Result<Decision>)
      requires config.Valid()
      modifies this
      ensures Outcome(r, offset) == Decide(config, old(offset), pts, now)
    {
      var reset := offset.None?;
      var forward := false;
      if offset.Some? {
        var due :- Checked(pts - offset.value);
        var lead :- Checked(due - now);
        if lead < -config.negativeTolerance {
          reset := true;
        } else if lead >= config.discontinuity {
          reset := true;
          forward := true;
        } else if config.discard.Some? && lead < -config.discard.value {
          return Ok(Discard);
        } else if lead > 0 {
          return Ok(WaitUntil(due));
        }
      }
      if reset {
        var ahead :- Checked(pts - now);
        var candidate :- Checked(ahead - config.jitter);
        offset := Some(if offset.None? || forward then candidate else Min(offset.value, candidate));
      }
      return Ok(Release);
    }

    method Reset()
      modifies this
      ensures offset == None
    {
      offset := None;
    }
  }

  // ----- one call

  /**
   * A released frame is within the tolerated window of the mapping the call leaves; a resynchronisation puts it exactly
   * at the jitter margin, and a release without one finds it due.
   */
  lemma ReleasedWithinWindow(c: Config, offset: Option<int>, pts: int, now: int)
    requires c.Valid()
    requires Decide(c, offset, pts, now).decision == Ok(Release)
    ensures var after := Decide(c, offset, pts, now).offset;
            && after.Some?
            && -c.negativeTolerance <= Lead(after.value, pts, now) <= c.jitter
            && (after != offset ==> Lead(after.value, pts, now) == c.jitter)
            && (after == offset ==> Lead(after.value, pts, now) <= 0)
  {
  }

  /** Unless the arithmetic fails, a frame is dropped, waits or is released by its lead alone. */
  lemma DecidedByLead(c: Config, offset: Option<int>, pts: int, now: int)
    requires c.Valid() && Decide(c, offset, pts, now).decision.Ok?
    ensures var decision := Decide(c, offset, pts, now).decision.value;
            && (decision.Discard? <==> InLateBand(c, offset, pts, now))
            && (decision.WaitUntil? <==> Early(c, offset, pts, now))
            && (decision.Release? <==> !InLateBand(c, offset, pts, now) && !Early(c, offset, pts, now))
            && (decision.WaitUntil? ==> Lead(offset.value, pts, decision.deadline) == 0)
  {
  }

  ghost predicate Fits(x: int) {
    INT64_MIN <= x <= INT64_MAX
  }

  /** The arithmetic fails exactly when a difference that is needed does not fit 64 bits. */
  lemma FailsExactly(c: Config, offset: Option<int>, pts: int, now: int)
    requires c.Valid()
    ensures var moves := offset.None? || ForwardJump(c, offset, pts, now) || TooLate(c, offset, pts, now);
            Decide(c, offset, pts, now).decision.Err? <==>
            || (offset.Some? && !(Fits(pts - offset.value) && Fits(Lead(offset.value, pts, now))))
            || (moves && !(Fits(pts - now) && Fits(pts - now - c.jitter)))
  {
  }

  /**
   * Deadlines are strictly future and bounded, leave the mapping alone, and are honest: asking again then releases the
   * frame.
   */
  lemma DeadlineIsHonest(c: Config, offset: Option<int>, pts: int, now: int)
    requires c.Valid()
    requires Decide(c, offset, pts, now).decision.Ok? && Decide(c, offset, pts, now).decision.value.WaitUntil?
    ensures var r := Decide(c, offset, pts, now);
            && r.offset == offset
            && now < r.decision.value.deadline < now + c.discontinuity
            && Decide(c, offset, pts, r.decision.value.deadline) == Outcome(Ok(Release), offset)
  {
    assert Lead(offset.value, pts, pts - offset.value) == 0;
  }

  /** The mapping moves up exactly at forward discontinuities and down exactly for frames beyond the late tolerance. */
  lemma MappingMoves(c: Config, offset: int, pts: int, now: int)
    requires c.Valid()
    requires Decide(c, Some(offset), pts, now).decision.Ok?
    ensures var after := Decide(c, Some(offset), pts, now).offset;
            && after.Some?
            && (after.value > offset <==> ForwardJump(c, Some(offset), pts, now))
            && (after.value < offset <==> TooLate(c, Some(offset), pts, now))
  {
  }

  /**
   * Overflow is reported without touching the mapping, and a frame is discarded exactly in the configured late band.
   */
  lemma FailuresAndDiscards(c: Config, offset: Option<int>, pts: int, now: int)
    requires c.Valid()
    ensures var r := Decide(c, offset, pts, now);
            && (r.decision.Err? ==> r.decision.error == Overflow && r.offset == offset)
            && (r.decision == Ok(Discard) ==> r.offset == offset)
            && (offset.Some? && Difference(offset.value, pts, now).Ok? ==>
                  (r.decision == Ok(Discard) <==>
                   c.discard.Some? && -c.negativeTolerance <= Lead(offset.value, pts, now) < -c.discard.value))
  {
  }

  // ----- whole runs, both tracks interleaved in any order

  datatype Call = Call(pts: int, now: int)

  /** The mapping after a run of calls. A failed call leaves it unchanged. */
  function After(c: Config, offset: Option<int>, calls: seq<Call>): Option<int>
    decreases calls
  {
    if calls == [] then offset
    else After(c, Decide(c, offset, calls[0].pts, calls[0].now).offset, calls[1..])
  }

  /** No call of the run takes the forward-discontinuity branch. */
  ghost predicate NoForwardJump(c: Config, offset: Option<int>, calls: seq<Call>)
    decreases calls
  {
    calls == [] ||
    (&& !ForwardJump(c, offset, calls[0].pts, calls[0].now)
     && NoForwardJump(c, Decide(c, offset, calls[0].pts, calls[0].now).offset, calls[1..]))
  }

  /**
   * Over any run without a forward discontinuity no presentation time is ever released earlier than the mapping first
   * promised.
   */
  lemma {:induction false} NoTrackIsAccelerated(c: Config, offset: int, calls: seq<Call>, pts: int)
    requires c.Valid()
    requires NoForwardJump(c, Some(offset), calls)
    ensures After(c, Some(offset), calls).Some?
    ensures pts - After(c, Some(offset), calls).value >= pts - offset
    decreases calls
  {
    if calls != [] {
      var next := Decide(c, Some(offset), calls[0].pts, calls[0].now).offset;
      assert next.Some? && next.value <= offset;
      NoTrackIsAccelerated(c, next.value, calls[1..], pts);
    }
  }

  /** In any run, each released frame sits in the window of the mapping in force right after it. */
  lemma {:induction false} EveryReleaseWithinWindow(c: Config, offset: Option<int>, calls: seq<Call>, k: nat)
    requires c.Valid() && k < |calls|
    requires Decide(c, After(c, offset, calls[..k]), calls[k].pts, calls[k].now).decision == Ok(Release)
    ensures var after := After(c, offset, calls[..k + 1]);
            after.Some? && -c.negativeTolerance <= Lead(after.value, calls[k].pts, calls[k].now) <= c.jitter
  {
    AfterSnoc(c, offset, calls[..k], calls[k]);
    assert calls[..k + 1] == calls[..k] + [calls[k]];
    ReleasedWithinWindow(c, After(c, offset, calls[..k]), calls[k].pts, calls[k].now);
  }

  lemma {:induction false} AfterSnoc(c: Config, offset: Option<int>, calls: seq<Call>, last: Call)
    ensures After(c, offset, calls + [last]) == Decide(c, After(c, offset, calls), last.pts, last.now).offset
    decreases calls
  {
    if calls == [] {
      assert [last][1..] == [];
    } else {
      assert (calls + [last])[1..] == calls[1..] + [last];
      AfterSnoc(c, Decide(c, offset, calls[0].pts, calls[0].now).offset, calls[1..], last);
    }
  }
}
