/**
 * The one-slot handshake between the driver and a track's worker, and what either side does in one critical section.
 */
module SchedulerSlot {
  import opened Results
  import opened TimeMath
  import opened SyncerRules
  import RealtimeTiming

  const OUTPUT_RETRY_US := 20000

  /** One track; None in an item field is the empty read result. */
  datatype Slot = Slot(
    busy: bool, requested: bool, completed: bool,
    task: Option<Head>, result: Option<Head>, needsInput: bool,
    sourceHead: Option<Head>, head: Option<Head>,
    syncerWake: int, outputBlocked: bool, blockedRevision: nat, outputRetry: int)

  const CLEAR := Slot(false, false, false, None, None, true, None, None, 0, false, 0, 0)

  // ----- the driver

  function Completed(s: Slot, now: int): Slot {
    if !s.completed then s
    else s.(head := s.result, result := None, completed := false,
            syncerWake := if s.result.Some? then now else s.syncerWake)
  }

  function Dispatched(s: Slot, input: Option<Head>): Slot {
    s.(task := input, busy := true, requested := true)
  }

  /** Microseconds of a source frame; the checks are those of the source. */
  function InputPts(f: Frame): Result<int> {
    if f.pts == INT64_MIN then Err(InvalidArgument) else Rescale(f.pts, f.timeBase, MICROSECONDS)
  }

  /** What becomes of the item looked at: it stays in front, is dropped as late, or goes to the worker. */
  datatype Fate = Keep | Drop | Give

  /** The fate of the source's next item, and the realtime mapping after looking at it. */
  function Judge(c: RealtimeTiming.Config, offset: Option<int>, item: Head, now: int): (Result<Fate>, Option<int>) {
    match item
    case Eof => (Ok(Give), offset)
    case Decoded(f) =>
      match InputPts(f)
      case Err(e) => (Err(e), offset)
      case Ok(pts) =>
        var decided := RealtimeTiming.Decide(c, offset, pts, now);
        (match decided.decision
         case Err(e) => Err(e)
         case Ok(Discard) => Ok(Drop)
         case Ok(WaitUntil(_)) => Ok(Keep)
         case Ok(Release) => Ok(Give),
         decided.offset)
  }

  /** The frame's time on exact microseconds, for a timestamp of 64 bits. */
  ghost predicate TimeOf(f: Frame, pts: int) {
    f.pts >= INT64_MIN ==> pts == Scaled(f.pts, f.timeBase, MICROSECONDS)
  }

  /** The fate of a frame due at `pts` under a mapping. */
  ghost predicate FateOf(c: RealtimeTiming.Config, fate: Fate, offset: Option<int>, pts: int, now: int) {
    && (fate.Drop? <==> RealtimeTiming.InLateBand(c, offset, pts, now))
    && (fate.Keep? <==> RealtimeTiming.Early(c, offset, pts, now))
    && (fate.Give? <==> RealtimeTiming.Decide(c, offset, pts, now).decision == Ok(RealtimeTiming.Release))
  }

  /** The lead of a frame decides its fate, and an end always goes to the worker. */
  lemma JudgedByLead(c: RealtimeTiming.Config, offset: Option<int>, item: Head, now: int)
    requires c.Valid() && Judge(c, offset, item, now).0.Ok?
    ensures var (fate, after) := Judge(c, offset, item, now);
            match item
            case Eof => fate.value.Give? && after == offset
            case Decoded(f) =>
              && InputPts(f).Ok? && TimeOf(f, InputPts(f).value)
              && FateOf(c, fate.value, offset, InputPts(f).value, now)
              && after == RealtimeTiming.Decide(c, offset, InputPts(f).value, now).offset
  {
    hide RealtimeTiming.Decide;
    if item.Decoded? {
      RealtimeTiming.DecidedByLead(c, offset, InputPts(item.frame).value, now);
    }
  }

  datatype Prepared = Idle | Continued | Read(fate: Fate, item: Head) | NothingToRead

  /** Nothing of the track is with the worker or on its way to the synchroniser. */
  predicate Free(s: Slot) {
    !s.busy && !s.completed && s.head.None?
  }

  /**
   * One look of the driver at a track without a head: continue the worker, or feed it the next due source item.
   * `arriving` is what the source would return if read.
   */
  function Prepare(c: RealtimeTiming.Config, s: Slot, offset: Option<int>, arriving: Option<Head>, now: int)
    : (Result<Prepared>, Slot, Option<int>)
  {
    if !Free(s) then (Ok(Idle), s, offset)
    else if !s.needsInput then (Ok(Continued), Dispatched(s, None), offset)
    else
      var item := if s.sourceHead.Some? then s.sourceHead else arriving;
      if item.None? then (Ok(NothingToRead), s, offset)
      else
        var (fate, after) := Judge(c, offset, item.value, now);
        match fate
        case Err(e) => (Err(e), s.(sourceHead := item), after)
        case Ok(Keep) => (Ok(Read(Keep, item.value)), s.(sourceHead := item), after)
        case Ok(Drop) => (Ok(Read(Drop, item.value)), s.(sourceHead := None), after)
        case Ok(Give) => (Ok(Read(Give, item.value)), Dispatched(s, item).(sourceHead := None), after)
  }

  /** The driver leaves a track alone while it waits for room, or for the time the synchroniser named. */
  predicate Resting(s: Slot, now: int, space: nat) {
    if s.outputBlocked then space == s.blockedRevision && now < s.outputRetry else now < s.syncerWake
  }

  /** A parked output is offered again when room appears, or after 20 ms; otherwise the synchroniser names the time. */
  lemma RestsAsLongAsAsked(s: Slot, o: Outcome, space: nat, later: int, now: int, sampled: nat)
    ensures Resting(Delivered(s, o, space, later), now, sampled) <==>
              if o.blocked then sampled == space && now < later + 20000 else now < o.wake
  {
  }

  /** A fresh head is shown to the synchroniser at once, unless an output is parked. */
  lemma FreshHeadIsShown(s: Slot, now: int, later: int, space: nat)
    requires s.completed && s.result.Some? && now <= later && Resting(Completed(s, now), later, space)
    ensures s.outputBlocked && space == s.blockedRevision && later < s.outputRetry
  {
  }

  /** `space` is the capacity revision sampled before the step, `later` the time after it. */
  function Delivered(s: Slot, o: Outcome, space: nat, later: int): Slot {
    var t := s.(head := if o.consumed then None else s.head, syncerWake := o.wake, outputBlocked := o.blocked);
    if o.blocked then t.(blockedRevision := space, outputRetry := later + OUTPUT_RETRY_US) else t
  }

  // ----- the worker

  function Taken(s: Slot): Slot {
    s.(task := None, requested := false)
  }

  function Finished(s: Slot, pending: Option<Head>, output: Option<Head>): Slot {
    s.(needsInput := pending.None? && output.None?, result := output, busy := false, completed := true)
  }
}
