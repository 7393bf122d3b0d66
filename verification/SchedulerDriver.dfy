/** The driver's and workers' critical sections on the objects they share. */
module SchedulerDriver {
  import opened Results
  import opened TimeMath
  import opened SchedulerSlot
  import R = SyncerRules
  import RealtimeTiming
  import SyncerTiming

  class Track {
    var busy: bool
    var requested: bool
    var completed: bool
    var task: Option<R.Head>
    var result: Option<R.Head>
    var needsInput: bool
    var sourceHead: Option<R.Head>
    var head: Option<R.Head>
    var syncerWake: int
    var outputBlocked: bool
    var blockedRevision: nat
    var outputRetry: int

    ghost function View(): Slot
      reads this
    {
      Slot(busy, requested, completed, task, result, needsInput, sourceHead, head, syncerWake, outputBlocked,
        blockedRevision, outputRetry)
    }

    constructor ()
      ensures View() == CLEAR
    {
      busy, requested, completed, task, result, needsInput := false, false, false, None, None, true;
      sourceHead, head, syncerWake, outputBlocked, blockedRevision, outputRetry := None, None, 0, false, 0, 0;
    }

    /** The driver collects a finished result; a fresh head ends the source wait. */
    method Complete(now: int)
      modifies this
      ensures View() == Completed(old(View()), now)
    {
      if !completed {
        return;
      }
      head, result, completed := result, None, false;
      if head.Some? {
        syncerWake := now;
      }
    }

    method Dispatch(input: Option<R.Head>)
      modifies this
      ensures View() == Dispatched(old(View()), input)
    {
      task, busy, requested := input, true, true;
    }

    /** Notes the outcome of a step: what is left, and when to come back. */
    method Settle(o: R.Outcome, space: nat, later: int)
      modifies this
      ensures View() == Delivered(old(View()), o, space, later)
    {
      if o.consumed {
        head := None;
      }
      syncerWake, outputBlocked := o.wake, o.blocked;
      if o.blocked {
        blockedRevision, outputRetry := space, later + OUTPUT_RETRY_US;
      }
    }

    /** The worker picks up its request. */
    method TakeTask() returns (input: Option<R.Head>)
      modifies this
      ensures View() == Taken(old(View())) && input == old(task)
    {
      input := task;
      task, requested := None, false;
    }

    /** The worker reports back. */
    method Finish(pending: Option<R.Head>, output: Option<R.Head>)
      modifies this
      ensures View() == Finished(old(View()), pending, output)
    {
      needsInput := pending.None? && output.None?;
      result, busy, completed := output, false, true;
    }
  }

  class Driver {
    const video: Track
    const audio: Track
    const realtime: RealtimeTiming.Clock
    const syncer: SyncerTiming.Syncer

    function TrackOf(isVideo: bool): Track {
      if isVideo then video else audio
    }

    constructor (realtime: RealtimeTiming.Clock, syncer: SyncerTiming.Syncer)
      ensures this.realtime == realtime && this.syncer == syncer && fresh(video) && fresh(audio) && video != audio
      ensures video.View() == CLEAR && audio.View() == CLEAR
    {
      video := new Track();
      audio := new Track();
      this.realtime, this.syncer := realtime, syncer;
    }

    /** Feeds the worker of a track that has no head. Returns the time to look again, if there is one. */
    method Prepare(isVideo: bool, arriving: Option<R.Head>, now: int) returns (wake: Result<Option<int>>)
      requires realtime.config.Valid()
      modifies TrackOf(isVideo), realtime
      ensures var t := TrackOf(isVideo);
              var (prepared, slot, offset) :=
                SchedulerSlot.Prepare(realtime.config, old(t.View()), old(realtime.offset), arriving, now);
              && t.View() == slot && realtime.offset == offset
              && match prepared
                 case Err(e) => wake == Err(e)
                 case Ok(Read(Drop, _)) => wake == Ok(Some(now))
                 case Ok(Read(Keep, item)) =>
                   && item.Decoded? && InputPts(item.frame).Ok? && wake.Ok? && wake.value.Some?
                   && RealtimeTiming.Decide(realtime.config, old(realtime.offset), InputPts(item.frame).value,
                        now).decision
                      == Ok(RealtimeTiming.WaitUntil(wake.value.value))
                 case Ok(_) => wake == Ok(None)
      ensures var t := TrackOf(isVideo);
              var item := if old(t.sourceHead).Some? then old(t.sourceHead) else arriving;
              old(Free(t.View())) && old(t.needsInput) && item.Some? && wake.Ok? ==>
              && (t.busy ==> t.requested && t.task == item && t.sourceHead.None?)
              && (t.sourceHead.Some? ==> t.sourceHead == item)
              && match item.value
                 case Eof => t.busy
                 case Decoded(f) =>
                   exists pts :: TimeOf(f, pts) &&
                     FateOf(realtime.config, if t.busy then Give else if t.sourceHead.None? then Drop else Keep,
                       old(realtime.offset), pts, now)
      ensures old(Free(TrackOf(isVideo).View()) && !TrackOf(isVideo).needsInput) ==>
                TrackOf(isVideo).View() == Dispatched(old(TrackOf(isVideo).View()), None)
    {
      hide InputPts, RealtimeTiming.Decide, RealtimeTiming.Config.Valid, FateOf, TimeOf;
      ghost var item := if TrackOf(isVideo).sourceHead.Some? then TrackOf(isVideo).sourceHead else arriving;
      if item.Some? && Judge(realtime.config, realtime.offset, item.value, now).0.Ok? {
        JudgedByLead(realtime.config, realtime.offset, item.value, now);
      }
      var t := TrackOf(isVideo);
      if t.busy || t.completed || t.head.Some? {
        return Ok(None);
      }
      if !t.needsInput {
        t.Dispatch(None);
        return Ok(None);
      }
      if t.sourceHead.None? {
        t.sourceHead := arriving;
        if t.sourceHead.None? {
          return Ok(None);
        }
      }
      if t.sourceHead.value.Decoded? {
        var pts :- InputPts(t.sourceHead.value.frame);
        var scheduled := realtime.Schedule(pts, now);
        var decision :- scheduled;
        match decision
        case Discard =>
          t.sourceHead := None;
          return Ok(Some(now));
        case WaitUntil(deadline) => return Ok(Some(deadline));
        case Release =>
      }
      t.Dispatch(t.sourceHead);
      t.sourceHead := None;
      return Ok(None);
    }

    /**
     * Steps the synchroniser with the track's head unless the track is resting. `space` is the capacity revision read
     * first.
     */
    method Deliver(isVideo: bool, now: int, space: nat, later: int, accept: bool) returns (r: Result<Option<R.Outcome>>)
      requires syncer.Linked()
      requires var t := syncer.timing.TrackOf(isVideo).View();
               R.Sane(t) && R.HeadRetained(t, TrackOf(isVideo).head)
      modifies TrackOf(isVideo), syncer.timing.TrackOf(isVideo), syncer.timing.clock
      ensures var t, lane := TrackOf(isVideo), old(syncer.timing.Lane(syncer.timing.TrackOf(isVideo)));
              if Resting(old(t.View()), now, space) then
                r == Ok(None) && t.View() == old(t.View()) && syncer.timing.Lane(syncer.timing.TrackOf(isVideo)) == lane
              else if R.Check(syncer.config, isVideo, old(t.head), now).Err? then r.Err?
              else match R.Step(syncer.config, isVideo, lane, old(t.head), now, accept)
                case Err(e) => r == Err(e)
                case Ok((after, o)) =>
                  && r == Ok(Some(o)) && t.View() == Delivered(old(t.View()), o, space, later)
                  && syncer.timing.Lane(syncer.timing.TrackOf(isVideo)) == after
    {
      hide R.Step, R.Check, R.Sane, R.HeadRetained, Delivered;
      var t := TrackOf(isVideo);
      if t.outputBlocked && space == t.blockedRevision && now < t.outputRetry {
        return Ok(None);
      }
      if !t.outputBlocked && now < t.syncerWake {
        return Ok(None);
      }
      var stepped := syncer.Step(isVideo, t.head, now, accept);
      var o :- stepped;
      t.Settle(o, space, later);
      return Ok(Some(o));
    }
  }
}
