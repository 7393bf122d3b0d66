/** The synchroniser's objects: two tracks and a shared clock, updated in place one step at a time. */
module SyncerTiming {
  import opened Results
  import opened TimeMath
  import R = SyncerRules

  class ContinuityClock {
    const start: int
    var shift: Option<int>
    var pts: Option<int>
    var wall: int

    ghost function View(): R.Clock
      reads this
    {
      R.Clock(shift, pts, wall)
    }

    constructor (start: int)
      ensures this.start == start && View() == R.Clock(None, None, 0)
    {
      this.start := start;
      shift, pts, wall := None, None, 0;
    }

    /** Holds the last advancing timestamp for two seconds, then extrapolates. */
    method Now(now: int) returns (r: Result<int>)
      modifies this
      ensures View() == R.Started(old(View()), start, now)
      ensures r == R.Reading(View(), now)
    {
      if pts.None? {
        Update(start, now);
      }
      var elapsed :- R.Subtract(now, wall);
      return if elapsed < R.HOLD_US then Ok(pts.value) else Checked(pts.value + elapsed);
    }

    method Update(p: int, now: int)
      modifies this
      ensures View() == R.Updated(old(View()), p, now)
    {
      if pts.None? || p > pts.value {
        pts, wall := Some(p), now;
      }
    }
  }

  class Track {
    var timeBase: TimeBase
    var next: Option<int>
    var shift: Option<int>
    var lastReal: Option<nat>
    var lastRealPts: int
    var lastSuccess: bool
    var hasOutput: bool
    var waitUntil: int
    var tryWithoutFilling: bool
    var fillUntil: Option<int>
    var forwardFill: bool
    var filled: int
    var filledUs: int
    var pendingRealPts: Option<int>
    var suspendedUntil: int

    ghost function View(): R.Track
      reads this
    {
      R.Track(timeBase, next, shift, lastReal, lastRealPts, lastSuccess, hasOutput, waitUntil, tryWithoutFilling,
              fillUntil, forwardFill, filled, filledUs, pendingRealPts, suspendedUntil)
    }

    constructor (timeBase: TimeBase, next: Option<int>, waitUntil: int)
      ensures View() == R.Fresh(timeBase, next, waitUntil)
    {
      this.timeBase, this.next, this.waitUntil := timeBase, next, waitUntil;
      shift, lastReal, lastRealPts, lastSuccess, hasOutput := None, None, 0, true, false;
      tryWithoutFilling, fillUntil, forwardFill, filled, filledUs := false, None, false, 0, 0;
      pendingRealPts, suspendedUntil := None, 0;
    }

    method ChangeTimeBase(to: TimeBase) returns (r: Result<()>)
      modifies this
      ensures match R.ChangeTimeBase(old(View()), to)
              case Err(e) => r == Err(e)
              case Ok(after) => r == Ok(()) && View() == after
    {
      hide Rescale;
      next :- R.Converted(next, timeBase, to);
      shift :- R.Converted(shift, timeBase, to);
      fillUntil :- R.Converted(fillUntil, timeBase, to);
      pendingRealPts :- R.Converted(pendingRealPts, timeBase, to);
      if lastReal.Some? {
        lastRealPts :- Rescale(lastRealPts, timeBase, to);
      }
      timeBase := to;
      return Ok(());
    }

    method BeginFill(target: int, forward: bool)
      modifies this
      ensures View() == R.BeginFill(old(View()), target, forward)
    {
      fillUntil, forwardFill, filled, filledUs := Some(target), forward, 0, 0;
    }

    method AcceptFiller(end: int, totalUs: int)
      modifies this
      ensures View() ==
        old(View()).(next := Some(end), hasOutput := true, filled := old(filled) + 1, filledUs := totalUs)
    {
      next, hasOutput, filled, filledUs := Some(end), true, filled + 1, totalUs;
    }

    method Accept(picture: Option<nat>, pts: int, end: int, wait: int)
      modifies this
      ensures View() == old(View()).(next := Some(end), hasOutput := true, lastReal := picture, lastRealPts := pts,
                                     lastSuccess := true, waitUntil := wait, pendingRealPts := None)
    {
      next, hasOutput, lastReal, lastRealPts := Some(end), true, picture, pts;
      lastSuccess, waitUntil, pendingRealPts := true, wait, None;
    }

    /** Ends a forward batch: the real frame waits at the next position. */
    method Park(until: int)
      modifies this
      ensures View() ==
        old(View()).(tryWithoutFilling := true, pendingRealPts := old(next), suspendedUntil := until, fillUntil := None)
    {
      tryWithoutFilling, pendingRealPts, suspendedUntil, fillUntil := true, next, until, None;
    }
  }

  /** After a step that raised no exception the objects are where the rules put them. */
  ghost predicate Follows<T>(rule: Result<(R.Lane, T)>, r: Result<T>, lane: R.Lane) {
    match rule
    case Err(e) => r == Err(e)
    case Ok((after, value)) => r == Ok(value) && lane == after
  }

  class SyncerTiming {
    const config: R.Config
    const clock: ContinuityClock
    const video: Track
    const audio: Track

    ghost predicate Linked()
      reads this
    {
      video != audio && clock.start == config.start
    }

    ghost function Lane(t: Track): R.Lane
      reads t, clock
    {
      R.Lane(t.View(), clock.View())
    }

    function TrackOf(isVideo: bool): Track {
      if isVideo then video else audio
    }

    constructor (config: R.Config, videoNext: Option<int>, audioNext: Option<int>)
      ensures this.config == config && Linked() && fresh(clock) && fresh(video) && fresh(audio)
      ensures clock.View() == R.NEW_CLOCK
      ensures video.View() == R.Fresh(R.TrackTimeBase(config, true), videoNext, config.initialTimeout)
      ensures audio.View() == R.Fresh(R.TrackTimeBase(config, false), audioNext, config.initialTimeout)
    {
      this.config := config;
      clock := new ContinuityClock(config.start);
      video := new Track(R.TrackTimeBase(config, true), videoNext, config.initialTimeout);
      audio := new Track(R.TrackTimeBase(config, false), audioNext, config.initialTimeout);
    }

    /** Lets one track make progress; touches neither the other track nor the head. */
    method Step(isVideo: bool, head: Option<R.Head>, now: int, accept: bool) returns (r: Result<R.Outcome>)
      requires Linked() && R.Sane(TrackOf(isVideo).View()) && R.HeadRetained(TrackOf(isVideo).View(), head)
      modifies TrackOf(isVideo), clock
      ensures Follows(R.Step(config, isVideo, old(Lane(TrackOf(isVideo))), head, now, accept), r,
        Lane(TrackOf(isVideo)))
    {
      hide R.Fill, R.Correct, R.TimedOut;
      var t := TrackOf(isVideo);
      if t.fillUntil.Some? {
        r := Fill(t, isVideo, head, now, accept);
        return;
      }
      if t.pendingRealPts.Some? {
        if now < t.suspendedUntil {
          return Ok(R.Outcome(false, None, t.suspendedUntil, false));
        }
        t.pendingRealPts := None;
        r := Correct(t, isVideo, head.value.frame, now, accept);
        return;
      }
      if head.Some? {
        if head.value.Eof? {
          return Ok(R.Outcome(true, None, now, false));
        }
        r := Correct(t, isVideo, head.value.frame, now, accept);
        return;
      }
      if now < t.waitUntil {
        return Ok(R.Outcome(false, None, t.waitUntil, false));
      }
      r := TimedOut(t, isVideo, now, accept);
    }

    /** Without input, fills up to the shared clock once the track is late. */
    method TimedOut(t: Track, isVideo: bool, now: int, accept: bool) returns (r: Result<R.Outcome>)
      requires Linked() && R.Sane(t.View()) && t.fillUntil.None? && t.pendingRealPts.None?
      modifies t, clock
      ensures Follows(R.TimedOut(config, isVideo, old(Lane(t)), now, accept), r, Lane(t))
    {
      hide Rescale, R.Fill, R.Started, R.Reading, R.Late, R.FromUs, Checked;
      var reading := clock.Now(now);
      var rtc :- reading;
      if t.next.None? {
        var start :- R.FromUs(config.start, t.timeBase);
        t.next := Some(start);
      }
      var fill :- R.Late(config, t.lastSuccess, t.timeBase, rtc, t.next.value);
      t.lastSuccess := false;
      t.waitUntil :- Checked(now + R.POLL_US);
      var target :- R.FromUs(rtc, t.timeBase);
      if fill && t.next.value < target {
        t.BeginFill(target, false);
        r := Fill(t, isVideo, None, now, accept);
        return;
      }
      return Ok(R.Outcome(false, None, t.waitUntil, false));
    }

    /** Maps the frame onto the shared timeline and offers it, or starts to bridge the gap before it. */
    method Correct(t: Track, isVideo: bool, f: R.Frame, now: int, accept: bool) returns (r: Result<R.Outcome>)
      requires Linked() && R.Sane(t.View()) && t.fillUntil.None? && t.pendingRealPts.None?
      modifies t, clock
      ensures Follows(R.Correct(config, isVideo, old(Lane(t)), f, now, accept), r, Lane(t))
    {
      hide Rescale, R.Follow, R.Real, R.Anchor, R.Adopt, R.ChangeTimeBase, SameRational;
      if isVideo && !SameRational(t.timeBase, f.timeBase) {
        var changed := t.ChangeTimeBase(f.timeBase);
        var _ :- changed;
      }
      assert R.Rebased(isVideo, old(t.View()), f) == Ok(t.View());
      RebasedIsSettled(isVideo, old(t.View()), f);
      var original :- Rescale(f.pts, f.timeBase, t.timeBase);
      if clock.shift.None? {
        var anchored := Anchor(t, original, now);
        var pts :- anchored;
        r := Real(t, isVideo, f, pts, now, accept);
      } else {
        var adopted := Adopt(t);
        var desync :- adopted;
        var pts :- Checked(original + t.shift.value);
        r := Follow(t, isVideo, desync, f, original, pts, now, accept);
      }
    }

    method Anchor(t: Track, original: int, now: int) returns (r: Result<int>)
      requires Linked() && (t.hasOutput ==> t.next.Some?)
      modifies t, clock
      ensures Follows(R.Anchor(config, old(Lane(t)), original, now), r, Lane(t))
    {
      hide Rescale, R.Reading, R.Started, R.ToUs, R.FromUs, R.Subtract;
      var reading := clock.Now(now);
      var us :- reading;
      var pts :- R.FromUs(us, t.timeBase);
      if t.hasOutput {
        pts := Max(pts, t.next.value);
      }
      var shift :- R.Subtract(pts, original);
      var shared :- R.ToUs(shift, t.timeBase);
      t.shift := Some(shift);
      clock.shift := Some(shared);
      return Ok(pts);
    }

    method Adopt(t: Track) returns (r: Result<bool>)
      requires clock.shift.Some?
      modifies t
      ensures match R.Adopt(config, old(t.View()), clock.shift.value)
              case Err(e) => r == Err(e)
              case Ok((after, desync)) => r == Ok(desync) && t.View() == after
    {
      hide Rescale, R.Desync, R.FromUs;
      var desync :- R.Desync(config, t.shift, t.timeBase, clock.shift.value);
      if t.shift.None? || desync {
        var local :- R.FromUs(clock.shift.value, t.timeBase);
        t.shift := Some(local);
      }
      return Ok(desync);
    }

    method Follow(t: Track, isVideo: bool, desync: bool, f: R.Frame, original: int, pts: int, now: int, accept: bool)
      returns (r: Result<R.Outcome>)
      requires t.shift.Some? && t.fillUntil.None? && t.pendingRealPts.None?
      modifies t, clock
      ensures Follows(R.Follow(config, isVideo, old(Lane(t)), desync, f, original, pts, now, accept), r, Lane(t))
    {
      hide Rescale, R.Fill, R.Real, R.Adjust, R.ToUs, R.Apart;
      var jump :- R.Jumps(config, t.next, t.timeBase, pts);
      if jump && pts > t.next.value {
        if t.tryWithoutFilling {
          r := Suspend(t, original, now);
        } else {
          t.BeginFill(pts, true);
          r := Fill(t, isVideo, Some(R.Decoded(f)), now, accept);
        }
        return;
      }
      if jump {
        var adjusted := Adjust(t, original);
        var _ :- adjusted;
        r := Real(t, isVideo, f, t.next.value, now, accept);
        return;
      }
      if desync {
        var shared :- R.ToUs(t.shift.value, t.timeBase);
        clock.shift := Some(shared);
      }
      r := Real(t, isVideo, f, pts, now, accept);
    }

    /** After a filled jump, a further one only moves the shift and waits a millisecond. */
    method Suspend(t: Track, original: int, now: int) returns (r: Result<R.Outcome>)
      requires t.next.Some?
      modifies t, clock
      ensures Follows(R.Suspend(old(Lane(t)), original, now), r, Lane(t))
    {
      hide R.Adjust;
      t.tryWithoutFilling := false;
      var adjusted := Adjust(t, original);
      var _ :- adjusted;
      t.pendingRealPts := t.next;
      t.suspendedUntil :- Checked(now + R.SUSPENSION_US);
      return Ok(R.Outcome(false, None, t.suspendedUntil, false));
    }

    method Adjust(t: Track, original: int) returns (r: Result<()>)
      requires t.next.Some?
      modifies t, clock
      ensures match R.Adjust(old(Lane(t)), original)
              case Err(e) => r == Err(e)
              case Ok(after) => r == Ok(()) && Lane(t) == after
    {
      hide Rescale;
      var shift :- R.Subtract(t.next.value, original);
      t.shift := Some(shift);
      var shared :- R.ToUs(shift, t.timeBase);
      clock.shift := Some(shared);
      return Ok(());
    }

    /** Offers the real frame; only an accepted one advances the track. */
    method Real(t: Track, isVideo: bool, f: R.Frame, pts: int, now: int, accept: bool) returns (r: Result<R.Outcome>)
      modifies t, clock
      ensures Follows(R.Real(config, isVideo, old(Lane(t)), f, pts, now, accept), r, Lane(t))
    {
      hide R.ToUs, R.Updated, R.VideoDuration, Checked;
      var duration :- if isVideo then R.VideoDuration(config, t.timeBase) else Ok(f.samples);
      var us :- R.ToUs(pts, t.timeBase);
      clock.Update(us, now);
      if !accept {
        return Ok(R.Outcome(false, None, now, true));
      }
      var next :- Checked(pts + duration);
      var waitUntil :- Checked(now + config.timeout);
      t.Accept(if isVideo then Some(f.picture) else t.lastReal, pts, next, waitUntil);
      return Ok(R.Outcome(true, Some(R.Output(R.Input(f.picture), pts, duration, t.timeBase)), now, false));
    }

    /** Offers one filler at the next position. */
    method Fill(t: Track, isVideo: bool, head: Option<R.Head>, now: int, accept: bool) returns (r: Result<R.Outcome>)
      requires R.Filling(t.View()) && R.HeadRetained(t.View(), head)
      modifies t, clock
      ensures Follows(R.Fill(config, isVideo, old(Lane(t)), head, now, accept), r, Lane(t))
    {
      hide R.ToUs, R.VideoDuration, R.FillerSource, R.Subtract, R.FinishFill, Checked;
      var pts := t.next.value;
      var missing :- R.Subtract(t.fillUntil.value, pts);
      var source :- R.FillerSource(config, isVideo, t.timeBase, pts, t.lastReal, t.lastRealPts);
      var duration :- if isVideo then R.VideoDuration(config, t.timeBase) else Ok(Min(R.SILENCE_SAMPLES, missing));
      var wake := now;
      if !accept {
        var ended := FinishFill(t, head, pts, now, true);
        wake :- ended;
        return Ok(R.Outcome(false, None, wake, true));
      }
      var output := R.Output(source, pts, duration, t.timeBase);
      var next :- Checked(pts + duration);
      var us :- R.ToUs(duration, t.timeBase);
      var filledUs :- Checked(t.filledUs + us);
      t.AcceptFiller(next, filledUs);
      if next >= t.fillUntil.value || t.filled == R.MAX_FILLERS {
        var ended := FinishFill(t, head, pts, now, false);
        wake :- ended;
      }
      return Ok(R.Outcome(false, Some(output), wake, false));
    }

    method FinishFill(t: Track, head: Option<R.Head>, lastPts: int, now: int, blocked: bool) returns (r: Result<int>)
      requires t.next.Some? && t.fillUntil.Some? && R.HeadRetained(t.View(), head)
      modifies t, clock
      ensures Follows(R.FinishFill(old(Lane(t)), head, lastPts, now, blocked), r, Lane(t))
    {
      hide Rescale, R.Adjust, R.ToUs, R.Updated, Checked;
      var wake;
      if t.forwardFill {
        if t.filled == R.MAX_FILLERS || blocked {
          var us :- R.ToUs(lastPts, t.timeBase);
          clock.Update(us, now);
        }
        var original :- Rescale(head.value.frame.pts, head.value.frame.timeBase, t.timeBase);
        var adjusted := Adjust(t, original);
        var _ :- adjusted;
        wake :-
          if t.filled == R.MAX_FILLERS && !blocked then Checked(now + Max(R.SUSPENSION_US, t.filledUs / 2))
            else Ok(now);
        t.Park(wake);
      } else {
        if blocked {
          t.waitUntil := now;
        }
        wake := if head.Some? then now else t.waitUntil;
        t.fillUntil := None;
      }
      return Ok(wake);
    }
  }

  lemma RebasedIsSettled(video: bool, t: R.Track, f: R.Frame)
    requires R.Rebased(video, t, f).Ok? && R.Sane(t) && t.fillUntil.None? && t.pendingRealPts.None?
    ensures var after := R.Rebased(video, t, f).value;
            && (after.hasOutput ==> after.next.Some?) && after.fillUntil.None? && after.pendingRealPts.None?
  {
    hide Rescale;
  }

  /** Starts a session's timing; fails when the start position has no representable timestamp. */
  method Start(config: R.Config) returns (r: Result<SyncerTiming>)
    ensures r.Ok? ==>
      && fresh(r.value) && r.value.config == config && r.value.Linked()
      && fresh(r.value.clock) && fresh(r.value.video) && fresh(r.value.audio)
      && r.value.clock.View() == R.NEW_CLOCK
      && (forall isVideo :: R.FirstPosition(config, isVideo).Ok?
            && r.value.TrackOf(isVideo).View()
               == R.Fresh(R.TrackTimeBase(config, isVideo), R.FirstPosition(config, isVideo).value,
                 config.initialTimeout))
    ensures r.Err? <==> R.FirstPosition(config, true).Err? || R.FirstPosition(config, false).Err?
  {
    var videoNext :- R.FirstPosition(config, true);
    var audioNext :- R.FirstPosition(config, false);
    var timing := new SyncerTiming(config, videoNext, audioNext);
    return Ok(timing);
  }

  /** The facade callers use: it checks its arguments, then steps the timing. */
  class Syncer {
    const config: R.Config
    var timing: SyncerTiming

    ghost predicate Linked()
      reads this, timing
    {
      timing.Linked() && timing.config == config
    }

    constructor (timing: SyncerTiming)
      requires timing.Linked()
      ensures this.timing == timing && config == timing.config && Linked()
    {
      config, this.timing := timing.config, timing;
    }

    method Step(isVideo: bool, head: Option<R.Head>, now: int, accept: bool) returns (r: Result<R.Outcome>)
      requires Linked() && R.Sane(timing.TrackOf(isVideo).View()) &&
        R.HeadRetained(timing.TrackOf(isVideo).View(), head)
      modifies timing.TrackOf(isVideo), timing.clock
      ensures var check, track := R.Check(config, isVideo, head, now), timing.TrackOf(isVideo);
              if check.Err? then r == Err(check.error) && timing.Lane(track) == old(timing.Lane(track))
              else Follows(R.Step(config, isVideo, old(timing.Lane(track)), head, now, accept), r, timing.Lane(track))
    {
      hide R.Step, R.CheckHead;
      if !(if isVideo then config.hasVideo else config.hasAudio) {
        return Err(InvalidArgument);
      }
      if now < 0 {
        return Err(InvalidArgument);
      }
      if head.Some? {
        var _ :- R.CheckHead(config, isVideo, head.value);
      }
      r := timing.Step(isVideo, head, now, accept);
    }

    /** Starts a new timeline on the same configuration. */
    method Reset() returns (r: Result<()>)
      requires Linked()
      modifies this
      ensures Linked()
      ensures r.Ok? <==> R.FirstPosition(config, true).Ok? && R.FirstPosition(config, false).Ok?
      ensures r.Err? ==> timing == old(timing)
      ensures r.Ok? ==> fresh(timing) && timing.clock.View() == R.NEW_CLOCK
    {
      hide Rescale;
      var made := Start(config);
      timing :- made;
      return Ok(());
    }
  }
}
