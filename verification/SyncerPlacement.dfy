/** Where the frames of a session go, how long they last, and how a batch of fillers ends. */
module SyncerPlacement {
  import opened Results
  import opened TimeMath
  import opened SyncerRules
  import opened SyncerContinuity
  import opened SyncerRuns
  import opened SyncerClock

  // ----- fillers

  /** A video frame lasts one frame of the configured rate. */
  ghost function FrameDuration(c: Config, tb: TimeBase): int {
    Scaled(1, Inverse(c.frameRate), tb)
  }

  /** The last real picture is younger than the freeze time. */
  ghost predicate Freezes(c: Config, t: Track, pts: int) {
    && t.lastReal.Some? && ToUs(pts, t.timeBase).Ok? && ToUs(t.lastRealPts, t.timeBase).Ok?
    && ToUs(pts, t.timeBase).value - ToUs(t.lastRealPts, t.timeBase).value < c.freeze
  }

  /**
   * An accepted filler starts at the next position. For video it lasts one frame and shows the last picture while that
   * is young enough, else the standby picture; for audio it is at most 1024 samples of silence, and never more than is
   * missing. The batch goes on exactly while its aim is not reached and fewer than five were put out.
   */
  lemma FillerIsShaped(c: Config, video: bool, l: Lane, head: Option<Head>, now: int)
    requires Filling(l.track) && HeadRetained(l.track, head) && Fill(c, video, l, head, now, true).Ok?
    ensures var t, (after, o) := l.track, Fill(c, video, l, head, now, true).value;
            && o.output.Some? && o.output.value.pts == t.next.value && o.output.value.timeBase == t.timeBase
            && var out := o.output.value;
            && out.duration == (
                 if video then FrameDuration(c, t.timeBase) else Min(1024, t.fillUntil.value - t.next.value))
            && out.source == (
                 if !video then Silence
                 else if Freezes(c, t, out.pts) then Frozen(t.lastReal.value) else Backup)
            && after.track.filled == t.filled + 1
            && after.track.fillUntil ==
               if End(out) < t.fillUntil.value && t.filled + 1 < 5 then t.fillUntil else None
  {
    hide Rescale, FinishFill;
    var t, pts := l.track, l.track.next.value;
    var missing := Subtract(t.fillUntil.value, pts).value;
    var duration := if video then VideoDuration(c, t.timeBase).value else Min(SILENCE_SAMPLES, missing);
    var us := ToUs(duration, t.timeBase).value;
    var filled :=
      t.(next := Some(pts + duration), hasOutput := true, filled := t.filled + 1, filledUs := t.filledUs + us);
    if video {
      RescaledOne(c, t.timeBase);
    }
    if pts + duration >= t.fillUntil.value || filled.filled == MAX_FILLERS {
      FinishEnds(l.(track := filled), head, pts, now, false);
      FinishCounts(l.(track := filled), head, pts, now);
    }
  }

  lemma RescaledOne(c: Config, tb: TimeBase)
    requires VideoDuration(c, tb).Ok?
    ensures VideoDuration(c, tb).value == FrameDuration(c, tb) > 0
  {
  }

  lemma FinishCounts(l: Lane, head: Option<Head>, lastPts: int, now: int)
    requires l.track.next.Some? && l.track.fillUntil.Some? && HeadRetained(l.track, head)
    requires FinishFill(l, head, lastPts, now, false).Ok?
    ensures FinishFill(l, head, lastPts, now, false).value.0.track.filled == l.track.filled
  {
    hide Rescale;
  }

  /**
   * After a full batch before a jump the track rests for half the time it has filled, and for a millisecond at least;
   * after any other batch before a jump not at all. Either way its next look takes the frame as it then comes: the
   * shifts are those that put it at the next position.
   */
  lemma FullBatchRests(c: Config, video: bool, l: Lane, f: Frame, now: int)
    requires Filling(l.track) && l.track.forwardFill && Fill(c, video, l, Some(Decoded(f)), now, true).Ok?
    requires Fill(c, video, l, Some(Decoded(f)), now, true).value.0.track.fillUntil.None?
    ensures var t, (after, o) := l.track, Fill(c, video, l, Some(Decoded(f)), now, true).value;
            var us := ToUs(o.output.value.duration, t.timeBase);
            && us.Ok?
            && o.wake == after.track.suspendedUntil == (
                 if t.filled + 1 == 5 then now + Max(1000, (t.filledUs + us.value) / 2) else now)
            && after.track.pendingRealPts == after.track.next && after.track.tryWithoutFilling
            && Rescale(f.pts, f.timeBase, t.timeBase).Ok? && Republished(t.timeBase, after, f, o.output.value)
  {
    hide Rescale, FillerSource, VideoDuration;
  }

  /** The frame would start where this output ends. */
  ghost predicate Republished(tb: TimeBase, after: Lane, f: Frame, out: Output)
    requires Rescale(f.pts, f.timeBase, tb).Ok?
  {
    && after.track.shift == Some(End(out) - Rescale(f.pts, f.timeBase, tb).value)
    && ToUs(after.track.shift.value, tb).Ok? && after.clock.shift == Some(ToUs(after.track.shift.value, tb).value)
  }

  /** A video track in a new time base keeps every position it remembers, converted. */
  lemma RebasedConverts(video: bool, t: Track, f: Frame)
    requires Rebased(video, t, f).Ok? && Idle(t)
    ensures var after := Rebased(video, t, f).value;
            if video && !SameRational(t.timeBase, f.timeBase) then
              && after.timeBase == f.timeBase
              && ConvertedTo(t.next, after.next, t.timeBase, f.timeBase)
              && ConvertedTo(t.shift, after.shift, t.timeBase, f.timeBase)
              && (t.lastReal.Some? ==> Rescale(t.lastRealPts, t.timeBase, f.timeBase) == Ok(after.lastRealPts))
              && after.lastReal == t.lastReal && after.waitUntil == t.waitUntil && after.lastSuccess == t.lastSuccess
              && after.tryWithoutFilling == t.tryWithoutFilling && after.hasOutput == t.hasOutput && Idle(after)
            else after == t
  {
    hide Rescale;
  }

  ghost predicate ConvertedTo(before: Option<int>, after: Option<int>, from: TimeBase, to: TimeBase) {
    if before.None? then after.None? else after.Some? && Rescale(before.value, from, to) == Ok(after.value)
  }

  // ----- real frames on a shared timeline

  /** A real frame lasts one frame of the configured rate, or its samples. */
  ghost predicate Lasts(c: Config, video: bool, f: Frame, out: Output) {
    out.duration == if video then FrameDuration(c, out.timeBase) else f.samples
  }

  lemma RealLasts(c: Config, video: bool, l: Lane, f: Frame, pts: int, now: int)
    requires Real(c, video, l, f, pts, now, true).Ok?
    ensures var o := Real(c, video, l, f, pts, now, true).value.1;
      o.output.Some? && Lasts(c, video, f, o.output.value)
  {
    hide Rescale;
    if video {
      RescaledOne(c, l.track.timeBase);
    }
  }

  /** The track's shift is further from the shared one than the tolerance. */
  ghost predicate Drifted(c: Config, t: Track, shared: int) {
    && t.shift.Some? && ToUs(t.shift.value, t.timeBase).Ok?
    && Abs(ToUs(t.shift.value, t.timeBase).value - shared) > c.maxStreamsDiff
  }

  /** The position the shared timeline gives a frame: by the track's own shift, unless that has drifted. */
  ghost predicate MapsTo(c: Config, t: Track, shared: int, f: Frame, shift: int, pts: int) {
    && Rescale(f.pts, f.timeBase, t.timeBase).Ok?
    && pts == Rescale(f.pts, f.timeBase, t.timeBase).value + shift
    && if t.shift.None? || Drifted(c, t, shared) then FromUs(shared, t.timeBase) == Ok(shift)
         else t.shift == Some(shift)
  }

  ghost predicate Near(c: Config, t: Track, pts: int) {
    t.next.None? || pts == t.next.value || Within(c, pts, t.next.value, t.timeBase)
  }

  /** The shift that puts a frame at the next position is the track's and the shared one. */
  ghost predicate ShiftedToNext(t: Track, f: Frame, after: Lane) {
    && t.next.Some? && Rescale(f.pts, f.timeBase, t.timeBase).Ok?
    && after.track.shift == Some(t.next.value - Rescale(f.pts, f.timeBase, t.timeBase).value)
    && ToUs(after.track.shift.value, t.timeBase).Ok?
    && after.clock.shift == Some(ToUs(after.track.shift.value, t.timeBase).value)
  }

  /** What becomes of a frame the shared timeline maps to `pts`. */
  ghost predicate PlacedAsMapped(c: Config, video: bool, t: Track, shared: int, f: Frame, shift: int, pts: int,
    now: int, after: Lane, o: Outcome)
  {
    if Near(c, t, pts) then
      && o.output.Some? && o.output.value.source == Input(f.picture) && o.output.value.pts == pts
      && Lasts(c, video, f, o.output.value)
      && after.track.shift == Some(shift)
      && (if Drifted(c, t, shared)
          then ToUs(shift, t.timeBase).Ok? && after.clock.shift == Some(ToUs(shift, t.timeBase).value)
          else after.clock.shift == Some(shared))
    else if pts < t.next.value then
      && o.output.Some? && o.output.value.source == Input(f.picture) && o.output.value.pts == t.next.value
      && Lasts(c, video, f, o.output.value)
      && ShiftedToNext(t, f, after)
    else if !t.tryWithoutFilling then
      && o.output.Some? && !o.output.value.source.Input? && o.output.value.pts == t.next.value
      && after.track.fillUntil in {None, Some(pts)} && after.track.forwardFill
    else
      && o == Outcome(false, None, now + 1000, false) && after.track.suspendedUntil == now + 1000
      && after.track.pendingRealPts == t.next && !after.track.tryWithoutFilling && ShiftedToNext(t, f, after)
  }

  lemma FollowAsMapped(c: Config, video: bool, l: Lane, before: Track, shared: int, f: Frame, pts: int, now: int)
    requires l.track.shift.Some? && l.track.fillUntil.None? && l.track.pendingRealPts.None?
    requires l.track == before.(shift := l.track.shift) && l.clock.shift == Some(shared)
    requires MapsTo(c, before, shared, f, l.track.shift.value, pts) && Sane(l.track) && (video || f.samples > 0)
    requires var original := Rescale(f.pts, f.timeBase, before.timeBase).value;
             Follow(c, video, l, Drifted(c, before, shared), f, original, pts, now, true).Ok?
    ensures var original := Rescale(f.pts, f.timeBase, before.timeBase).value;
            var (after, o) := Follow(c, video, l, Drifted(c, before, shared), f, original, pts, now, true).value;
            PlacedAsMapped(c, video, before, shared, f, l.track.shift.value, pts, now, after, o)
  {
    hide Rescale, Fill, Real, Sane, Drifted, Jumps, Within;
    var t := l.track;
    var original := Rescale(f.pts, f.timeBase, before.timeBase).value;
    var desync := Drifted(c, before, shared);
    JumpsExactly(c, t, pts);
    if Jumps(c, t.next, t.timeBase, pts).value {
      if pts > t.next.value {
        if !t.tryWithoutFilling {
          var begun := l.(track := BeginFill(t, pts, true));
          FillPlaces(c, video, begun, Some(Decoded(f)), now, true);
          FillGoesForward(c, video, begun, Some(Decoded(f)), now);
        }
      } else {
        var adjusted := Adjust(l, original).value;
        SaneIgnoresShifts(t, adjusted.track);
        RealPlaces(c, video, adjusted, f, t.next.value, now, true);
        RealLasts(c, video, adjusted, f, t.next.value, now);
      }
    } else {
      var own := if desync then Some(ToUs(t.shift.value, t.timeBase).value) else l.clock.shift;
      RealPlaces(c, video, l.(clock := l.clock.(shift := own)), f, pts, now, true);
      RealLasts(c, video, l.(clock := l.clock.(shift := own)), f, pts, now);
      assert l.(clock := l.clock.(shift := l.clock.shift)) == l;
    }
  }

  lemma JumpsExactly(c: Config, t: Track, pts: int)
    requires Jumps(c, t.next, t.timeBase, pts).Ok?
    ensures Jumps(c, t.next, t.timeBase, pts).value <==> !Near(c, t, pts)
  {
    hide Rescale;
  }

  lemma FillGoesForward(c: Config, video: bool, l: Lane, head: Option<Head>, now: int)
    requires Filling(l.track) && l.track.forwardFill && HeadRetained(l.track, head)
    requires Fill(c, video, l, head, now, true).Ok?
    ensures var after := Fill(c, video, l, head, now, true).value.0.track;
      after.fillUntil in {None, l.track.fillUntil} && after.forwardFill
  {
    hide Rescale, FillerSource, VideoDuration;
  }

  lemma AdoptAsMapped(c: Config, t: Track, shared: int)
    requires Adopt(c, t, shared).Ok? && c.maxStreamsDiff > 0
    ensures var (adopted, desync) := Adopt(c, t, shared).value;
            && desync == Drifted(c, t, shared)
            && if t.shift.None? || desync then FromUs(shared, t.timeBase) == Ok(adopted.shift.value)
               else adopted.shift == t.shift
  {
    hide Rescale;
  }

  /**
   * Once the shared shift exists, an accepted frame goes exactly to where it is mapped if that is less than the
   * tolerance from the next position; a frame mapped back goes to the next position and takes both shifts with it;
   * before a frame mapped further ahead one batch is filled, and after that the track waits a millisecond with the
   * shifts moved. `t` is the track in the time base of the frame.
   */
  lemma FrameGoesWhereMapped(c: Config, video: bool, l: Lane, f: Frame, now: int)
    requires Sane(l.track) && Idle(l.track) && l.clock.shift.Some? && (video || f.samples > 0) && c.maxStreamsDiff > 0
    requires Correct(c, video, l, f, now, true).Ok?
    ensures Rebased(video, l.track, f).Ok?
    ensures var t, shared := Rebased(video, l.track, f).value, l.clock.shift.value;
            var (after, o) := Correct(c, video, l, f, now, true).value;
            exists shift, pts :: MapsTo(c, t, shared, f, shift, pts) &&
              PlacedAsMapped(c, video, t, shared, f, shift, pts, now, after, o)
  {
    hide Rescale, Follow, Adopt, Rebased, Sane, SameRational, PlacedAsMapped, Drifted;
    RebasedKeeps(video, l.track, f);
    OutputHasNext(l.track);
    var t, shared := Rebased(video, l.track, f).value, l.clock.shift.value;
    var original := Rescale(f.pts, f.timeBase, t.timeBase).value;
    var (adopted, desync) := Adopt(c, t, shared).value;
    AdoptAsMapped(c, t, shared);
    SaneIgnoresShifts(t, adopted);
    assert MapsTo(c, t, shared, f, adopted.shift.value, original + adopted.shift.value);
    FollowAsMapped(c, video, l.(track := adopted), t, shared, f, original + adopted.shift.value, now);
  }

  // ----- what is checked, and where a session starts

  /** A frame whose time in microseconds is a proper 64-bit value; for video, one frame lasts a positive 64-bit time. */
  ghost predicate Sound(c: Config, video: bool, f: Frame) {
    && f.pts != INT64_MIN && -INT64_MAX <= Scaled(f.pts, f.timeBase, MICROSECONDS) < INT64_MAX
    && if video then 0 < FrameDuration(c, f.timeBase) <= INT64_MAX else f.samples > 0
  }

  /** A call is let through exactly if its track is enabled, its time not negative and its frame, if any, sound. */
  lemma CallsAreChecked(c: Config, video: bool, head: Option<Head>, now: int)
    requires head.Some? && head.value.Decoded? ==> head.value.frame.pts >= INT64_MIN
    ensures Check(c, video, head, now).Ok? <==>
            && (if video then c.hasVideo else c.hasAudio) && now >= 0
            && (head.Some? && head.value.Decoded? ==> Sound(c, video, head.value.frame))
  {
    hide Scaled, AvRescaleQ;
    if head.Some? && head.value.Decoded? {
      var f := head.value.frame;
      if f.pts > INT64_MIN {
        AvRescaleIsScaled(f.pts, f.timeBase, MICROSECONDS);
      }
      AvRescaleIsScaled(1, Inverse(c.frameRate), f.timeBase);
    }
  }

  /**
   * A session starts with nothing put out and no shift. Each track waits for the initial timeout and starts at the
   * configured position, in its own time base, unless that is left to the first frame.
   */
  lemma SessionsStartAfresh(c: Config, video: bool)
    requires FirstPosition(c, true).Ok? && FirstPosition(c, false).Ok?
    ensures var (s, t) := (Opening(c), Opening(c).Of(video).track);
            && s.clock.pts.None? && s.clock.shift.None? && s.advances == [] && s.Of(video).history == []
            && Idle(t) && t.shift.None? && t.lastReal.None? && !t.hasOutput && t.lastSuccess
            && t.waitUntil == c.initialTimeout
            && (if c.forwardStartShift then t.next.None?
                else t.next.Some? && Rescale(c.start, MICROSECONDS, t.timeBase) == Ok(t.next.value))
            && (video && c.hasVideo ==> SameRational(t.timeBase, Rational(c.frameRate.den, c.frameRate.num)))
            && (!video && c.hasAudio ==> t.timeBase == c.samplePeriod)
  {
    hide Rescale;
  }
}
