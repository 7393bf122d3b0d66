/** Every frame head is consumed within ten accepted steps of its track. */
module SyncerProgress {
  import opened Results
  import opened TimeMath
  import opened SyncerRules
  import opened SyncerContinuity

  // ----- how far a track is from consuming its head

  /** The shifts already map the frame to the next output position. */
  ghost predicate Settled(video: bool, l: Lane, f: Frame) {
    var t := l.track;
    && (video ==> SameRational(t.timeBase, f.timeBase))
    && t.next.Some? && t.shift.Some? && l.clock.shift.Some?
    && ToUs(t.shift.value, t.timeBase) == Ok(l.clock.shift.value)
    && var original := Rescale(f.pts, f.timeBase, t.timeBase);
       original.Ok? && original.value + t.shift.value == t.next.value
  }

  /**
   * Steps a head needs once it is looked at: a settled one goes out at once, a jump without filling needs one
   * suspension, a jump with filling one batch.
   */
  ghost function Base(video: bool, l: Lane, f: Frame): nat {
    if Settled(video, l, f) then 1 else if l.track.tryWithoutFilling then 2 else 1 + MAX_FILLERS
  }

  ghost function Rank(video: bool, l: Lane, f: Frame, now: int): (r: nat)
    requires Sane(l.track)
    ensures 1 <= r <= 10
  {
    var t := l.track;
    if t.fillUntil.Some? then (MAX_FILLERS - t.filled) + if t.forwardFill then 1 else 1 + MAX_FILLERS
    else if t.pendingRealPts.Some? && now < t.suspendedUntil then 1 + Base(video, l, f)
    else Base(video, l, f)
  }

  // ----- each step lowers it

  /** The track is suspended with its frame settled, until the time the caller was told. */
  ghost predicate Parked(video: bool, l: Lane, f: Frame, wake: int) {
    && Settled(video, l, f)
    && l.track.fillUntil.None? && l.track.pendingRealPts.Some? && l.track.suspendedUntil == wake
  }

  lemma AdjustSettles(video: bool, l: Lane, f: Frame, original: int)
    requires l.track.next.Some? && Adjust(l, original).Ok?
    requires video ==> SameRational(l.track.timeBase, f.timeBase)
    requires Rescale(f.pts, f.timeBase, l.track.timeBase) == Ok(original)
    ensures Settled(video, Adjust(l, original).value, f)
  {
    hide Rescale, SameRational;
  }

  lemma FinishParks(video: bool, l: Lane, f: Frame, lastPts: int, now: int, blocked: bool)
    requires l.track.next.Some? && l.track.fillUntil.Some? && l.track.forwardFill
    requires video ==> SameRational(l.track.timeBase, f.timeBase)
    requires FinishFill(l, Some(Decoded(f)), lastPts, now, blocked).Ok?
    ensures var (after, wake) := FinishFill(l, Some(Decoded(f)), lastPts, now, blocked).value;
      Parked(video, after, f, wake)
  {
    hide Rescale, SameRational, Settled, Adjust, Submitted;
    var t := l.track;
    var clock := if t.filled == MAX_FILLERS || blocked then Submitted(l.clock, t.timeBase, lastPts, now).value
      else l.clock;
    var original := Rescale(f.pts, f.timeBase, t.timeBase).value;
    AdjustSettles(video, l.(clock := clock), f, original);
    var adjusted := Adjust(l.(clock := clock), original).value;
    SettledIgnores(video, adjusted, FinishFill(l, Some(Decoded(f)), lastPts, now, blocked).value.0, f);
  }

  lemma SettledIgnores(video: bool, l: Lane, after: Lane, f: Frame)
    requires Settled(video, l, f) && after.clock.shift == l.clock.shift
    requires after.track.timeBase == l.track.timeBase && after.track.next == l.track.next &&
      after.track.shift == l.track.shift
    ensures Settled(video, after, f)
  {
    hide Rescale, SameRational;
  }

  /**
   * One accepted filler: the batch goes on, or ends with the frame parked, or, after a timeout, with the head to be
   * looked at.
   */
  lemma FillAdvances(c: Config, video: bool, l: Lane, f: Frame, now: int)
    requires Filling(l.track) && Fill(c, video, l, Some(Decoded(f)), now, true).Ok?
    requires l.track.forwardFill && video ==> SameRational(l.track.timeBase, f.timeBase)
    ensures var (after, o) := Fill(c, video, l, Some(Decoded(f)), now, true).value;
            || (after.track.fillUntil.Some? && after.track.filled == l.track.filled + 1 &&
                 after.track.forwardFill == l.track.forwardFill)
            || (l.track.forwardFill && Parked(video, after, f, o.wake))
            || (!l.track.forwardFill && after.track.fillUntil.None? && after.track.pendingRealPts.None?)
  {
    hide Rescale, SameRational, Parked, Adjust, Submitted;
    var t, pts := l.track, l.track.next.value;
    var missing := Subtract(t.fillUntil.value, pts).value;
    var duration := if video then VideoDuration(c, t.timeBase).value else Min(SILENCE_SAMPLES, missing);
    var us := ToUs(duration, t.timeBase).value;
    var filled :=
      t.(next := Some(pts + duration), hasOutput := true, filled := t.filled + 1, filledUs := t.filledUs + us);
    if t.forwardFill && (pts + duration >= t.fillUntil.value || filled.filled == MAX_FILLERS) {
      FinishParks(video, l.(track := filled), f, pts, now, false);
    }
  }

  lemma SettledIsConsumed(c: Config, video: bool, l: Lane, f: Frame, now: int)
    requires Sane(l.track) && l.track.fillUntil.None? && l.track.pendingRealPts.None? && (video || f.samples > 0)
    requires Settled(video, l, f) && c.maxStreamsDiff > 0
    requires Correct(c, video, l, f, now, true).Ok?
    ensures Correct(c, video, l, f, now, true).value.1.consumed
  {
    hide Rescale, SameRational, Real;
    var t := l.track;
    assert Rebased(video, t, f) == Ok(t);
    assert Desync(c, t.shift, t.timeBase, l.clock.shift.value) == Ok(false);
    assert t.(shift := Some(t.shift.value)) == t;
    assert Adopt(c, t, l.clock.shift.value) == Ok((t, false));
    assert l.(track := t) == l;
    RealPlaces(c, video, l, f, t.next.value, now, true);
  }

  lemma FollowAdvances(c: Config, video: bool, l: Lane, desync: bool, f: Frame, original: int, pts: int, now: int)
    requires l.track.shift.Some? && l.track.fillUntil.None? && l.track.pendingRealPts.None?
    requires Sane(l.track) && (video || f.samples > 0)
    requires video ==> SameRational(l.track.timeBase, f.timeBase)
    requires Rescale(f.pts, f.timeBase, l.track.timeBase) == Ok(original)
    requires Follow(c, video, l, desync, f, original, pts, now, true).Ok?
    ensures var (after, o) := Follow(c, video, l, desync, f, original, pts, now, true).value;
            || o.consumed
            || Parked(video, after, f, o.wake)
            || (!l.track.tryWithoutFilling && after.track.fillUntil.Some? && after.track.forwardFill &&
                 after.track.filled == 1)
  {
    hide Rescale, SameRational, Fill, Real, Jumps, Adjust, Settled, Sane;
    var t := l.track;
    JumpsOrWithin(c, t, pts);
    var jump := Jumps(c, t.next, t.timeBase, pts).value;
    if jump && pts > t.next.value {
      if !t.tryWithoutFilling {
        FillAdvances(c, video, l.(track := BeginFill(t, pts, true)), f, now);
      } else {
        var bare := l.(track := t.(tryWithoutFilling := false));
        AdjustSettles(video, bare, f, original);
        SettledIgnores(video, Adjust(bare, original).value,
          Follow(c, video, l, desync, f, original, pts, now, true).value.0, f);
      }
    } else if jump {
      SaneIgnoresShifts(t, Adjust(l, original).value.track);
      RealPlaces(c, video, Adjust(l, original).value, f, t.next.value, now, true);
    } else {
      var shared := if desync then Some(ToUs(t.shift.value, t.timeBase).value) else l.clock.shift;
      RealPlaces(c, video, l.(clock := l.clock.(shift := shared)), f, pts, now, true);
      assert l.(clock := l.clock.(shift := l.clock.shift)) == l;
    }
  }

  lemma CorrectAdvances(c: Config, video: bool, l: Lane, f: Frame, now: int)
    requires Sane(l.track) && l.track.fillUntil.None? && l.track.pendingRealPts.None? && (video || f.samples > 0)
    requires Correct(c, video, l, f, now, true).Ok?
    ensures var (after, o) := Correct(c, video, l, f, now, true).value;
            || o.consumed
            || Parked(video, after, f, o.wake)
            || (!l.track.tryWithoutFilling && after.track.fillUntil.Some? && after.track.forwardFill &&
                 after.track.filled == 1)
  {
    hide Rescale, SameRational, Follow, Real, Adopt, Reading, Rebased, Subtract, Sane;
    RebasedKeeps(video, l.track, f);
    RebasedKeepsTrying(video, l.track, f);
    OutputHasNext(l.track);
    var t := Rebased(video, l.track, f).value;
    var original := Rescale(f.pts, f.timeBase, t.timeBase).value;
    if l.clock.shift.None? {
      var (anchored, pts) := Anchor(c, l.(track := t), original, now).value;
      SaneIgnoresShifts(t, anchored.track);
      RealPlaces(c, video, anchored, f, pts, now, true);
    } else {
      var (adopted, desync) := Adopt(c, t, l.clock.shift.value).value;
      SaneIgnoresShifts(t, adopted);
      FollowAdvances(c, video, l.(track := adopted), desync, f, original, original + adopted.shift.value, now);
    }
  }

  lemma RebasedKeepsTrying(video: bool, t: Track, f: Frame)
    requires Rebased(video, t, f).Ok?
    ensures Rebased(video, t, f).value.tryWithoutFilling == t.tryWithoutFilling
  {
    hide Rescale;
  }

  /** An accepted step consumes the head or comes nearer to it, if the caller returns no earlier than it was told. */
  lemma StepAdvances(c: Config, video: bool, l: Lane, f: Frame, now: int, later: int)
    requires Sane(l.track) && Serves(video, l.track, Some(Decoded(f))) && (video || f.samples > 0) &&
      c.maxStreamsDiff > 0
    requires Step(c, video, l, Some(Decoded(f)), now, true).Ok?
    requires Step(c, video, l, Some(Decoded(f)), now, true).value.1.wake <= later
    ensures var (after, o) := Step(c, video, l, Some(Decoded(f)), now, true).value;
            o.consumed || (Sane(after.track) && Rank(video, after, f, later) < Rank(video, l, f, now))
  {
    hide Rescale, SameRational, Fill, Correct, Settled;
    var head := Some(Decoded(f));
    StepPlaces(c, video, l, head, now, true);
    var t := l.track;
    if t.fillUntil.Some? {
      FillAdvances(c, video, l, f, now);
    } else if t.pendingRealPts.Some? && now < t.suspendedUntil {
    } else {
      var looked := l.(track := t.(pendingRealPts := None));
      assert t.pendingRealPts.None? ==> looked == l;
      CorrectAdvances(c, video, looked, f, now);
      if Settled(video, l, f) {
        SettledIgnores(video, l, looked, f);
        SettledIsConsumed(c, video, looked, f, now);
      }
    }
  }

  // ----- whole attempts

  datatype Attempt = Consumed | Failed | Unfinished

  /**
   * Steps one track at the given times, always accepting, until its head is consumed or an exception ends the session.
   */
  ghost function Attempts(c: Config, video: bool, l: Lane, f: Frame, times: seq<int>): Attempt
    requires Sane(l.track) && Serves(video, l.track, Some(Decoded(f))) && (video || f.samples > 0)
    decreases times
  {
    if times == [] then Unfinished
    else
      match Step(c, video, l, Some(Decoded(f)), times[0], true)
      case Err(_) => Failed
      case Ok((after, o)) =>
        StepPlaces(c, video, l, Some(Decoded(f)), times[0], true);
        if o.consumed then Consumed else Attempts(c, video, after, f, times[1..])
  }

  /** The caller comes back no earlier than each step asked for. */
  ghost predicate HonoursWakes(c: Config, video: bool, l: Lane, f: Frame, times: seq<int>)
    requires Sane(l.track) && Serves(video, l.track, Some(Decoded(f))) && (video || f.samples > 0)
    decreases times
  {
    |times| > 1 ==>
      match Step(c, video, l, Some(Decoded(f)), times[0], true)
      case Err(_) => true
      case Ok((after, o)) =>
        StepPlaces(c, video, l, Some(Decoded(f)), times[0], true);
        o.consumed || (o.wake <= times[1] && HonoursWakes(c, video, after, f, times[1..]))
  }

  lemma {:induction false} RankBoundsAttempts(c: Config, video: bool, l: Lane, f: Frame, times: seq<int>)
    requires Sane(l.track) && Serves(video, l.track, Some(Decoded(f))) && (video || f.samples > 0) &&
      c.maxStreamsDiff > 0
    requires HonoursWakes(c, video, l, f, times)
    requires times != [] && |times| >= Rank(video, l, f, times[0])
    ensures Attempts(c, video, l, f, times) != Unfinished
    decreases times
  {
    hide Step, Sane, Serves, Rank;
    var step := Step(c, video, l, Some(Decoded(f)), times[0], true);
    if step.Ok? && !step.value.1.consumed {
      StepPlaces(c, video, l, Some(Decoded(f)), times[0], true);
      var (after, o) := step.value;
      if |times| == 1 {
        StepAdvances(c, video, l, f, times[0], o.wake);
      } else {
        StepAdvances(c, video, l, f, times[0], times[1]);
        RankBoundsAttempts(c, video, after, f, times[1..]);
      }
    }
  }

  /**
   * From any state a run can reach, ten accepted steps without the peer consume a frame head, unless arithmetic fails.
   */
  lemma HeadIsConsumedWithinTenSteps(c: Config, video: bool, l: Lane, f: Frame, times: seq<int>)
    requires Sane(l.track) && Serves(video, l.track, Some(Decoded(f))) && (video || f.samples > 0) &&
      c.maxStreamsDiff > 0
    requires |times| == 10 && HonoursWakes(c, video, l, f, times)
    ensures Attempts(c, video, l, f, times) != Unfinished
  {
    RankBoundsAttempts(c, video, l, f, times);
  }
}
