/** The later fillers of a batch: what a batch after a timeout goes back to, and how far it can go. */
module SyncerBatches {
  import opened Results
  import opened TimeMath
  import opened SyncerRules
  import opened SyncerContinuity
  import opened SyncerRuns
  import opened SyncerClock

  /** A batch after a timeout goes on as it began, or begins with a look that finds nothing. */
  ghost predicate GoesOn(before: Track, after: Track, looked: bool) {
    after.fillUntil.Some? && !after.forwardFill ==>
      && after.timeBase == before.timeBase
      && ((before.fillUntil == after.fillUntil && !before.forwardFill) || (looked && Idle(before)))
  }

  lemma FillGoesOn(c: Config, video: bool, l: Lane, head: Option<Head>, now: int, accept: bool)
    requires Filling(l.track) && HeadRetained(l.track, head) && Fill(c, video, l, head, now, accept).Ok?
    ensures var after := Fill(c, video, l, head, now, accept).value.0.track;
      GoesOn(l.track, after, false) && (after.fillUntil.Some? ==> after.forwardFill == l.track.forwardFill)
  {
    hide Rescale, FinishFill, FillerSource, VideoDuration;
    var t, pts := l.track, l.track.next.value;
    if !accept {
      FinishEnds(l, head, pts, now, true);
    } else {
      var missing := Subtract(t.fillUntil.value, pts).value;
      var duration := if video then VideoDuration(c, t.timeBase).value else Min(SILENCE_SAMPLES, missing);
      var us := ToUs(duration, t.timeBase).value;
      var filled :=
        t.(next := Some(pts + duration), hasOutput := true, filled := t.filled + 1, filledUs := t.filledUs + us);
      if pts + duration >= t.fillUntil.value || filled.filled == MAX_FILLERS {
        FinishEnds(l.(track := filled), head, pts, now, false);
      }
    }
  }

  lemma CorrectFillsForward(c: Config, video: bool, l: Lane, f: Frame, now: int, accept: bool)
    requires Sane(l.track) && Idle(l.track) && Correct(c, video, l, f, now, accept).Ok?
    ensures var after := Correct(c, video, l, f, now, accept).value.0.track; after.fillUntil.Some? ==> after.forwardFill
  {
    hide Rescale, Follow, Real, Adopt, Reading, Rebased, Subtract, Sane, SameRational;
    RebasedKeeps(video, l.track, f);
    OutputHasNext(l.track);
    var t := Rebased(video, l.track, f).value;
    var original := Rescale(f.pts, f.timeBase, t.timeBase).value;
    if l.clock.shift.None? {
      var (anchored, pts) := Anchor(c, l.(track := t), original, now).value;
      RealFillsNothing(c, video, anchored, f, pts, now, accept);
    } else {
      var (adopted, desync) := Adopt(c, t, l.clock.shift.value).value;
      var pts := original + adopted.shift.value;
      FollowFillsForward(c, video, l.(track := adopted), desync, f, original, pts, now, accept);
    }
  }

  lemma RealFillsNothing(c: Config, video: bool, l: Lane, f: Frame, pts: int, now: int, accept: bool)
    requires Real(c, video, l, f, pts, now, accept).Ok? && l.track.fillUntil.None?
    ensures Real(c, video, l, f, pts, now, accept).value.0.track.fillUntil.None?
  {
    hide Rescale;
  }

  lemma FollowFillsForward(c: Config, video: bool, l: Lane, desync: bool, f: Frame, original: int, pts: int, now: int,
    accept: bool)
    requires l.track.shift.Some? && l.track.fillUntil.None? && l.track.pendingRealPts.None?
    requires Follow(c, video, l, desync, f, original, pts, now, accept).Ok?
    ensures var after := Follow(c, video, l, desync, f, original, pts, now, accept).value.0.track;
      after.fillUntil.Some? ==> after.forwardFill
  {
    hide Rescale, Fill, Real, Jumps;
    var t := l.track;
    JumpsOrWithin(c, t, pts);
    var jump := Jumps(c, t.next, t.timeBase, pts).value;
    if jump && pts > t.next.value {
      if !t.tryWithoutFilling {
        FillGoesOn(c, video, l.(track := BeginFill(t, pts, true)), Some(Decoded(f)), now, accept);
      }
    } else if jump {
      RealFillsNothing(c, video, Adjust(l, original).value, f, t.next.value, now, accept);
    } else {
      var shared := if desync then Some(ToUs(t.shift.value, t.timeBase).value) else l.clock.shift;
      RealFillsNothing(c, video, l.(clock := l.clock.(shift := shared)), f, pts, now, accept);
      assert l.(clock := l.clock.(shift := l.clock.shift)) == l;
    }
  }

  lemma StepGoesOn(c: Config, video: bool, l: Lane, head: Option<Head>, now: int, accept: bool)
    requires Sane(l.track) && Serves(video, l.track, head) && Step(c, video, l, head, now, accept).Ok?
    ensures var after := Step(c, video, l, head, now, accept).value.0.track;
      GoesOn(l.track, after, head.None? && now >= l.track.waitUntil)
  {
    hide Rescale, Fill, TimedOut, Correct, SameRational;
    var t := l.track;
    if t.fillUntil.Some? {
      FillGoesOn(c, video, l, head, now, accept);
    } else if t.pendingRealPts.Some? {
      if now >= t.suspendedUntil {
        CorrectFillsForward(c, video, l.(track := t.(pendingRealPts := None)), head.value.frame, now, accept);
      }
    } else if head.Some? {
      if head.value.Decoded? {
        CorrectFillsForward(c, video, l, head.value.frame, now, accept);
      }
    } else if now >= t.waitUntil {
      TimedOutPlaces(c, video, l, now, accept);
    }
  }

  /** Call j of a session looked at a silent track when the media time was `aim`. */
  ghost predicate LookedAt(c: Config, calls: seq<Call>, j: nat, isVideo: bool, tb: TimeBase, aim: int)
    requires Startable(c) && j < |calls|
  {
    && calls[j].isVideo == isVideo && calls[j].head.None?
    && FromUs(Media(c, AnyRun(c, calls[..j]), calls[j].now), tb) == Ok(aim)
  }

  lemma {:induction false} RunSnoc(c: Config, s: Session, calls: seq<Call>, last: Call)
    requires Inv(c, s) && c.maxStreamsDiff > 0
    ensures Inv(c, Run(c, s, calls)) && Run(c, s, calls + [last]) == Perform(c, Run(c, s, calls), last)
    decreases calls
  {
    hide Inv, Perform;
    if calls == [] {
      assert [last][1..] == [];
    } else {
      assert (calls + [last])[1..] == calls[1..] + [last];
      PerformKeeps(c, s, calls[0]);
      RunSnoc(c, Perform(c, s, calls[0]), calls[1..], last);
    }
  }

  lemma LookedBefore(c: Config, calls: seq<Call>, last: Call, j: nat, isVideo: bool, tb: TimeBase, aim: int)
    requires Startable(c) && j < |calls| && LookedAt(c, calls, j, isVideo, tb, aim)
    ensures LookedAt(c, calls + [last], j, isVideo, tb, aim)
  {
    assert (calls + [last])[..j] == calls[..j];
  }

  /** Every batch after a timeout goes back to a look of the same session, and up to the media time of that look. */
  lemma {:induction false} BatchHasBegun(c: Config, calls: seq<Call>, isVideo: bool)
    requires Startable(c)
    requires var t := AnyRun(c, calls).Of(isVideo).track; t.fillUntil.Some? && !t.forwardFill
    ensures var t := AnyRun(c, calls).Of(isVideo).track;
      exists j :: 0 <= j < |calls| && LookedAt(c, calls, j, isVideo, t.timeBase, t.fillUntil.value)
    decreases |calls|
  {
    hide Inv, Run, Step, Check, Media, Rescale, FirstPosition, LookedAt;
    OpeningHolds(c);
    var t := AnyRun(c, calls).Of(isVideo).track;
    if calls == [] {
      NothingIsFilledAtFirst(c, calls, isVideo);
    } else {
      var before, last := calls[..|calls| - 1], calls[|calls| - 1];
      assert calls == before + [last];
      RunSnoc(c, Opening(c), before, last);
      var s := AnyRun(c, before);
      var kept := s.Of(isVideo).track;
      if kept.fillUntil == t.fillUntil && !kept.forwardFill && kept.timeBase == t.timeBase {
        BatchHasBegun(c, before, isVideo);
        var j :| 0 <= j < |before| && LookedAt(c, before, j, isVideo, t.timeBase, t.fillUntil.value);
        LookedBefore(c, before, last, j, isVideo, t.timeBase, t.fillUntil.value);
      } else {
        BatchBegins(c, before, last, isVideo);
        assert LookedAt(c, calls, |calls| - 1, isVideo, t.timeBase, t.fillUntil.value) by {
          LookIsLast(c, before, last, isVideo, t.timeBase, t.fillUntil.value);
        }
      }
    }
  }

  lemma NothingIsFilledAtFirst(c: Config, calls: seq<Call>, isVideo: bool)
    requires Startable(c) && calls == []
    ensures AnyRun(c, calls).Of(isVideo).track.fillUntil.None?
  {
    hide Rescale;
  }

  lemma LookIsLast(c: Config, before: seq<Call>, last: Call, isVideo: bool, tb: TimeBase, aim: int)
    requires Startable(c) && last.isVideo == isVideo && last.head.None?
    requires FromUs(Media(c, AnyRun(c, before), last.now), tb) == Ok(aim)
    ensures LookedAt(c, before + [last], |before|, isVideo, tb, aim)
  {
    assert (before + [last])[..|before|] == before;
  }

  lemma BatchBegins(c: Config, before: seq<Call>, last: Call, isVideo: bool)
    requires Startable(c) && Inv(c, AnyRun(c, before))
    requires var t := Perform(c, AnyRun(c, before), last).Of(isVideo).track;
             var kept := AnyRun(c, before).Of(isVideo).track;
             && t.fillUntil.Some? && !t.forwardFill
             && !(kept.fillUntil == t.fillUntil && !kept.forwardFill && kept.timeBase == t.timeBase)
    ensures var t := Perform(c, AnyRun(c, before), last).Of(isVideo).track;
            && last.isVideo == isVideo && last.head.None?
            && FromUs(Media(c, AnyRun(c, before), last.now), t.timeBase) == Ok(t.fillUntil.value)
  {
    hide Inv, AnyRun, Step, Check, Media, Rescale;
    var s := AnyRun(c, before);
    RetainedHeadServesIf(c, s, last);
    if !s.failed && Admissible(s, last) && Check(c, last.isVideo, last.head, last.now).Ok? && last.isVideo == isVideo {
      var l := Lane(s.Of(isVideo).track, s.clock);
      var step := Step(c, isVideo, l, last.head, last.now, last.accept);
      if step.Ok? {
        StepGoesOn(c, isVideo, l, last.head, last.now, last.accept);
        HeldIsShown(s, last);
        SilentTrackIsFilledToTheClock(c, before, isVideo, last.now, last.accept);
      }
    }
  }

  lemma HeldIsShown(s: Session, call: Call)
    requires Admissible(s, call) && call.head.None?
    ensures s.Of(call.isVideo).held.None?
  {
  }

  lemma RetainedHeadServesIf(c: Config, s: Session, call: Call)
    requires Inv(c, s)
    ensures Admissible(s, call) ==>
      Sane(s.Of(call.isVideo).track) && Serves(call.isVideo, s.Of(call.isVideo).track, call.head)
  {
    if Admissible(s, call) {
      RetainedHeadServes(c, s, call);
    }
  }

  /** A filler put out because its track is silent, at the beginning of a batch or later in it. */
  ghost predicate FillsSilence(s: Session, call: Call, o: Outcome) {
    var t := s.Of(call.isVideo).track;
    && o.output.Some? && !o.output.value.source.Input?
    && (if t.fillUntil.Some? then !t.forwardFill else call.head.None?)
  }

  lemma FillerBelowBatch(c: Config, calls: seq<Call>, call: Call)
    requires Startable(c) && Admissible(AnyRun(c, calls), call) && Next(c, calls, call).Ok?
    requires AnyRun(c, calls).Of(call.isVideo).track.fillUntil.Some?
    requires Next(c, calls, call).value.1.output.Some?
    ensures var t, out := AnyRun(c, calls).Of(call.isVideo).track, Next(c, calls, call).value.1.output.value;
            out.timeBase == t.timeBase && Some(out.pts) == t.next && out.pts < t.fillUntil.value
  {
    hide AnyRun, Fill, Rescale;
    var s := AnyRun(c, calls);
    ClockHolds(c, calls);
    RetainedHeadServes(c, s, call);
    FillPlaces(c, call.isVideo, Lane(s.Of(call.isVideo).track, s.clock), call.head, call.now, call.accept);
  }

  lemma NewBatchBase(c: Config, calls: seq<Call>, call: Call)
    requires Startable(c) && Admissible(AnyRun(c, calls), call) && Next(c, calls, call).Ok? && call.head.None?
    requires Idle(AnyRun(c, calls).Of(call.isVideo).track) && Next(c, calls, call).value.1.output.Some?
    ensures Next(c, calls, call).value.1.output.value.timeBase == AnyRun(c, calls).Of(call.isVideo).track.timeBase
  {
    hide AnyRun, TimedOut, Rescale;
    var s := AnyRun(c, calls);
    ClockHolds(c, calls);
    RetainedHeadServes(c, s, call);
    TimedOutPlaces(c, call.isVideo, Lane(s.Of(call.isVideo).track, s.clock), call.now, call.accept);
  }

  /** Time has not gone back since call j, and the clock has not advanced. */
  ghost predicate Undisturbed(c: Config, calls: seq<Call>, j: nat)
    requires Startable(c) && j < |calls|
  {
    var last := |calls| - 1;
    calls[j].now <= calls[last].now && AnyRun(c, calls[..j]).advances == AnyRun(c, calls[..last]).advances
  }

  /**
   * Every filler that a session puts out for a silent track goes back to a look, of itself or an earlier call, and
   * starts before the media time of that look. If the clock has not advanced since, and its position is less than two
   * seconds old, the filler starts before that position.
   */
  lemma SilenceIsFilledUpToALook(c: Config, calls: seq<Call>, call: Call)
    requires Startable(c) && Admissible(AnyRun(c, calls), call) && Next(c, calls, call).Ok?
    requires FillsSilence(AnyRun(c, calls), call, Next(c, calls, call).value.1)
    ensures var s, all, out := AnyRun(c, calls), calls + [call], Next(c, calls, call).value.1.output.value;
            exists j: nat, aim :: j < |all| && LookedAt(c, all, j, call.isVideo, out.timeBase, aim) && out.pts < aim &&
              (Undisturbed(c, all, j) && call.now - Since(s, call.now) < 2000000 ==>
                 FromUs(Position(c, s), out.timeBase) == Ok(aim))
  {
    hide AnyRun, Inv, Step, Next, Media, Rescale, LookedAt;
    var s, all := AnyRun(c, calls), calls + [call];
    var out, t := Next(c, calls, call).value.1.output.value, s.Of(call.isVideo).track;
    var j: nat, aim: int;
    assert all[..|calls|] == calls;
    if t.fillUntil.Some? {
      FillerBelowBatch(c, calls, call);
      BatchHasBegun(c, calls, call.isVideo);
      j, aim :| j < |calls| && aim == t.fillUntil.value && LookedAt(c, calls, j, call.isVideo, t.timeBase, aim);
      LookedBefore(c, calls, call, j, call.isVideo, t.timeBase, aim);
    } else {
      NewFillerBelowMedia(c, calls, call);
      j, aim := |calls|, FromUs(Media(c, s, call.now), out.timeBase).value;
      LookIsLast(c, calls, call, call.isVideo, out.timeBase, aim);
    }
    if Undisturbed(c, all, j) && call.now - Since(s, call.now) < 2000000 {
      LookWasHeld(c, calls, call, j, out.timeBase, aim);
    }
  }

  lemma NewFillerBelowMedia(c: Config, calls: seq<Call>, call: Call)
    requires Startable(c) && Admissible(AnyRun(c, calls), call) && Next(c, calls, call).Ok? && call.head.None?
    requires FillsSilence(AnyRun(c, calls), call, Next(c, calls, call).value.1)
    requires AnyRun(c, calls).Of(call.isVideo).track.fillUntil.None?
    ensures var s, out := AnyRun(c, calls), Next(c, calls, call).value.1.output.value;
            FromUs(Media(c, s, call.now), out.timeBase).Ok? &&
            out.pts < FromUs(Media(c, s, call.now), out.timeBase).value
  {
    hide AnyRun, Step, Media, Rescale;
    var s := AnyRun(c, calls);
    ClockHolds(c, calls);
    RetainedHeadServes(c, s, call);
    assert Idle(s.Of(call.isVideo).track);
    HeldIsShown(s, call);
    NewBatchBase(c, calls, call);
    SilentTrackIsFilledToTheClock(c, calls, call.isVideo, call.now, call.accept);
  }

  lemma LookWasHeld(c: Config, calls: seq<Call>, call: Call, j: nat, tb: TimeBase, aim: int)
    requires Startable(c) && j <= |calls| && Undisturbed(c, calls + [call], j)
    requires LookedAt(c, calls + [call], j, call.isVideo, tb, aim)
    requires call.now - Since(AnyRun(c, calls), call.now) < 2000000
    ensures FromUs(Position(c, AnyRun(c, calls)), tb) == Ok(aim)
  {
    hide AnyRun, Rescale;
    assert (calls + [call])[..|calls|] == calls;
  }

  // ----- a later filler beyond the position of the clock

  const BOTH := Config(true, true, Rational(25, 1), Rational(1, 1000), 0, false, 1000000, 1000000, 0, 100000)

  const FIRST := Call(true, Some(Decoded(Frame(0, 0, MICROSECONDS, 0))), 0, true)
  const LOOK := Call(false, None, 3000000, true)
  const SECOND := Call(true, Some(Decoded(Frame(1, 40000, MICROSECONDS, 0))), 3000001, true)
  const LATER := Call(false, None, 3000002, true)

  ghost function OneStep(isVideo: bool, t: Track, k: Clock, call: Call): Result<(Lane, Outcome)>
    requires Sane(t) && HeadRetained(t, call.head)
  {
    Step(BOTH, isVideo, Lane(t, k), call.head, call.now, call.accept)
  }

  lemma FirstStep()
    ensures var r := OneStep(true, Fresh(Rational(1, 25), Some(0), 1000000), NEW_CLOCK, FIRST);
            && r.Ok? && r.value.1.consumed
            && var l := r.value.0;
            && l.clock == Clock(Some(0), Some(0), 0) && Idle(l.track)
            && l.track.timeBase == MICROSECONDS && l.track.next == Some(40000) && l.track.shift == Some(0)
  {
    hide Scaled;
  }

  lemma AudioConversions()
    ensures var tb: TimeBase := Rational(1, 1000);
            && ToUs(0, tb) == Ok(0) && ToUs(1024, tb) == Ok(1024000)
            && FromUs(3000000, tb) == Ok(3000) && FromUs(40000, tb) == Ok(40) && FromUs(0, tb) == Ok(0)
  {
    hide Scaled;
  }

  lemma LookStep(k: Clock)
    requires k == Clock(Some(0), Some(0), 0)
    ensures var r := OneStep(false, Fresh(Rational(1, 1000), Some(0), 1000000), k, LOOK);
            && r.Ok? && !r.value.1.consumed
            && var l := r.value.0;
            && l.clock == k && l.track.fillUntil == Some(3000) && !l.track.forwardFill && l.track.filled == 1
            && l.track.filledUs == 1024000 && l.track.timeBase == Rational(1, 1000)
            && l.track.next == Some(1024) && l.track.pendingRealPts.None?
  {
    AudioConversions();
    hide Rescale;
  }

  lemma SecondStep(t: Track, k: Clock)
    requires k == Clock(Some(0), Some(0), 0) && Idle(t) && Sane(t)
    requires t.timeBase == MICROSECONDS && t.next == Some(40000) && t.shift == Some(0)
    ensures var r := OneStep(true, t, k, SECOND);
            r.Ok? && r.value.1.consumed && r.value.0.clock == Clock(Some(0), Some(40000), 3000001)
  {
    hide Scaled;
  }

  lemma LaterStep(t: Track, k: Clock)
    requires Sane(t) && t.fillUntil == Some(3000) && !t.forwardFill && t.filled == 1 && t.pendingRealPts.None?
    requires t.timeBase == Rational(1, 1000) && t.next == Some(1024) && t.filledUs == 1024000
    ensures var r := OneStep(false, t, k, LATER);
            && r.Ok? && r.value.1.output.Some?
            && r.value.1.output.value == Output(Silence, 1024, 1024, Rational(1, 1000))
  {
    AudioConversions();
    hide Rescale;
  }

  /** A session that is going well and holds no head. */
  ghost predicate Fine(s: Session) {
    Inv(BOTH, s) && !s.failed && s.video.held.None? && s.audio.held.None?
  }

  /** A call of such a session that keeps nothing. */
  lemma CallOf(s: Session, call: Call)
    requires Fine(s) && Check(BOTH, call.isVideo, call.head, call.now).Ok?
    requires var t := s.Of(call.isVideo).track;
             Sane(t) && HeadRetained(t, call.head) && OneStep(call.isVideo, t, s.clock, call).Ok?
    requires var o := OneStep(call.isVideo, s.Of(call.isVideo).track, s.clock, call).value.1;
             call.head.None? || o.consumed
    ensures var (after, o) := OneStep(call.isVideo, s.Of(call.isVideo).track, s.clock, call).value;
            var r := Perform(BOTH, s, call);
            && Fine(r) && r.Of(call.isVideo).track == after.track && r.Of(!call.isVideo) == s.Of(!call.isVideo)
            && r.clock == after.clock
            && r.advances == s.advances + (
                 if after.clock.pts.Some? && after.clock.pts != s.clock.pts
                 then [Advance(after.clock.pts.value, call.now)] else [])
  {
    PerformKeeps(BOTH, s, call);
    hide Inv, Step, Check;
  }

  lemma OpeningIsFine()
    ensures Startable(BOTH) && Fine(Opening(BOTH))
    ensures Opening(BOTH).video.track == Fresh(Rational(1, 25), Some(0), 1000000)
    ensures Opening(BOTH).audio.track == Fresh(Rational(1, 1000), Some(0), 1000000)
    ensures Opening(BOTH).clock == NEW_CLOCK && Opening(BOTH).advances == []
  {
    OpeningStarts();
    OpeningHolds(BOTH);
    hide Inv, FirstPosition;
  }

  lemma OpeningStarts()
    ensures BOTH.Valid() && FirstPosition(BOTH, true) == Ok(Some(0)) && FirstPosition(BOTH, false) == Ok(Some(0))
  {
    AudioConversions();
    hide Scaled;
  }

  lemma FourCallsAreChecked()
    ensures Check(BOTH, true, FIRST.head, FIRST.now).Ok? && Check(BOTH, false, LOOK.head, LOOK.now).Ok?
    ensures Check(BOTH, true, SECOND.head, SECOND.now).Ok? && Check(BOTH, false, LATER.head, LATER.now).Ok?
  {
  }

  lemma AfterFirst() returns (s: Session)
    ensures Startable(BOTH) && Inv(BOTH, Opening(BOTH)) && s == Perform(BOTH, Opening(BOTH), FIRST)
    ensures Fine(s) && s.clock == Clock(Some(0), Some(0), 0) && s.advances == [Advance(0, 0)]
    ensures s.audio.track == Fresh(Rational(1, 1000), Some(0), 1000000)
    ensures var t := s.video.track;
            Idle(t) && Sane(t) && t.timeBase == MICROSECONDS && t.next == Some(40000) && t.shift == Some(0)
  {
    OpeningIsFine();
    FourCallsAreChecked();
    FirstStep();
    hide Inv, Check, Opening, FirstPosition, OneStep, Perform;
    s := Perform(BOTH, Opening(BOTH), FIRST);
    CallOf(Opening(BOTH), FIRST);
  }

  lemma AfterLook(s: Session) returns (r: Session)
    requires Fine(s) && s.clock == Clock(Some(0), Some(0), 0)
    requires s.audio.track == Fresh(Rational(1, 1000), Some(0), 1000000)
    ensures r == Perform(BOTH, s, LOOK) && Fine(r)
    ensures r.clock == s.clock && r.advances == s.advances && r.video == s.video
    ensures var t := r.audio.track;
            && t.fillUntil == Some(3000) && !t.forwardFill && t.filled == 1 && t.filledUs == 1024000
            && t.timeBase == Rational(1, 1000) && t.next == Some(1024) && t.pendingRealPts.None?
  {
    FourCallsAreChecked();
    LookStep(s.clock);
    hide Inv, Check, OneStep, Perform;
    r := Perform(BOTH, s, LOOK);
    CallOf(s, LOOK);
  }

  lemma AfterSecond(s: Session) returns (r: Session)
    requires Fine(s) && s.clock == Clock(Some(0), Some(0), 0)
    requires var t := s.video.track;
             Idle(t) && Sane(t) && t.timeBase == MICROSECONDS && t.next == Some(40000) && t.shift == Some(0)
    ensures r == Perform(BOTH, s, SECOND) && Fine(r) && r.audio == s.audio
    ensures r.clock == Clock(Some(0), Some(40000), 3000001)
    ensures r.advances == s.advances + [Advance(40000, 3000001)]
  {
    FourCallsAreChecked();
    SecondStep(s.video.track, s.clock);
    hide Inv, Check, OneStep, Perform;
    r := Perform(BOTH, s, SECOND);
    CallOf(s, SECOND);
  }

  lemma RunOfThree(s1: Session, s2: Session, s3: Session)
    requires Startable(BOTH) && Inv(BOTH, Opening(BOTH)) && Inv(BOTH, s1) && Inv(BOTH, s2) && Inv(BOTH, s3)
    requires s1 == Perform(BOTH, Opening(BOTH), FIRST) && s2 == Perform(BOTH, s1, LOOK)
    requires s3 == Perform(BOTH, s2, SECOND)
    ensures AnyRun(BOTH, [FIRST, LOOK, SECOND]) == s3
  {
    hide Inv, Perform, Opening, FirstPosition;
    assert Run(BOTH, s3, []) == s3;
    assert [SECOND][1..] == [] && [LOOK, SECOND][1..] == [SECOND];
    assert Run(BOTH, s2, [SECOND]) == s3;
    assert Run(BOTH, s1, [LOOK, SECOND]) == s3;
    assert [FIRST, LOOK, SECOND][1..] == [LOOK, SECOND];
    assert Run(BOTH, Opening(BOTH), [FIRST, LOOK, SECOND]) == s3;
  }

  /**
   * A later filler may start beyond a position that has just advanced the clock: the peer's frame comes while the batch
   * is on. Here it does so a microsecond after the advance, 984 ms beyond the position.
   */
  lemma LaterFillerCanPassThePosition()
    ensures Startable(BOTH)
    ensures var calls := [FIRST, LOOK, SECOND];
            var s := AnyRun(BOTH, calls);
            && !s.failed && Admissible(s, LATER) && Check(BOTH, false, None, LATER.now).Ok?
            && Next(BOTH, calls, LATER).Ok?
            && var o := Next(BOTH, calls, LATER).value.1;
            && FillsSilence(s, LATER, o) && LATER.now - Since(s, LATER.now) == 1
            && FromUs(Position(BOTH, s), o.output.value.timeBase) == Ok(40) && o.output.value.pts == 1024
  {
    FourCallsAreChecked();
    AudioConversions();
    hide Inv, Check, Rescale, Opening, FirstPosition, Perform, Step, AnyRun;
    var s1 := AfterFirst();
    var s2 := AfterLook(s1);
    var s3 := AfterSecond(s2);
    RunOfThree(s1, s2, s3);
    LaterStep(s3.audio.track, s3.clock);
  }
}
