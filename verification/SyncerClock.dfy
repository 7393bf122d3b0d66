/** The shared clock over whole sessions: what moves it, and what a silent track is filled up to. */
module SyncerClock {
  import opened Results
  import opened TimeMath
  import opened SyncerRules
  import opened SyncerContinuity
  import opened SyncerRuns

  // ----- what moves the clock

  predicate Idle(t: Track) {
    t.fillUntil.None? && t.pendingRealPts.None?
  }

  /** Where the clock stands, or would start. */
  function Standing(c: Config, k: Clock): int {
    if k.pts.Some? then k.pts.value else c.start
  }

  /** The clock stays, or goes to a greater position at the time of the step. */
  ghost predicate Forward(k: Clock, after: Clock, now: int) {
    || (after.pts == k.pts && after.wall == k.wall)
    || (after.pts.Some? && after.wall == now && (k.pts.None? || k.pts.value < after.pts.value))
  }

  /** What an accepted output does to the clock. */
  ghost predicate Moves(c: Config, before: Lane, after: Lane, o: Outcome, now: int) {
    && Forward(before.clock, after.clock, now)
    && (after.clock.pts.Some? ==> after.clock.pts.value >= Standing(c, before.clock)) && Ticking(after)
    && match o.output
       case None =>
         o.blocked || after.clock.pts in {before.clock.pts, Some(Standing(c, before.clock))}
       case Some(out) =>
         var us, standing := ToUs(out.pts, out.timeBase), Standing(c, before.clock);
         var endsBatch := after.track.forwardFill && after.track.filled == MAX_FILLERS;
         if out.source.Input? || endsBatch then us.Ok? && after.clock.pts == Some(Max(standing, us.value))
         else after.clock.pts == Some(standing)
  }

  /** A shift or a batch exists only once the clock has started. */
  ghost predicate Ticking(l: Lane) {
    (l.clock.shift.Some? || l.track.fillUntil.Some?) ==> l.clock.pts.Some?
  }

  /**
   * When the track looks for input again: an accepted real frame grants the timeout, a look that found nothing 22 ms, a
   * refused filler of a silent track nothing; no other step changes it.
   */
  ghost predicate Waits(c: Config, looked: bool, before: Track, after: Track, o: Outcome, now: int) {
    if o.output.Some? && o.output.value.source.Input? then after.lastSuccess && after.waitUntil == now + c.timeout
    else if looked then !after.lastSuccess && after.waitUntil == if o.blocked then now else now + 22000
    else
      && after.lastSuccess == before.lastSuccess
      && (after.waitUntil == before.waitUntil || (o.blocked && after.waitUntil == now))
  }

  lemma RealMoves(c: Config, video: bool, l: Lane, f: Frame, pts: int, now: int, accept: bool)
    requires Real(c, video, l, f, pts, now, accept).Ok? && l.clock.pts.Some?
    ensures var (after, o) := Real(c, video, l, f, pts, now, accept).value;
      Moves(c, l, after, o, now) && Waits(c, false, l.track, after.track, o, now)
  {
    hide Rescale, VideoDuration;
  }

  lemma FinishMoves(l: Lane, head: Option<Head>, lastPts: int, now: int, blocked: bool)
    requires l.track.next.Some? && l.track.fillUntil.Some? && HeadRetained(l.track, head) && l.clock.pts.Some?
    requires FinishFill(l, head, lastPts, now, blocked).Ok?
    ensures var after := FinishFill(l, head, lastPts, now, blocked).value.0;
            var us := ToUs(lastPts, l.track.timeBase);
            && Forward(l.clock, after.clock, now)
            && after.track.forwardFill == l.track.forwardFill && after.track.filled == l.track.filled
            && after.track.lastSuccess == l.track.lastSuccess
            && (after.track.waitUntil == if !l.track.forwardFill && blocked then now else l.track.waitUntil)
            && if l.track.forwardFill && (blocked || l.track.filled == MAX_FILLERS)
               then us.Ok? && after.clock.pts == Some(Max(l.clock.pts.value, us.value))
               else after.clock.pts == l.clock.pts
  {
    hide Rescale;
  }

  lemma FillMoves(c: Config, video: bool, l: Lane, head: Option<Head>, now: int, accept: bool)
    requires Filling(l.track) && HeadRetained(l.track, head) && l.clock.pts.Some?
    requires Fill(c, video, l, head, now, accept).Ok?
    ensures var (after, o) := Fill(c, video, l, head, now, accept).value;
            && Moves(c, l, after, o, now) && Waits(c, false, l.track, after.track, o, now)
            && (o.blocked && !l.track.forwardFill ==> after.track.waitUntil == now)
  {
    hide Rescale, FinishFill, VideoDuration;
    var t, pts := l.track, l.track.next.value;
    if !accept {
      FinishMoves(l, head, pts, now, true);
    } else {
      var missing := Subtract(t.fillUntil.value, pts).value;
      var duration := if video then VideoDuration(c, t.timeBase).value else Min(SILENCE_SAMPLES, missing);
      var us := ToUs(duration, t.timeBase).value;
      var filled :=
        t.(next := Some(pts + duration), hasOutput := true, filled := t.filled + 1, filledUs := t.filledUs + us);
      if pts + duration >= t.fillUntil.value || filled.filled == MAX_FILLERS {
        FinishMoves(l.(track := filled), head, pts, now, false);
      }
    }
  }

  lemma FollowMoves(c: Config, video: bool, l: Lane, desync: bool, f: Frame, original: int, pts: int, now: int,
    accept: bool)
    requires l.track.shift.Some? && l.track.fillUntil.None? && l.track.pendingRealPts.None? && l.clock.pts.Some?
    requires Follow(c, video, l, desync, f, original, pts, now, accept).Ok?
    ensures var (after, o) := Follow(c, video, l, desync, f, original, pts, now, accept).value;
      Moves(c, l, after, o, now) && Waits(c, false, l.track, after.track, o, now)
  {
    hide Rescale, Fill, Real, Jumps, Subtract;
    var t := l.track;
    JumpsOrWithin(c, t, pts);
    var jump := Jumps(c, t.next, t.timeBase, pts).value;
    if jump && pts > t.next.value {
      if !t.tryWithoutFilling {
        FillMoves(c, video, l.(track := BeginFill(t, pts, true)), Some(Decoded(f)), now, accept);
      }
    } else if jump {
      RealMoves(c, video, Adjust(l, original).value, f, t.next.value, now, accept);
    } else {
      var shared := if desync then Some(ToUs(t.shift.value, t.timeBase).value) else l.clock.shift;
      RealMoves(c, video, l.(clock := l.clock.(shift := shared)), f, pts, now, accept);
      assert l.(clock := l.clock.(shift := l.clock.shift)) == l;
    }
  }

  lemma CorrectMoves(c: Config, video: bool, l: Lane, f: Frame, now: int, accept: bool)
    requires Sane(l.track) && l.track.fillUntil.None? && l.track.pendingRealPts.None? && Ticking(l)
    requires Correct(c, video, l, f, now, accept).Ok?
    ensures var (after, o) := Correct(c, video, l, f, now, accept).value;
      Moves(c, l, after, o, now) && Waits(c, false, l.track, after.track, o, now)
  {
    hide Rescale, Follow, Real, Adopt, Reading, Rebased, Subtract, Sane, SameRational;
    RebasedKeeps(video, l.track, f);
    RebasedWaits(video, l.track, f);
    OutputHasNext(l.track);
    var t := Rebased(video, l.track, f).value;
    var original := Rescale(f.pts, f.timeBase, t.timeBase).value;
    if l.clock.shift.None? {
      var (anchored, pts) := Anchor(c, l.(track := t), original, now).value;
      RealMoves(c, video, anchored, f, pts, now, accept);
    } else {
      var (adopted, desync) := Adopt(c, t, l.clock.shift.value).value;
      FollowMoves(c, video, l.(track := adopted), desync, f, original, original + adopted.shift.value, now, accept);
    }
  }

  lemma RebasedWaits(video: bool, t: Track, f: Frame)
    requires Rebased(video, t, f).Ok?
    ensures var after := Rebased(video, t, f).value;
      after.waitUntil == t.waitUntil && after.lastSuccess == t.lastSuccess
  {
    hide Rescale;
  }

  lemma TimedOutMoves(c: Config, video: bool, l: Lane, now: int, accept: bool)
    requires Sane(l.track) && l.track.fillUntil.None? && l.track.pendingRealPts.None?
    requires TimedOut(c, video, l, now, accept).Ok? && Ticking(l)
    ensures var (after, o) := TimedOut(c, video, l, now, accept).value;
      Moves(c, l, after, o, now) && Waits(c, true, l.track, after.track, o, now)
  {
    hide Rescale, Fill, Reading, Late;
    var clock := Started(l.clock, c.start, now);
    var rtc := Reading(clock, now).value;
    var next := if l.track.next.Some? then l.track.next.value else FromUs(c.start, l.track.timeBase).value;
    var target := FromUs(rtc, l.track.timeBase).value;
    var t := l.track.(next := Some(next), lastSuccess := false, waitUntil := now + POLL_US);
    if Late(c, l.track.lastSuccess, l.track.timeBase, rtc, next).value && next < target {
      FillMoves(c, video, Lane(BeginFill(t, target, false), clock), None, now, accept);
    }
  }

  /**
   * The clock only moves forward. An accepted real frame takes it to the frame's position if that is ahead, and so does
   * the last of a full batch before a jump; no other filler moves it, except that it starts at the configured position.
   * The step also says when the track looks for input again.
   */
  lemma StepMoves(c: Config, video: bool, l: Lane, head: Option<Head>, now: int, accept: bool)
    requires Sane(l.track) && HeadRetained(l.track, head) && Ticking(l)
    requires Step(c, video, l, head, now, accept).Ok?
    ensures var (after, o) := Step(c, video, l, head, now, accept).value;
            && Moves(c, l, after, o, now)
            && Waits(c, head.None? && Idle(l.track) && now >= l.track.waitUntil, l.track, after.track, o, now)
  {
    hide Rescale, Fill, TimedOut, Correct;
    var t := l.track;
    if t.fillUntil.Some? {
      FillMoves(c, video, l, head, now, accept);
    } else if t.pendingRealPts.Some? {
      if now >= t.suspendedUntil {
        CorrectMoves(c, video, l.(track := t.(pendingRealPts := None)), head.value.frame, now, accept);
      }
    } else if head.Some? {
      if head.value.Decoded? {
        CorrectMoves(c, video, l, head.value.frame, now, accept);
      }
    } else if now >= t.waitUntil {
      TimedOutMoves(c, video, l, now, accept);
    }
  }

  // ----- whole sessions

  /** The last advance is where the clock stands, and each went further than the one before. */
  ghost predicate Advancing(c: Config, advances: seq<Advance>, k: Clock) {
    && (k.pts.None? <==> advances == [])
    && (advances != [] ==>
          var last := advances[|advances| - 1]; k.pts == Some(last.position) && k.wall == last.at)
    && (forall i, j :: 0 <= i < j < |advances| ==> advances[i].position < advances[j].position)
    && (forall i :: 0 <= i < |advances| ==> advances[i].position >= c.start)
  }

  /** The clock stands at or beyond every real frame put out. */
  ghost predicate Covers(c: Config, k: Clock, history: seq<Emission>) {
    forall i :: 0 <= i < |history| && history[i].output.source.Input? ==>
      var us := ToUs(history[i].output.pts, history[i].output.timeBase);
      us.Ok? && k.pts.Some? && us.value <= k.pts.value
  }

  ghost predicate ClockKept(c: Config, s: Session) {
    && Advancing(c, s.advances, s.clock)
    && Ticking(Lane(s.video.track, s.clock)) && Ticking(Lane(s.audio.track, s.clock))
    && Covers(c, s.clock, s.video.history) && Covers(c, s.clock, s.audio.history)
  }

  lemma AdvanceKept(c: Config, advances: seq<Advance>, k: Clock, after: Clock, now: int)
    requires Advancing(c, advances, k) && Forward(k, after, now)
    requires k.pts.None? && after.pts.Some? ==> after.pts.value >= c.start
    ensures var moved := after.pts.Some? && after.pts != k.pts;
            Advancing(c, advances + if moved then [Advance(after.pts.value, now)] else [], after)
  {
    if after.pts.Some? && after.pts != k.pts {
      var next := Advance(after.pts.value, now);
      var grown := advances + [next];
      forall i, j | 0 <= i < j < |grown|
        ensures grown[i].position < grown[j].position
      {
        assert j == |advances| ==> advances[|advances| - 1].position < next.position;
      }
    } else {
      assert advances + [] == advances;
    }
  }

  lemma CoversLater(c: Config, k: Clock, after: Clock, history: seq<Emission>, now: int)
    requires Covers(c, k, history) && Forward(k, after, now)
    ensures Covers(c, after, history)
  {
    hide Rescale;
  }

  lemma CoversNext(c: Config, k: Clock, after: Lane, history: seq<Emission>, e: Emission, now: int)
    requires Covers(c, k, history) && Forward(k, after.clock, now)
    requires e.output.source.Input? ==>
      var us := ToUs(e.output.pts, e.output.timeBase);
      us.Ok? && after.clock.pts.Some? && us.value <= after.clock.pts.value
    ensures Covers(c, after.clock, history + [e])
  {
    hide Rescale;
  }

  lemma PerformKeepsClock(c: Config, s: Session, call: Call)
    requires Inv(c, s) && ClockKept(c, s)
    ensures ClockKept(c, Perform(c, s, call))
  {
    hide Inv, Step, Check, Rescale, Covers, Advancing;
    if !s.failed && Admissible(s, call) && Check(c, call.isVideo, call.head, call.now).Ok? {
      RetainedHeadServes(c, s, call);
      var side, peer := s.Of(call.isVideo), s.Of(!call.isVideo);
      var l := Lane(side.track, s.clock);
      var step := Step(c, call.isVideo, l, call.head, call.now, call.accept);
      if step.Ok? {
        var (after, o) := step.value;
        StepMoves(c, call.isVideo, l, call.head, call.now, call.accept);
        AdvanceKept(c, s.advances, s.clock, after.clock, call.now);
        CoversLater(c, s.clock, after.clock, peer.history, call.now);
        if o.output.Some? {
          CoversNext(c, s.clock, after, side.history, Emission(o.output.value, s.clock.shift.Some?, after), call.now);
        } else {
          CoversLater(c, s.clock, after.clock, side.history, call.now);
          assert side.history + [] == side.history;
        }
      }
    }
  }

  lemma {:induction false} RunKeepsClock(c: Config, s: Session, calls: seq<Call>)
    requires Inv(c, s) && ClockKept(c, s) && c.maxStreamsDiff > 0
    ensures ClockKept(c, Run(c, s, calls))
    decreases calls
  {
    hide Inv, Perform, ClockKept;
    if calls != [] {
      PerformKeeps(c, s, calls[0]);
      PerformKeepsClock(c, s, calls[0]);
      RunKeepsClock(c, Perform(c, s, calls[0]), calls[1..]);
    }
  }

  ghost predicate Startable(c: Config) {
    c.Valid() && FirstPosition(c, true).Ok? && FirstPosition(c, false).Ok?
  }

  /** The greatest position that has advanced the clock. */
  function Position(c: Config, s: Session): int {
    if s.advances == [] then c.start else s.advances[|s.advances| - 1].position
  }

  /** When it did. */
  function Since(s: Session, now: int): int {
    if s.advances == [] then now else s.advances[|s.advances| - 1].at
  }

  /** The media time the silent tracks are measured against: held for two seconds, then carried on by the wall clock. */
  function Media(c: Config, s: Session, now: int): int {
    var silent := now - Since(s, now);
    if silent < 2000000 then Position(c, s) else Position(c, s) + silent
  }

  lemma ClockHolds(c: Config, calls: seq<Call>)
    requires Startable(c)
    ensures Inv(c, AnyRun(c, calls)) && ClockKept(c, AnyRun(c, calls))
  {
    hide Inv, Run, Rescale;
    OpeningHolds(c);
    RunKeeps(c, Opening(c), calls);
    RunKeepsClock(c, Opening(c), calls);
  }

  /**
   * In every session the clock stands where it last advanced to, each advance went further than the one before, and
   * none of the real frames put out lies beyond it.
   */
  lemma ClockCoversRealFrames(c: Config, calls: seq<Call>, isVideo: bool, i: nat)
    requires Startable(c)
    requires i < |AnyRun(c, calls).Of(isVideo).history| && AnyRun(c, calls).Of(isVideo).history[i].output.source.Input?
    ensures var s := AnyRun(c, calls);
            var out := s.Of(isVideo).history[i].output;
            && ToUs(out.pts, out.timeBase).Ok? && ToUs(out.pts, out.timeBase).value <= Position(c, s)
            && s.advances != [] && c.start <= s.advances[0].position
            && forall j, k :: 0 <= j < k < |s.advances| ==> s.advances[j].position < s.advances[k].position
  {
    hide Inv, Run, Rescale;
    ClockHolds(c, calls);
  }

  /** What the next call of a session does. */
  ghost function Next(c: Config, calls: seq<Call>, call: Call): Result<(Lane, Outcome)>
    requires Startable(c) && Admissible(AnyRun(c, calls), call)
  {
    var s := AnyRun(c, calls);
    ClockHolds(c, calls);
    RetainedHeadServes(c, s, call);
    Step(c, call.isVideo, Lane(s.Of(call.isVideo).track, s.clock), call.head, call.now, call.accept)
  }


  // ----- what a silent track is filled up to

  /** A first look after an accepted frame is patient; the following ones are not. */
  ghost predicate Overdue(c: Config, t: Track, next: int, media: int) {
    !t.lastSuccess || (ToUs(next, t.timeBase).Ok? && media - ToUs(next, t.timeBase).value > c.timeout)
  }

  /** The position lies at least a tick before the media time. */
  ghost predicate Behind(next: int, tb: TimeBase, media: int) {
    FromUs(media, tb).Ok? && next < FromUs(media, tb).value
  }

  /** The next position of the track, which starts at the configured one. */
  ghost predicate NextPosition(c: Config, t: Track, next: int) {
    if t.next.Some? then next == t.next.value else FromUs(c.start, t.timeBase) == Ok(next)
  }

  /** What the first filler of a batch after a timeout is, and how far the batch goes. */
  ghost predicate FillsUpTo(next: int, tb: TimeBase, media: int, after: Track, o: Outcome, accept: bool) {
    && o.output.Some? == accept && o.blocked == !accept
    && (accept ==> o.output.value.pts == next && !o.output.value.source.Input?)
    && FromUs(media, tb).Ok?
    && after.fillUntil == (
      if accept && next + o.output.value.duration < FromUs(media, tb).value
      then Some(FromUs(media, tb).value) else None)
  }

  /** How a track that has waited long enough is answered. */
  ghost predicate FilledToTheClock(c: Config, t: Track, media: int, after: Track, o: Outcome, now: int, accept: bool) {
    exists next :: NextPosition(c, t, next) && (
      if Overdue(c, t, next, media) && Behind(next, t.timeBase, media)
      then FillsUpTo(next, t.timeBase, media, after, o, accept) && !after.forwardFill
      else o == Outcome(false, None, now + 22000, false) && after.fillUntil.None?)
  }

  lemma TimedOutByReading(c: Config, video: bool, l: Lane, now: int, accept: bool, media: int)
    requires Sane(l.track) && Idle(l.track) && TimedOut(c, video, l, now, accept).Ok?
    requires Reading(Started(l.clock, c.start, now), now) == Ok(media)
    ensures var (after, o) := TimedOut(c, video, l, now, accept).value;
      FilledToTheClock(c, l.track, media, after.track, o, now, accept)
  {
    hide Rescale, Reading, FillerSource, VideoDuration, FinishFill;
    var next := if l.track.next.Some? then l.track.next.value else FromUs(c.start, l.track.timeBase).value;
    assert NextPosition(c, l.track, next);
    if Overdue(c, l.track, next, media) && Behind(next, l.track.timeBase, media) {
      var t := l.track.(next := Some(next), lastSuccess := false, waitUntil := now + POLL_US);
      var begun := Lane(BeginFill(t, FromUs(media, l.track.timeBase).value, false), Started(l.clock, c.start, now));
      FillBegins(c, video, begun, now, accept);
    }
  }

  lemma FillBegins(c: Config, video: bool, l: Lane, now: int, accept: bool)
    requires Filling(l.track) && l.track.filled == 0 && !l.track.forwardFill
    requires Fill(c, video, l, None, now, accept).Ok?
    ensures var (after, o) := Fill(c, video, l, None, now, accept).value;
            && o.output.Some? == accept && o.blocked == !accept && !after.track.forwardFill
            && (accept ==> o.output.value.pts == l.track.next.value && !o.output.value.source.Input?)
            && after.track.fillUntil == (
              if accept && l.track.next.value + o.output.value.duration < l.track.fillUntil.value
              then l.track.fillUntil else None)
  {
    hide Rescale, VideoDuration;
  }

  /** The clock's answer is the media time of the session. */
  lemma ReadingIsMedia(c: Config, s: Session, now: int)
    requires ClockKept(c, s) && Reading(Started(s.clock, c.start, now), now).Ok?
    ensures Reading(Started(s.clock, c.start, now), now) == Ok(Media(c, s, now))
  {
    hide Covers, Rescale;
  }

  /**
   * In every session, a call without a head on an idle track first waits, and then puts out a filler exactly if the
   * track's next position lies a tick or more before the media time: the greatest position that has advanced the clock,
   * carried on by the wall clock once that is two seconds ago. A first look after an accepted frame also asks for the
   * timeout to have passed on that clock. The batch it begins goes up to that media time.
   */
  lemma SilentTrackIsFilledToTheClock(c: Config, calls: seq<Call>, isVideo: bool, now: int, accept: bool)
    requires Startable(c)
    requires AnyRun(c, calls).Of(isVideo).held.None? && Idle(AnyRun(c, calls).Of(isVideo).track)
    requires Next(c, calls, Call(isVideo, None, now, accept)).Ok?
    ensures var s := AnyRun(c, calls);
            var t, media := s.Of(isVideo).track, Media(c, s, now);
            var (after, o) := Next(c, calls, Call(isVideo, None, now, accept)).value;
            if now < t.waitUntil then o == Outcome(false, None, t.waitUntil, false) && after == Lane(t, s.clock)
            else FilledToTheClock(c, t, media, after.track, o, now, accept)
  {
    hide AnyRun, Inv, Rescale, TimedOut, Media, Covers, FilledToTheClock;
    var s := AnyRun(c, calls);
    var l := Lane(s.Of(isVideo).track, s.clock);
    ClockHolds(c, calls);
    if now >= l.track.waitUntil {
      RetainedHeadServes(c, s, Call(isVideo, None, now, accept));
      TimedOutReads(c, isVideo, l, now, accept);
      ReadingIsMedia(c, s, now);
      TimedOutByReading(c, isVideo, l, now, accept, Media(c, s, now));
    }
  }

  lemma TimedOutReads(c: Config, video: bool, l: Lane, now: int, accept: bool)
    requires Sane(l.track) && Idle(l.track) && TimedOut(c, video, l, now, accept).Ok?
    ensures Reading(Started(l.clock, c.start, now), now).Ok?
  {
  }

  // ----- the first frame of a session

  /** Where the first real frame goes: to the media time, but never before the end of its track's backup output. */
  ghost predicate Anchored(t: Track, f: Frame, media: int, after: Lane, out: Output) {
    var tb := after.track.timeBase;
    && out.source == Input(f.picture) && out.timeBase == tb
    && FromUs(media, tb).Ok? && Rescale(f.pts, f.timeBase, tb).Ok?
    && (if t.hasOutput
        then t.next.Some? && Carried(t.next.value, t.timeBase, tb).Ok? &&
          out.pts == Max(FromUs(media, tb).value, Carried(t.next.value, t.timeBase, tb).value)
        else out.pts == FromUs(media, tb).value)
    && after.track.shift == Some(out.pts - Rescale(f.pts, f.timeBase, tb).value)
    && ToUs(after.track.shift.value, tb).Ok? && after.clock.shift == Some(ToUs(after.track.shift.value, tb).value)
  }

  lemma CorrectAnchors(c: Config, video: bool, l: Lane, f: Frame, now: int, media: int)
    requires Sane(l.track) && Idle(l.track) && l.clock.shift.None? && (video || f.samples > 0)
    requires Correct(c, video, l, f, now, true).Ok?
    requires Reading(Started(l.clock, c.start, now), now).Ok? ==>
      Reading(Started(l.clock, c.start, now), now) == Ok(media)
    ensures var (after, o) := Correct(c, video, l, f, now, true).value;
      o.output.Some? && Anchored(l.track, f, media, after, o.output.value)
  {
    hide Rescale, Real, Reading, Rebased, Sane, SameRational, Carried;
    RebasedKeeps(video, l.track, f);
    OutputHasNext(l.track);
    var t := Rebased(video, l.track, f).value;
    var original := Rescale(f.pts, f.timeBase, t.timeBase).value;
    var (anchored, pts) := Anchor(c, l.(track := t), original, now).value;
    SaneIgnoresShifts(t, anchored.track);
    RealPlaces(c, video, anchored, f, pts, now, true);
  }

  /** In every session the first real frame goes to the media time of the moment, and fixes both shifts there. */
  lemma FirstFrameIsAnchored(c: Config, calls: seq<Call>, isVideo: bool, f: Frame, now: int)
    requires Startable(c) && AnyRun(c, calls).clock.shift.None? && Idle(AnyRun(c, calls).Of(isVideo).track)
    requires Admissible(AnyRun(c, calls), Call(isVideo, Some(Decoded(f)), now, true)) && (isVideo || f.samples > 0)
    requires Next(c, calls, Call(isVideo, Some(Decoded(f)), now, true)).Ok?
    ensures var s := AnyRun(c, calls);
            var (after, o) := Next(c, calls, Call(isVideo, Some(Decoded(f)), now, true)).value;
            o.output.Some? && Anchored(s.Of(isVideo).track, f, Media(c, s, now), after, o.output.value)
  {
    hide AnyRun, Inv, Rescale, Correct, Media, Covers, Anchored;
    var s := AnyRun(c, calls);
    var l := Lane(s.Of(isVideo).track, s.clock);
    ClockHolds(c, calls);
    RetainedHeadServes(c, s, Call(isVideo, Some(Decoded(f)), now, true));
    if Reading(Started(s.clock, c.start, now), now).Ok? {
      ReadingIsMedia(c, s, now);
    }
    CorrectAnchors(c, isVideo, l, f, now, Media(c, s, now));
  }

  // ----- refused frames

  lemma RefusedFollowAlike(c: Config, video: bool, l: Lane, desync: bool, f: Frame, original: int, pts: int, now: int)
    requires l.track.shift.Some? && l.track.fillUntil.None? && l.track.pendingRealPts.None?
    requires Follow(c, video, l, desync, f, original, pts, now, true).Ok?
    requires Follow(c, video, l, desync, f, original, pts, now, false).Ok?
    requires Follow(c, video, l, desync, f, original, pts, now, true).value.1.consumed
    ensures var (after, o) := Follow(c, video, l, desync, f, original, pts, now, false).value;
            o.blocked && after.clock == Follow(c, video, l, desync, f, original, pts, now, true).value.0.clock
  {
    hide Rescale, Fill, Jumps;
    var t := l.track;
    JumpsOrWithin(c, t, pts);
    if Jumps(c, t.next, t.timeBase, pts).value && pts > t.next.value && !t.tryWithoutFilling {
      FillConsumesNothing(c, video, l.(track := BeginFill(t, pts, true)), Some(Decoded(f)), now, true);
    }
  }

  lemma FillConsumesNothing(c: Config, video: bool, l: Lane, head: Option<Head>, now: int, accept: bool)
    requires Filling(l.track) && HeadRetained(l.track, head) && Fill(c, video, l, head, now, accept).Ok?
    ensures !Fill(c, video, l, head, now, accept).value.1.consumed
  {
    hide Rescale, FinishFill;
  }

  lemma RefusedCorrectAlike(c: Config, video: bool, l: Lane, f: Frame, now: int)
    requires Sane(l.track) && Idle(l.track)
    requires Correct(c, video, l, f, now, true).Ok? && Correct(c, video, l, f, now, false).Ok?
    requires Correct(c, video, l, f, now, true).value.1.consumed
    ensures var (after, o) := Correct(c, video, l, f, now, false).value;
            o.blocked && after.clock == Correct(c, video, l, f, now, true).value.0.clock
  {
    hide Rescale, Follow, Adopt, Anchor, Rebased, Sane, SameRational;
    RebasedKeeps(video, l.track, f);
    OutputHasNext(l.track);
    if l.clock.shift.Some? {
      var t := Rebased(video, l.track, f).value;
      var original := Rescale(f.pts, f.timeBase, t.timeBase).value;
      var (adopted, desync) := Adopt(c, t, l.clock.shift.value).value;
      RefusedFollowAlike(c, video, l.(track := adopted), desync, f, original, original + adopted.shift.value, now);
    }
  }

  /** A real frame that is refused moves the clock just as if it had been accepted. */
  lemma RefusedFrameMovesTheClock(c: Config, calls: seq<Call>, isVideo: bool, f: Frame, now: int)
    requires Startable(c) && Admissible(AnyRun(c, calls), Call(isVideo, Some(Decoded(f)), now, true))
    requires Next(c, calls, Call(isVideo, Some(Decoded(f)), now, true)).Ok?
    requires Next(c, calls, Call(isVideo, Some(Decoded(f)), now, true)).value.1.consumed
    requires Next(c, calls, Call(isVideo, Some(Decoded(f)), now, false)).Ok?
    ensures var (taken, refused) := (Next(c, calls, Call(isVideo, Some(Decoded(f)), now, true)).value,
              Next(c, calls, Call(isVideo, Some(Decoded(f)), now, false)).value);
            refused.1.blocked && refused.1.output.None? && refused.0.clock == taken.0.clock
  {
    hide AnyRun, Inv, Rescale, Correct, Fill;
    var s := AnyRun(c, calls);
    var t := s.Of(isVideo).track;
    ClockHolds(c, calls);
    RetainedHeadServes(c, s, Call(isVideo, Some(Decoded(f)), now, true));
    if t.fillUntil.Some? {
      FillConsumesNothing(c, isVideo, Lane(t, s.clock), Some(Decoded(f)), now, true);
    } else {
      RefusedCorrectAlike(c, isVideo, Lane(t.(pendingRealPts := None), s.clock), f, now);
      RefusedPutsNothingOut(c, isVideo, Lane(t.(pendingRealPts := None), s.clock), f, now);
      assert t.pendingRealPts.None? ==> t.(pendingRealPts := None) == t;
    }
  }

  lemma RefusedPutsNothingOut(c: Config, video: bool, l: Lane, f: Frame, now: int)
    requires Sane(l.track) && Idle(l.track) && Correct(c, video, l, f, now, false).Ok?
    ensures Correct(c, video, l, f, now, false).value.1.output.None?
  {
    hide Rescale, Adopt, Anchor, Rebased, SameRational, Jumps, FinishFill;
    RebasedKeeps(video, l.track, f);
  }
}
