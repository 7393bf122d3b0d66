/**
 * What fillers show: the last real picture of the track while it is frozen, else the standby picture, and silence for
 * audio.
 */
module SyncerPictures {
  import opened Results
  import opened TimeMath
  import opened SyncerRules
  import opened SyncerContinuity
  import opened SyncerProgress
  import opened SyncerRuns

  /** When the last real frame was: the position of one just put out, else unchanged. */
  ghost predicate Dates(before: Track, after: Track, output: Option<Output>) {
    if output.Some? && output.value.source.Input? then after.lastRealPts == output.value.pts
    else after.timeBase == before.timeBase ==> after.lastRealPts == before.lastRealPts
  }

  /** A step remembers exactly the real picture it puts out, and freezes only the one remembered before. */
  ghost predicate Remembers(video: bool, before: Track, after: Track, output: Option<Output>) {
    Dates(before, after, output) &&
    match output
    case None => after.lastReal == before.lastReal
    case Some(out) =>
      match out.source
      case Input(p) => after.lastReal == if video then Some(p) else before.lastReal
      case Frozen(p) => video && before.lastReal == Some(p) && after.lastReal == before.lastReal
      case Backup => video && after.lastReal == before.lastReal
      case Silence => !video && after.lastReal == before.lastReal
  }

  lemma RealRemembers(c: Config, video: bool, l: Lane, f: Frame, pts: int, now: int, accept: bool)
    requires Real(c, video, l, f, pts, now, accept).Ok?
    ensures var (after, o) := Real(c, video, l, f, pts, now, accept).value;
      Remembers(video, l.track, after.track, o.output) && after.track.timeBase == l.track.timeBase
  {
    hide Rescale, VideoDuration, Updated;
  }

  lemma FinishRemembers(l: Lane, head: Option<Head>, lastPts: int, now: int, blocked: bool)
    requires l.track.next.Some? && l.track.fillUntil.Some? && HeadRetained(l.track, head)
    requires FinishFill(l, head, lastPts, now, blocked).Ok?
    ensures var after := FinishFill(l, head, lastPts, now, blocked).value.0.track;
            && after.lastReal == l.track.lastReal && after.lastRealPts == l.track.lastRealPts
            && after.timeBase == l.track.timeBase
  {
    hide Rescale, Updated, Adjust;
  }

  lemma FillRemembers(c: Config, video: bool, l: Lane, head: Option<Head>, now: int, accept: bool)
    requires Filling(l.track) && HeadRetained(l.track, head) && Fill(c, video, l, head, now, accept).Ok?
    ensures var (after, o) := Fill(c, video, l, head, now, accept).value;
      Remembers(video, l.track, after.track, o.output) && after.track.timeBase == l.track.timeBase
  {
    hide Rescale, FinishFill;
    var t, pts := l.track, l.track.next.value;
    if !accept {
      FinishRemembers(l, head, pts, now, true);
    } else {
      var missing := Subtract(t.fillUntil.value, pts).value;
      var duration := if video then VideoDuration(c, t.timeBase).value else Min(SILENCE_SAMPLES, missing);
      var us := ToUs(duration, t.timeBase).value;
      var filled :=
        t.(next := Some(pts + duration), hasOutput := true, filled := t.filled + 1, filledUs := t.filledUs + us);
      if pts + duration >= t.fillUntil.value || filled.filled == MAX_FILLERS {
        FinishRemembers(l.(track := filled), head, pts, now, false);
      }
    }
  }

  lemma FollowRemembers(c: Config, video: bool, l: Lane, desync: bool, f: Frame, original: int, pts: int, now: int,
    accept: bool)
    requires l.track.shift.Some? && l.track.fillUntil.None? && l.track.pendingRealPts.None?
    requires Follow(c, video, l, desync, f, original, pts, now, accept).Ok?
    ensures var (after, o) := Follow(c, video, l, desync, f, original, pts, now, accept).value;
      Remembers(video, l.track, after.track, o.output) && after.track.timeBase == l.track.timeBase
  {
    hide Rescale, Fill, Real, Jumps, Adjust;
    var t := l.track;
    JumpsOrWithin(c, t, pts);
    var jump := Jumps(c, t.next, t.timeBase, pts).value;
    if jump && pts > t.next.value {
      if !t.tryWithoutFilling {
        FillRemembers(c, video, l.(track := BeginFill(t, pts, true)), Some(Decoded(f)), now, accept);
      }
    } else if jump {
      RealRemembers(c, video, Adjust(l, original).value, f, t.next.value, now, accept);
    } else {
      var shared := if desync then Some(ToUs(t.shift.value, t.timeBase).value) else l.clock.shift;
      RealRemembers(c, video, l.(clock := l.clock.(shift := shared)), f, pts, now, accept);
      assert l.(clock := l.clock.(shift := l.clock.shift)) == l;
    }
  }

  lemma CorrectRemembers(c: Config, video: bool, l: Lane, f: Frame, now: int, accept: bool)
    requires Sane(l.track) && l.track.fillUntil.None? && l.track.pendingRealPts.None?
    requires Correct(c, video, l, f, now, accept).Ok?
    ensures var (after, o) := Correct(c, video, l, f, now, accept).value;
      Remembers(video, l.track, after.track, o.output)
  {
    hide Rescale, Follow, Real, Adopt, Reading, Rebased, Subtract, Sane, SameRational;
    RebasedKeeps(video, l.track, f);
    RebasedRemembers(video, l.track, f);
    OutputHasNext(l.track);
    var t := Rebased(video, l.track, f).value;
    var original := Rescale(f.pts, f.timeBase, t.timeBase).value;
    if l.clock.shift.None? {
      var (anchored, pts) := Anchor(c, l.(track := t), original, now).value;
      RealRemembers(c, video, anchored, f, pts, now, accept);
    } else {
      var (adopted, desync) := Adopt(c, t, l.clock.shift.value).value;
      FollowRemembers(c, video, l.(track := adopted), desync, f, original, original + adopted.shift.value, now, accept);
    }
  }

  lemma RebasedRemembers(video: bool, t: Track, f: Frame)
    requires Rebased(video, t, f).Ok?
    ensures var after := Rebased(video, t, f).value;
      after.lastReal == t.lastReal && (after.timeBase == t.timeBase ==> after == t)
  {
    hide Rescale;
  }

  lemma TimedOutRemembers(c: Config, video: bool, l: Lane, now: int, accept: bool)
    requires Sane(l.track) && l.track.fillUntil.None? && l.track.pendingRealPts.None?
    requires TimedOut(c, video, l, now, accept).Ok?
    ensures var (after, o) := TimedOut(c, video, l, now, accept).value; Remembers(video, l.track, after.track, o.output)
  {
    hide Rescale, Fill, Reading, Late;
    var clock := Started(l.clock, c.start, now);
    var rtc := Reading(clock, now).value;
    var next := if l.track.next.Some? then l.track.next.value else FromUs(c.start, l.track.timeBase).value;
    var target := FromUs(rtc, l.track.timeBase).value;
    var t := l.track.(next := Some(next), lastSuccess := false, waitUntil := now + POLL_US);
    if Late(c, l.track.lastSuccess, l.track.timeBase, rtc, next).value && next < target {
      FillRemembers(c, video, Lane(BeginFill(t, target, false), clock), None, now, accept);
    }
  }

  lemma StepRemembers(c: Config, video: bool, l: Lane, head: Option<Head>, now: int, accept: bool)
    requires Sane(l.track) && HeadRetained(l.track, head) && Step(c, video, l, head, now, accept).Ok?
    ensures var (after, o) := Step(c, video, l, head, now, accept).value;
      Remembers(video, l.track, after.track, o.output)
  {
    hide Rescale, Fill, TimedOut, Correct;
    var t := l.track;
    if t.fillUntil.Some? {
      FillRemembers(c, video, l, head, now, accept);
    } else if t.pendingRealPts.Some? {
      if now >= t.suspendedUntil {
        CorrectRemembers(c, video, l.(track := t.(pendingRealPts := None)), head.value.frame, now, accept);
      }
    } else if head.Some? {
      if head.value.Decoded? {
        CorrectRemembers(c, video, l, head.value.frame, now, accept);
      }
    } else if now >= t.waitUntil {
      TimedOutRemembers(c, video, l, now, accept);
    }
  }

  // ----- whole sessions

  /** The picture of the latest real frame among some emissions. */
  function LastPicture(history: seq<Emission>): Option<nat> {
    if history == [] then None
    else
      match history[|history| - 1].output.source
      case Input(p) => Some(p)
      case _ => LastPicture(history[..|history| - 1])
  }

  /** What an emission may show, given those before it. */
  ghost predicate Shows(video: bool, before: seq<Emission>, source: Source) {
    match source
    case Input(_) => true
    case Frozen(p) => video && LastPicture(before) == Some(p)
    case Backup => video
    case Silence => !video
  }

  ghost predicate ShowsRight(video: bool, history: seq<Emission>) {
    forall k :: 0 <= k < |history| ==> Shows(video, history[..k], history[k].output.source)
  }

  ghost predicate SidePictures(video: bool, s: Side) {
    ShowsRight(video, s.history) && (video ==> s.track.lastReal == LastPicture(s.history)) &&
      (!video ==> s.track.lastReal.None?)
  }

  ghost predicate Pictures(s: Session) {
    SidePictures(true, s.video) && SidePictures(false, s.audio)
  }

  lemma EmissionShows(video: bool, side: Side, after: Track, e: Emission)
    requires SidePictures(video, side) && Remembers(video, side.track, after, Some(e.output))
    ensures ShowsRight(video, side.history + [e])
    ensures video ==> after.lastReal == LastPicture(side.history + [e])
  {
    var grown := side.history + [e];
    assert grown[..|side.history|] == side.history;
    forall k | 0 <= k < |grown|
      ensures Shows(video, grown[..k], grown[k].output.source)
    {
      assert k < |side.history| ==> grown[..k] == side.history[..k];
    }
  }

  lemma PerformShows(c: Config, s: Session, call: Call)
    requires Inv(c, s) && Pictures(s)
    ensures Pictures(Perform(c, s, call))
  {
    hide Step, Check, ShowsRight, LastPicture;
    if !s.failed && Admissible(s, call) && Check(c, call.isVideo, call.head, call.now).Ok? {
      RetainedHeadServes(c, s, call);
      var side := s.Of(call.isVideo);
      var step := Step(c, call.isVideo, Lane(side.track, s.clock), call.head, call.now, call.accept);
      if step.Ok? {
        var (after, o) := step.value;
        StepRemembers(c, call.isVideo, Lane(side.track, s.clock), call.head, call.now, call.accept);
        if o.output.Some? {
          EmissionShows(call.isVideo, side, after.track, Emission(o.output.value, s.clock.shift.Some?, after));
        } else {
          assert side.history + [] == side.history;
        }
      }
    }
  }

  lemma {:induction false} RunShows(c: Config, s: Session, calls: seq<Call>)
    requires Inv(c, s) && Pictures(s) && c.maxStreamsDiff > 0
    ensures Pictures(Run(c, s, calls))
    decreases calls
  {
    hide Inv, Perform, Pictures;
    if calls != [] {
      PerformKeeps(c, s, calls[0]);
      PerformShows(c, s, calls[0]);
      RunShows(c, Perform(c, s, calls[0]), calls[1..]);
    }
  }

  /**
   * In every session a frozen picture is the one of the latest real video frame put out before it; only audio is filled
   * with silence, only video with pictures.
   */
  lemma FillersShowTheLatestPicture(c: Config, calls: seq<Call>)
    requires c.Valid() && FirstPosition(c, true).Ok? && FirstPosition(c, false).Ok?
    ensures var s := AnyRun(c, calls); ShowsRight(true, s.video.history) && ShowsRight(false, s.audio.history)
  {
    hide Run, Rescale, AvRescaleQ, Inv;
    OpeningHolds(c);
    RunShows(c, Opening(c), calls);
  }
}
