/**
 * The synchroniser's promises: a continuous timeline per track, shifts that stay together, and heads that get consumed.
 */
module SyncerContinuity {
  import opened Results
  import opened TimeMath
  import opened SyncerRules

  // ----- one step

  /** A position carried into the time base a track has changed to. */
  function Carried(position: int, from: TimeBase, to: TimeBase): Result<int> {
    if SameRational(from, to) then Ok(position) else Rescale(position, from, to)
  }

  /** Only a video frame in another time base makes its track change to that time base. */
  ghost predicate KeepsTimeBase(video: bool, before: Track, after: Track, head: Option<Head>) {
    || after.timeBase == before.timeBase
    || (video && head.Some? && head.value.Decoded? && after.timeBase == head.value.frame.timeBase
        && !SameRational(before.timeBase, after.timeBase))
  }

  /** How a step treats the position a track is expected at. */
  ghost predicate Placed(c: Config, before: Lane, after: Track, output: Option<Output>) {
    before.track.next.Some? ==>
      var expected := Carried(before.track.next.value, before.track.timeBase, after.timeBase);
      && expected.Ok?
      && (output.None? ==> after.next == Some(expected.value) && after.hasOutput == before.track.hasOutput)
      && (output.Some? && (before.clock.shift.Some? || !output.value.source.Input?) ==>
            Continues(c, output.value, expected.value))
      && (output.Some? && before.track.hasOutput && before.clock.shift.None? ==> output.value.pts >= expected.value)
  }

  /** Microseconds between two positions, as the source measures them. */
  ghost predicate Within(c: Config, a: int, b: int, tb: TimeBase) {
    var x, y := ToUs(a, tb), ToUs(b, tb);
    x.Ok? && y.Ok? && Abs(x.value - y.value) < c.maxStreamsDiff
  }

  /** Exactly where expected, or, for a real frame only, less than the tolerance away. */
  ghost predicate Continues(c: Config, out: Output, expected: int) {
    out.pts == expected || (out.source.Input? && Within(c, out.pts, expected, out.timeBase))
  }

  /** What an output is, and what it does to the track. */
  ghost predicate Advances(after: Track, o: Outcome) {
    match o.output
    case None => true
    case Some(out) =>
      && out.duration > 0 && after.hasOutput && !o.blocked
      && after.next == Some(out.pts + out.duration)
      && after.timeBase == out.timeBase
      && (out.source.Input? <==> o.consumed)
  }

  /** Consuming a decoded head is the same as putting that very frame out. */
  ghost predicate ConsumesItsHead(head: Option<Head>, o: Outcome) {
    o.consumed ==> head.Some? && match head.value
      case Eof => o.output.None?
      case Decoded(f) => o.output.Some? && o.output.value.source == Input(f.picture)
  }

  ghost predicate SoundHead(video: bool, head: Option<Head>) {
    head.Some? && head.value.Decoded? ==> video || head.value.frame.samples > 0
  }

  lemma RealPlaces(c: Config, video: bool, l: Lane, f: Frame, pts: int, now: int, accept: bool)
    requires Real(c, video, l, f, pts, now, accept).Ok?
    requires Sane(l.track) && l.track.fillUntil.None? && (video || f.samples > 0)
    ensures var (after, o) := Real(c, video, l, f, pts, now, accept).value;
            && Sane(after.track) && Advances(after.track, o) && ConsumesItsHead(Some(Decoded(f)), o)
            && o.consumed == accept == !o.blocked
            && (o.output.Some? <==> accept)
            && (accept ==>
                  && o.output.value.pts == pts && o.output.value.source == Input(f.picture)
                  && o.output.value.timeBase == l.track.timeBase)
            && (!accept ==> after.track == l.track)
            && after.track.shift == l.track.shift && after.clock.shift == l.clock.shift
            && after.track.fillUntil.None? && after.track.timeBase == l.track.timeBase
            && (after.track.pendingRealPts.Some? ==> !accept && l.track.pendingRealPts.Some?)
  {
    hide Rescale, SameRational;
  }

  lemma FinishEnds(l: Lane, head: Option<Head>, lastPts: int, now: int, blocked: bool)
    requires l.track.next.Some? && l.track.fillUntil.Some? && HeadRetained(l.track, head)
    requires FinishFill(l, head, lastPts, now, blocked).Ok?
    ensures var (after, wake) := FinishFill(l, head, lastPts, now, blocked).value;
            && after.track.next == l.track.next && after.track.hasOutput == l.track.hasOutput
            && after.track.timeBase == l.track.timeBase && after.track.fillUntil.None?
            && (l.clock.shift.Some? ==> after.clock.shift.Some?)
            && (after.track.pendingRealPts.Some? ==> l.track.pendingRealPts.Some? || l.track.forwardFill)
  {
    hide Rescale, Updated;
  }

  lemma FillPlaces(c: Config, video: bool, l: Lane, head: Option<Head>, now: int, accept: bool)
    requires Filling(l.track) && HeadRetained(l.track, head)
    requires Fill(c, video, l, head, now, accept).Ok?
    requires l.track.hasOutput ==> l.track.next.Some?
    ensures var (after, o) := Fill(c, video, l, head, now, accept).value;
            && Sane(after.track) && Advances(after.track, o) && !o.consumed
            && (o.output.Some? <==> accept) && o.blocked == !accept
            && (accept ==> Some(o.output.value.pts) == l.track.next && !o.output.value.source.Input?)
            && (!accept ==> after.track.next == l.track.next && after.track.hasOutput == l.track.hasOutput)
            && after.track.timeBase == l.track.timeBase
            && (l.clock.shift.Some? ==> after.clock.shift.Some?)
            && (Engaged(after.track) ==> l.track.forwardFill)
  {
    hide Rescale, SameRational, FinishFill;
    var t, pts := l.track, l.track.next.value;
    if !accept {
      FinishEnds(l, head, pts, now, true);
    } else {
      var missing := Subtract(t.fillUntil.value, pts).value;
      var duration := if video then VideoDuration(c, t.timeBase).value else Min(SILENCE_SAMPLES, missing);
      var us := ToUs(duration, t.timeBase).value;
      var filled :=
        t.(next := Some(pts + duration), hasOutput := true, filled := t.filled + 1, filledUs := t.filledUs + us);
      if pts + duration >= t.fillUntil.value || filled.filled == MAX_FILLERS {
        FinishEnds(l.(track := filled), head, pts, now, false);
      }
    }
  }

  lemma JumpsOrWithin(c: Config, t: Track, pts: int)
    requires Jumps(c, t.next, t.timeBase, pts).Ok?
    ensures Jumps(c, t.next, t.timeBase, pts).value ==> t.next.Some?
    ensures !Jumps(c, t.next, t.timeBase, pts).value && t.next.Some? ==>
      pts == t.next.value || Within(c, pts, t.next.value, t.timeBase)
  {
    hide Rescale;
  }

  lemma FollowPlaces(c: Config, video: bool, l: Lane, desync: bool, f: Frame, original: int, pts: int, now: int,
    accept: bool)
    requires l.track.shift.Some? && l.track.fillUntil.None? && l.track.pendingRealPts.None?
    requires Sane(l.track) && l.clock.shift.Some? && (video || f.samples > 0)
    requires Follow(c, video, l, desync, f, original, pts, now, accept).Ok?
    ensures var (after, o) := Follow(c, video, l, desync, f, original, pts, now, accept).value;
            && Sane(after.track) && Advances(after.track, o) && ConsumesItsHead(Some(Decoded(f)), o)
            && (o.output.Some? && l.track.next.Some? ==> Continues(c, o.output.value, l.track.next.value))
            && (o.output.None? ==>
                  after.track.next == l.track.next && after.track.hasOutput == l.track.hasOutput && !o.consumed)
            && (o.blocked ==> !accept && o.output.None?)
            && (after.track.timeBase == l.track.timeBase) && after.clock.shift.Some?
            && (Engaged(after.track) ==> !o.consumed)
  {
    hide Rescale, Fill, Real, Jumps, Within, Subtract, Sane;
    var t := l.track;
    var jump := Jumps(c, t.next, t.timeBase, pts).value;
    assert Sane(t);
    JumpsOrWithin(c, t, pts);
    if jump && pts > t.next.value {
      if !t.tryWithoutFilling {
        FillPlaces(c, video, l.(track := BeginFill(t, pts, true)), Some(Decoded(f)), now, accept);
      } else {
        SaneIgnoresShifts(t, Follow(c, video, l, desync, f, original, pts, now, accept).value.0.track);
      }
    } else if jump {
      var adjusted := Adjust(l, original).value;
      SaneIgnoresShifts(t, adjusted.track);
      RealPlaces(c, video, adjusted, f, t.next.value, now, accept);
    } else {
      var shared := if desync then Some(ToUs(t.shift.value, t.timeBase).value) else l.clock.shift;
      RealPlaces(c, video, l.(clock := l.clock.(shift := shared)), f, pts, now, accept);
      assert l.(clock := l.clock.(shift := l.clock.shift)) == l;
    }
  }

  lemma SaneIgnoresShifts(t: Track, after: Track)
    requires Sane(t) && t.fillUntil.None? && after.fillUntil.None?
    requires after.hasOutput == t.hasOutput && after.next == t.next
    ensures Sane(after)
  {
  }

  lemma RebasedKeeps(video: bool, t: Track, f: Frame)
    requires Rebased(video, t, f).Ok? && Sane(t) && t.fillUntil.None? && t.pendingRealPts.None?
    ensures var after := Rebased(video, t, f).value;
            && Sane(after) && after.fillUntil.None? && after.pendingRealPts.None?
            && KeepsTimeBase(video, t, after, Some(Decoded(f)))
            && (t.next.Some? ==>
                  after.next.Some? && Carried(t.next.value, t.timeBase, after.timeBase) == Ok(after.next.value))
            && (after.next.Some? <==> t.next.Some?) && after.hasOutput == t.hasOutput
            && (video ==> SameRational(after.timeBase, f.timeBase))
  {
    hide Rescale;
  }

  lemma CorrectPlaces(c: Config, video: bool, l: Lane, f: Frame, now: int, accept: bool)
    requires Sane(l.track) && l.track.fillUntil.None? && l.track.pendingRealPts.None? && (video || f.samples > 0)
    requires Correct(c, video, l, f, now, accept).Ok?
    ensures var (after, o) := Correct(c, video, l, f, now, accept).value;
            && Sane(after.track) && Advances(after.track, o) && ConsumesItsHead(Some(Decoded(f)), o)
            && Placed(c, l, after.track, o.output)
            && KeepsTimeBase(video, l.track, after.track, Some(Decoded(f)))
            && (video ==> SameRational(after.track.timeBase, f.timeBase))
            && (o.consumed <==> o.output.Some? && o.output.value.source.Input?)
            && (o.blocked ==> !accept && o.output.None?)
            && (Engaged(after.track) ==> !o.consumed)
            && after.clock.shift.Some?
  {
    hide Rescale, Follow, Real, Adopt, Reading, Rebased, Subtract, Sane, SameRational, Carried, Continues;
    RebasedKeeps(video, l.track, f);
    assert l.track.hasOutput ==> l.track.next.Some? by {
      OutputHasNext(l.track);
    }
    var t := Rebased(video, l.track, f).value;
    var original := Rescale(f.pts, f.timeBase, t.timeBase).value;
    if l.clock.shift.None? {
      var (anchored, pts) := Anchor(c, l.(track := t), original, now).value;
      SaneIgnoresShifts(t, anchored.track);
      RealPlaces(c, video, anchored, f, pts, now, accept);
    } else {
      var (adopted, desync) := Adopt(c, t, l.clock.shift.value).value;
      SaneIgnoresShifts(t, adopted);
      FollowPlaces(c, video, l.(track := adopted), desync, f, original, original + adopted.shift.value, now, accept);
    }
  }

  lemma OutputHasNext(t: Track)
    requires Sane(t)
    ensures t.hasOutput ==> t.next.Some?
  {
  }

  lemma TimedOutPlaces(c: Config, video: bool, l: Lane, now: int, accept: bool)
    requires Sane(l.track) && l.track.fillUntil.None? && l.track.pendingRealPts.None?
    requires TimedOut(c, video, l, now, accept).Ok?
    ensures var (after, o) := TimedOut(c, video, l, now, accept).value;
            && Sane(after.track) && Advances(after.track, o) && !o.consumed
            && (o.output.Some? ==> !o.output.value.source.Input?)
            && Placed(c, l, after.track, o.output)
            && after.track.timeBase == l.track.timeBase
            && !Engaged(after.track)
            && (o.blocked ==> !accept && o.output.None?)
            && (l.clock.shift.Some? ==> after.clock.shift.Some?)
  {
    hide Rescale, Fill, Reading, Late;
    var clock := Started(l.clock, c.start, now);
    var rtc := Reading(clock, now).value;
    var next := if l.track.next.Some? then l.track.next.value else FromUs(c.start, l.track.timeBase).value;
    var target := FromUs(rtc, l.track.timeBase).value;
    var t := l.track.(next := Some(next), lastSuccess := false, waitUntil := now + POLL_US);
    if Late(c, l.track.lastSuccess, l.track.timeBase, rtc, next).value && next < target {
      FillPlaces(c, video, Lane(BeginFill(t, target, false), clock), None, now, accept);
    }
  }

  /** The head a track needs is there, and for video it is in the track's time base. */
  ghost predicate Serves(video: bool, t: Track, head: Option<Head>) {
    Engaged(t) ==> head.Some? && head.value.Decoded? && (video ==> SameRational(t.timeBase, head.value.frame.timeBase))
  }

  /**
   * Every accepted frame continues its track: a filler exactly, a real frame less than the tolerance off; a refused one
   * moves nothing.
   */
  lemma StepPlaces(c: Config, video: bool, l: Lane, head: Option<Head>, now: int, accept: bool)
    requires Sane(l.track) && Serves(video, l.track, head) && SoundHead(video, head)
    requires Step(c, video, l, head, now, accept).Ok?
    ensures var (after, o) := Step(c, video, l, head, now, accept).value;
            && Sane(after.track) && Advances(after.track, o) && ConsumesItsHead(head, o)
            && Placed(c, l, after.track, o.output)
            && KeepsTimeBase(video, l.track, after.track, head)
            && Serves(video, after.track, if o.consumed then None else head)
            && (o.blocked ==> !accept && o.output.None?)
            && (l.clock.shift.Some? ==> after.clock.shift.Some?)
  {
    hide Rescale, Fill, TimedOut, Correct, SameRational;
    var t := l.track;
    if t.fillUntil.Some? {
      FillPlaces(c, video, l, head, now, accept);
      SameBase(t.timeBase);
    } else if t.pendingRealPts.Some? {
      if now >= t.suspendedUntil {
        CorrectPlaces(c, video, l.(track := t.(pendingRealPts := None)), head.value.frame, now, accept);
      } else {
        SameBase(t.timeBase);
      }
    } else if head.Some? {
      if head.value.Decoded? {
        CorrectPlaces(c, video, l, head.value.frame, now, accept);
      } else {
        SameBase(t.timeBase);
      }
    } else if now >= t.waitUntil {
      TimedOutPlaces(c, video, l, now, accept);
    } else {
      SameBase(t.timeBase);
    }
  }

  lemma SameBase(tb: TimeBase)
    ensures SameRational(tb, tb)
  {
  }

  // ----- the tracks' shifts

  ghost predicate SaneClock(k: Clock) {
    k.shift.Some? ==> INT64_MIN < k.shift.value
  }

  /** Half a track tick in microseconds, plus the rounding of a conversion. */
  ghost function HalfTickUs(tb: TimeBase): real {
    0.5 * Factor(tb, MICROSECONDS) + 0.5
  }

  /** The track's own shift, converted as the source converts it, is near the shared one. */
  ghost predicate Together(c: Config, t: Track, shared: Option<int>) {
    t.shift.Some? && shared.Some? && (
      var own := ToUs(t.shift.value, t.timeBase);
      own.Ok? ==>
        || Abs(own.value - shared.value) <= c.maxStreamsDiff
        || Abs(own.value - shared.value) as real <= HalfTickUs(t.timeBase))
  }

  lemma SharedThereAndBack(shared: int, tb: TimeBase)
    requires INT64_MIN < shared && FromUs(shared, tb).Ok?
    ensures var own := ToUs(FromUs(shared, tb).value, tb);
            own.Ok? ==> Abs(own.value - shared) as real <= HalfTickUs(tb)
  {
    hide Rescale, Factor, Scaled;
    var local := FromUs(shared, tb).value;
    assert local == Scaled(shared, MICROSECONDS, tb) by {
      Exact(shared, MICROSECONDS, tb);
    }
    if ToUs(local, tb).Ok? {
      Exact(local, tb, MICROSECONDS);
      ScaledRoundTrip(shared, MICROSECONDS, tb);
    }
  }

  lemma Exact(value: int, from: TimeBase, to: TimeBase)
    requires INT64_MIN < value && Rescale(value, from, to).Ok?
    ensures Rescale(value, from, to).value == Scaled(value, from, to)
    ensures INT64_MIN < Rescale(value, from, to).value
  {
  }

  lemma AdoptTogether(c: Config, t: Track, shared: int)
    requires c.maxStreamsDiff > 0 && INT64_MIN < shared && Adopt(c, t, shared).Ok?
    ensures var (after, desync) := Adopt(c, t, shared).value; !desync ==> Together(c, after, Some(shared))
  {
    hide Rescale, HalfTickUs;
    if t.shift.None? {
      SharedThereAndBack(shared, t.timeBase);
    }
  }

  lemma AdjustTogether(c: Config, l: Lane, original: int)
    requires l.track.next.Some? && Adjust(l, original).Ok? && c.maxStreamsDiff > 0
    ensures var after := Adjust(l, original).value;
      Together(c, after.track, after.clock.shift) && SaneClock(after.clock)
  {
    hide HalfTickUs, AvRescaleQ, Scaled;
  }

  lemma AnchorTogether(c: Config, l: Lane, original: int, now: int)
    requires (l.track.hasOutput ==> l.track.next.Some?) && Anchor(c, l, original, now).Ok? && c.maxStreamsDiff > 0
    ensures var after := Anchor(c, l, original, now).value.0;
      Together(c, after.track, after.clock.shift) && SaneClock(after.clock)
  {
    hide HalfTickUs, AvRescaleQ, Scaled, Reading;
  }

  lemma RealTogether(c: Config, video: bool, l: Lane, f: Frame, pts: int, now: int, accept: bool)
    requires Real(c, video, l, f, pts, now, accept).Ok?
    ensures var after := Real(c, video, l, f, pts, now, accept).value.0;
            && (Together(c, l.track, l.clock.shift) ==> Together(c, after.track, after.clock.shift))
            && after.clock.shift == l.clock.shift
  {
    hide Rescale, HalfTickUs, SameRational, VideoDuration;
  }

  lemma FillKeepsClockSane(c: Config, video: bool, l: Lane, head: Option<Head>, now: int, accept: bool)
    requires Filling(l.track) && HeadRetained(l.track, head) && SaneClock(l.clock)
    requires Fill(c, video, l, head, now, accept).Ok?
    ensures SaneClock(Fill(c, video, l, head, now, accept).value.0.clock)
  {
    hide AvRescaleQ, Scaled, SameRational, FillerSource, VideoDuration;
  }

  lemma FollowTogether(c: Config, video: bool, l: Lane, desync: bool, f: Frame, original: int, pts: int, now: int,
    accept: bool)
    requires l.track.shift.Some? && l.track.fillUntil.None? && l.track.pendingRealPts.None? && Sane(l.track)
    requires c.maxStreamsDiff > 0 && SaneClock(l.clock) && l.clock.shift.Some?
    requires !desync ==> Together(c, l.track, l.clock.shift)
    requires Follow(c, video, l, desync, f, original, pts, now, accept).Ok?
    ensures var (after, o) := Follow(c, video, l, desync, f, original, pts, now, accept).value;
            && SaneClock(after.clock)
            && (o.consumed ==> Together(c, after.track, after.clock.shift))
  {
    hide AvRescaleQ, Scaled, Fill, Real, Jumps, Subtract, HalfTickUs, Sane;
    var t := l.track;
    var jump := Jumps(c, t.next, t.timeBase, pts).value;
    JumpsOrWithin(c, t, pts);
    if jump && pts > t.next.value {
      if !t.tryWithoutFilling {
        var filling := l.(track := BeginFill(t, pts, true));
        FillPlaces(c, video, filling, Some(Decoded(f)), now, accept);
        FillKeepsClockSane(c, video, filling, Some(Decoded(f)), now, accept);
      } else {
        AdjustTogether(c, l.(track := t.(tryWithoutFilling := false)), original);
      }
    } else if jump {
      AdjustTogether(c, l, original);
      RealTogether(c, video, Adjust(l, original).value, f, t.next.value, now, accept);
    } else {
      var shared := if desync then Some(ToUs(t.shift.value, t.timeBase).value) else l.clock.shift;
      RealTogether(c, video, l.(clock := l.clock.(shift := shared)), f, pts, now, accept);
      assert l.(clock := l.clock.(shift := l.clock.shift)) == l;
    }
  }

  lemma CorrectTogether(c: Config, video: bool, l: Lane, f: Frame, now: int, accept: bool)
    requires Sane(l.track) && l.track.fillUntil.None? && l.track.pendingRealPts.None?
    requires c.maxStreamsDiff > 0 && SaneClock(l.clock)
    requires Correct(c, video, l, f, now, accept).Ok?
    ensures var (after, o) := Correct(c, video, l, f, now, accept).value;
            && SaneClock(after.clock)
            && (o.consumed ==> Together(c, after.track, after.clock.shift))
  {
    hide Rescale, Follow, Real, Adopt, Anchor, Rebased, Together, Sane;
    RebasedKeeps(video, l.track, f);
    OutputHasNext(l.track);
    var t := Rebased(video, l.track, f).value;
    var original := Rescale(f.pts, f.timeBase, t.timeBase).value;
    if l.clock.shift.None? {
      AnchorTogether(c, l.(track := t), original, now);
      var (anchored, pts) := Anchor(c, l.(track := t), original, now).value;
      RealTogether(c, video, anchored, f, pts, now, accept);
    } else {
      AdoptTogether(c, t, l.clock.shift.value);
      var (adopted, desync) := Adopt(c, t, l.clock.shift.value).value;
      SaneIgnoresShifts(t, adopted);
      FollowTogether(c, video, l.(track := adopted), desync, f, original, original + adopted.shift.value, now, accept);
    }
  }

  lemma TimedOutKeepsClockSane(c: Config, video: bool, l: Lane, now: int, accept: bool)
    requires Sane(l.track) && l.track.fillUntil.None? && l.track.pendingRealPts.None? && SaneClock(l.clock)
    requires TimedOut(c, video, l, now, accept).Ok?
    ensures SaneClock(TimedOut(c, video, l, now, accept).value.0.clock)
  {
    hide Rescale, Fill, Reading, Late;
    var clock := Started(l.clock, c.start, now);
    var rtc := Reading(clock, now).value;
    var next := if l.track.next.Some? then l.track.next.value else FromUs(c.start, l.track.timeBase).value;
    var target := FromUs(rtc, l.track.timeBase).value;
    var t := l.track.(next := Some(next), lastSuccess := false, waitUntil := now + POLL_US);
    if Late(c, l.track.lastSuccess, l.track.timeBase, rtc, next).value && next < target {
      FillKeepsClockSane(c, video, Lane(BeginFill(t, target, false), clock), None, now, accept);
    }
  }

  /** At every accepted real frame the track's shift and the shared shift agree up to the tolerance or half a tick. */
  lemma StepKeepsShiftsTogether(c: Config, video: bool, l: Lane, head: Option<Head>, now: int, accept: bool)
    requires Sane(l.track) && HeadRetained(l.track, head) && SaneClock(l.clock) && c.maxStreamsDiff > 0
    requires Step(c, video, l, head, now, accept).Ok?
    ensures var (after, o) := Step(c, video, l, head, now, accept).value;
            && SaneClock(after.clock)
            && (o.consumed && o.output.Some? ==> Together(c, after.track, after.clock.shift))
  {
    hide Rescale, Fill, TimedOut, Correct, Together;
    var t := l.track;
    if t.fillUntil.Some? {
      FillPlaces(c, video, l, head, now, accept);
      FillKeepsClockSane(c, video, l, head, now, accept);
    } else if t.pendingRealPts.Some? {
      if now >= t.suspendedUntil {
        CorrectTogether(c, video, l.(track := t.(pendingRealPts := None)), head.value.frame, now, accept);
      }
    } else if head.Some? {
      if head.value.Decoded? {
        CorrectTogether(c, video, l, head.value.frame, now, accept);
      }
    } else if now >= t.waitUntil {
      TimedOutPlaces(c, video, l, now, accept);
      TimedOutKeepsClockSane(c, video, l, now, accept);
    }
  }
}
