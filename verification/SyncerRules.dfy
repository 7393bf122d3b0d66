/** What one step of the synchroniser does to a track and the shared clock. */
module SyncerRules {
  import opened Results
  import opened TimeMath

  const POLL_US := 22000
  const HOLD_US := 2000000
  const SUSPENSION_US := 1000
  const MAX_FILLERS := 5
  const SILENCE_SAMPLES := 1024

  /** Times in microseconds. The frame and sample rates are read only for an enabled track. */
  datatype Config = Config(
    hasVideo: bool, hasAudio: bool, frameRate: TimeBase, samplePeriod: TimeBase,
    start: int, forwardStartShift: bool,
    initialTimeout: int, timeout: int, freeze: int, maxStreamsDiff: int)
  {
    predicate Valid() {
      && (hasVideo || hasAudio)
      && initialTimeout > 0 && timeout > 0 && freeze >= 0 && maxStreamsDiff > 0
      && INT64_MIN <= start <= INT64_MAX && maxStreamsDiff <= INT64_MAX
      && (hasVideo ==> AvRescaleQ(1, Inverse(frameRate), MICROSECONDS) > 0)
    }
  }

  /** A decoded frame; `picture` stands for its content. */
  datatype Frame = Frame(picture: nat, pts: int, timeBase: TimeBase, samples: int)

  datatype Head = Eof | Decoded(frame: Frame)

  datatype Source = Input(picture: nat) | Frozen(picture: nat) | Backup | Silence

  datatype Output = Output(source: Source, pts: int, duration: int, timeBase: TimeBase)

  datatype Outcome = Outcome(consumed: bool, output: Option<Output>, wake: int, blocked: bool)

  datatype Clock = Clock(shift: Option<int>, pts: Option<int>, wall: int)

  datatype Track = Track(
    timeBase: TimeBase, next: Option<int>, shift: Option<int>,
    lastReal: Option<nat>, lastRealPts: int, lastSuccess: bool, hasOutput: bool,
    waitUntil: int, tryWithoutFilling: bool,
    fillUntil: Option<int>, forwardFill: bool, filled: int, filledUs: int,
    pendingRealPts: Option<int>, suspendedUntil: int)

  /** One track together with the clock it shares with its peer. */
  datatype Lane = Lane(track: Track, clock: Clock)

  // ----- the state a session starts in

  const NEW_CLOCK := Clock(None, None, 0)

  function TrackTimeBase(c: Config, video: bool): TimeBase {
    if video then (if c.hasVideo then Inverse(c.frameRate) else MICROSECONDS)
    else if c.hasAudio then c.samplePeriod
    else MICROSECONDS
  }

  function Fresh(tb: TimeBase, next: Option<int>, waitUntil: int): Track {
    Track(tb, next, None, None, 0, true, false, waitUntil, false, None, false, 0, 0, None, 0)
  }

  function FirstPosition(c: Config, video: bool): Result<Option<int>> {
    if c.forwardStartShift then Ok(None)
    else
      var next :- FromUs(c.start, TrackTimeBase(c, video));
      Ok(Some(next))
  }

  // ----- what the facade checks before a step

  function CheckHead(c: Config, video: bool, head: Head): Result<()> {
    match head
    case Eof => Ok(())
    case Decoded(f) =>
      if f.pts == INT64_MIN then Err(InvalidArgument)
      else if AvRescaleQ(f.pts, f.timeBase, MICROSECONDS) == INT64_MIN ||
        AvRescaleQ(f.pts, f.timeBase, MICROSECONDS) == INT64_MAX
      then Err(Overflow)
      else if video then
        if AvRescaleQ(1, Inverse(c.frameRate), f.timeBase) <= 0 then Err(InvalidArgument) else Ok(())
      else if f.samples <= 0 then Err(InvalidArgument)
      else Ok(())
  }

  function Check(c: Config, video: bool, head: Option<Head>, now: int): Result<()> {
    if !(if video then c.hasVideo else c.hasAudio) then Err(InvalidArgument)
    else if now < 0 then Err(InvalidArgument)
    else if head.None? then Ok(())
    else CheckHead(c, video, head.value)
  }

  // ----- checked arithmetic

  function Subtract(a: int, b: int): Result<int> {
    if b == INT64_MIN then Err(Overflow) else Checked(a - b)
  }

  /** A difference equal to the tolerance is a discontinuity. */
  function Apart(a: int, b: int, tolerance: int): Result<bool> {
    var difference :- Subtract(a, b);
    Ok(difference >= tolerance || difference <= -tolerance)
  }

  function ToUs(value: int, tb: TimeBase): Result<int> {
    Rescale(value, tb, MICROSECONDS)
  }

  function FromUs(value: int, tb: TimeBase): Result<int> {
    Rescale(value, MICROSECONDS, tb)
  }

  // ----- the shared clock

  function Updated(k: Clock, pts: int, now: int): Clock {
    if k.pts.None? || pts > k.pts.value then k.(pts := Some(pts), wall := now) else k
  }

  function Started(k: Clock, start: int, now: int): (r: Clock)
    ensures r.pts.Some?
  {
    if k.pts.None? then Updated(k, start, now) else k
  }

  /** The held media time, or after two seconds without progress the extrapolated one. */
  function Reading(k: Clock, now: int): Result<int>
    requires k.pts.Some?
  {
    var elapsed :- Subtract(now, k.wall);
    if elapsed < HOLD_US then Ok(k.pts.value) else Checked(k.pts.value + elapsed)
  }

  // ----- invariant of a track between steps

  ghost predicate Sane(t: Track) {
    && (t.hasOutput ==> t.next.Some?)
    && (t.fillUntil.Some? ==>
          t.next.Some? && t.next.value < t.fillUntil.value && 1 <= t.filled < MAX_FILLERS && t.pendingRealPts.None?)
  }

  ghost predicate Filling(t: Track) {
    t.fillUntil.Some? && t.next.Some? && t.next.value < t.fillUntil.value && 0 <= t.filled < MAX_FILLERS &&
      t.pendingRealPts.None?
  }

  /** The track will look at the head without checking that there is one. */
  predicate Engaged(t: Track) {
    t.pendingRealPts.Some? || (t.fillUntil.Some? && t.forwardFill)
  }

  predicate HeadRetained(t: Track, head: Option<Head>) {
    Engaged(t) ==> head.Some? && head.value.Decoded?
  }

  // ----- operations

  function Converted(value: Option<int>, from: TimeBase, to: TimeBase): (r: Result<Option<int>>)
    ensures r.Ok? ==> (r.value.Some? <==> value.Some?)
  {
    if value.None? then Ok(None)
    else var v :- Rescale(value.value, from, to); Ok(Some(v))
  }

  function ChangeTimeBase(t: Track, tb: TimeBase): Result<Track> {
    var next :- Converted(t.next, t.timeBase, tb);
    var shift :- Converted(t.shift, t.timeBase, tb);
    var fillUntil :- Converted(t.fillUntil, t.timeBase, tb);
    var pending :- Converted(t.pendingRealPts, t.timeBase, tb);
    var lastRealPts :- if t.lastReal.Some? then Rescale(t.lastRealPts, t.timeBase, tb) else Ok(t.lastRealPts);
    Ok(t.(timeBase := tb, next := next, shift := shift, fillUntil := fillUntil,
          pendingRealPts := pending, lastRealPts := lastRealPts))
  }

  /** A video track follows the time base of its input. */
  function Rebased(video: bool, t: Track, f: Frame): Result<Track> {
    if video && !SameRational(t.timeBase, f.timeBase) then ChangeTimeBase(t, f.timeBase) else Ok(t)
  }

  function VideoDuration(c: Config, tb: TimeBase): (r: Result<int>)
    ensures r.Ok? ==> r.value > 0
  {
    var duration :- Rescale(1, Inverse(c.frameRate), tb);
    if duration <= 0 then Err(InvalidArgument) else Ok(duration)
  }

  /** Makes the frame start at the next output position, and publishes the shift that does so. */
  function Adjust(l: Lane, original: int): (r: Result<Lane>)
    requires l.track.next.Some?
    ensures r.Ok? ==> r.value.track == l.track.(shift := r.value.track.shift)
  {
    var shift :- Subtract(l.track.next.value, original);
    var shared :- ToUs(shift, l.track.timeBase);
    Ok(Lane(l.track.(shift := Some(shift)), l.clock.(shift := Some(shared))))
  }

  function BeginFill(t: Track, target: int, forward: bool): Track {
    t.(fillUntil := Some(target), forwardFill := forward, filled := 0, filledUs := 0)
  }

  /** The filler: the last real picture while it is fresh, else the standby picture; silence for audio. */
  function FillerSource(c: Config, video: bool, tb: TimeBase, pts: int, lastReal: Option<nat>,
    lastRealPts: int): Result<Source> {
    if !video then Ok(Silence)
    else if lastReal.None? then Ok(Backup)
    else
      var next :- ToUs(pts, tb);
      var last :- ToUs(lastRealPts, tb);
      var age :- Subtract(next, last);
      Ok(if age < c.freeze then Frozen(lastReal.value) else Backup)
  }

  function Fill(c: Config, video: bool, l: Lane, head: Option<Head>, now: int, accept: bool): Result<(Lane, Outcome)>
    requires Filling(l.track) && HeadRetained(l.track, head)
  {
    var t := l.track;
    var pts := t.next.value;
    var missing :- Subtract(t.fillUntil.value, pts);
    var source :- FillerSource(c, video, t.timeBase, pts, t.lastReal, t.lastRealPts);
    var duration :- if video then VideoDuration(c, t.timeBase) else Ok(Min(SILENCE_SAMPLES, missing));
    if !accept then
      var end :- FinishFill(l, head, pts, now, true);
      Ok((end.0, Outcome(false, None, end.1, true)))
    else
      var next :- Checked(pts + duration);
      var us :- ToUs(duration, t.timeBase);
      var filledUs :- Checked(t.filledUs + us);
      var filled := t.(next := Some(next), hasOutput := true, filled := t.filled + 1, filledUs := filledUs);
      var output := Output(source, pts, duration, t.timeBase);
      if next >= t.fillUntil.value || filled.filled == MAX_FILLERS then
        var end :- FinishFill(l.(track := filled), head, pts, now, false);
        Ok((end.0, Outcome(false, Some(output), end.1, false)))
      else
        Ok((l.(track := filled), Outcome(false, Some(output), now, false)))
  }

  /** Ends a batch; returns when to come back. */
  function FinishFill(l: Lane, head: Option<Head>, lastPts: int, now: int, blocked: bool): Result<(Lane, int)>
    requires l.track.next.Some? && l.track.fillUntil.Some? && HeadRetained(l.track, head)
  {
    var t := l.track;
    if t.forwardFill then
      var full := t.filled == MAX_FILLERS;
      var clock :- if full || blocked then Submitted(l.clock, t.timeBase, lastPts, now) else Ok(l.clock);
      var original :- Rescale(head.value.frame.pts, head.value.frame.timeBase, t.timeBase);
      var adjusted :- Adjust(l.(clock := clock), original);
      var until :- if full && !blocked then Checked(now + Max(SUSPENSION_US, t.filledUs / 2)) else Ok(now);
      Ok((adjusted.(track := adjusted.track.(
            tryWithoutFilling := true, pendingRealPts := t.next, suspendedUntil := until, fillUntil := None)), until))
    else
      var waitUntil := if blocked then now else t.waitUntil;
      Ok((l.(track := t.(waitUntil := waitUntil, fillUntil := None)), if head.Some? then now else waitUntil))
  }

  function Submitted(k: Clock, tb: TimeBase, pts: int, now: int): Result<Clock> {
    var us :- ToUs(pts, tb);
    Ok(Updated(k, us, now))
  }

  /** Offers the real frame at `pts`. */
  function Real(c: Config, video: bool, l: Lane, f: Frame, pts: int, now: int, accept: bool): Result<(Lane, Outcome)> {
    var t := l.track;
    var duration :- if video then VideoDuration(c, t.timeBase) else Ok(f.samples);
    var clock :- Submitted(l.clock, t.timeBase, pts, now);
    if !accept then Ok((l.(clock := clock), Outcome(false, None, now, true)))
    else
      var next :- Checked(pts + duration);
      var waitUntil :- Checked(now + c.timeout);
      Ok((Lane(t.(next := Some(next), hasOutput := true,
                  lastReal := if video then Some(f.picture) else t.lastReal, lastRealPts := pts,
                  lastSuccess := true, waitUntil := waitUntil, pendingRealPts := None), clock),
          Outcome(true, Some(Output(Input(f.picture), pts, duration, t.timeBase)), now, false)))
  }

  /** The first real frame of either track fixes the shared shift. */
  function Anchor(c: Config, l: Lane, original: int, now: int): Result<(Lane, int)>
    requires l.track.hasOutput ==> l.track.next.Some?
  {
    var t, clock := l.track, Started(l.clock, c.start, now);
    var us :- Reading(clock, now);
    var mapped :- FromUs(us, t.timeBase);
    var pts := if t.hasOutput then Max(mapped, t.next.value) else mapped;
    var shift :- Subtract(pts, original);
    var shared :- ToUs(shift, t.timeBase);
    Ok((Lane(t.(shift := Some(shift)), clock.(shift := Some(shared))), pts))
  }

  /** Takes the shared shift when the track has none or has drifted too far; tells whether it had drifted. */
  function Adopt(c: Config, t: Track, shared: int): (r: Result<(Track, bool)>)
    ensures r.Ok? ==> r.value.0.shift.Some? && r.value.0 == t.(shift := r.value.0.shift)
  {
    var desync :- Desync(c, t.shift, t.timeBase, shared);
    var shift :- if t.shift.None? || desync then FromUs(shared, t.timeBase) else Ok(t.shift.value);
    Ok((t.(shift := Some(shift)), desync))
  }

  function Desync(c: Config, shift: Option<int>, tb: TimeBase, shared: int): Result<bool> {
    if shift.None? then Ok(false)
    else
      var own :- ToUs(shift.value, tb);
      var tolerance :- Checked(c.maxStreamsDiff + 1);
      Apart(own, shared, tolerance)
  }

  function Jumps(c: Config, next: Option<int>, tb: TimeBase, pts: int): Result<bool> {
    if next.None? || pts == next.value then Ok(false)
    else
      var mine :- ToUs(pts, tb);
      var expected :- ToUs(next.value, tb);
      Apart(mine, expected, c.maxStreamsDiff)
  }

  function Correct(c: Config, video: bool, l: Lane, f: Frame, now: int, accept: bool): Result<(Lane, Outcome)>
    requires Sane(l.track) && l.track.fillUntil.None? && l.track.pendingRealPts.None?
  {
    var t :- Rebased(video, l.track, f);
    var original :- Rescale(f.pts, f.timeBase, t.timeBase);
    if l.clock.shift.None? then
      var anchored :- Anchor(c, l.(track := t), original, now);
      Real(c, video, anchored.0, f, anchored.1, now, accept)
    else
      var adopted :- Adopt(c, t, l.clock.shift.value);
      var pts :- Checked(original + adopted.0.shift.value);
      Follow(c, video, l.(track := adopted.0), adopted.1, f, original, pts, now, accept)
  }

  /** Places a frame that the shared timeline maps to `pts`. */
  function Follow(c: Config, video: bool, l: Lane, desync: bool, f: Frame, original: int, pts: int, now: int,
    accept: bool)
    : Result<(Lane, Outcome)>
    requires l.track.shift.Some? && l.track.fillUntil.None? && l.track.pendingRealPts.None?
  {
    var t := l.track;
    var jump :- Jumps(c, t.next, t.timeBase, pts);
    if jump && pts > t.next.value then
      if !t.tryWithoutFilling then
        Fill(c, video, l.(track := BeginFill(t, pts, true)), Some(Decoded(f)), now, accept)
      else
        Suspend(l, original, now)
    else if jump then
      var adjusted :- Adjust(l, original);
      Real(c, video, adjusted, f, t.next.value, now, accept)
    else if desync then
      var shared :- ToUs(t.shift.value, t.timeBase);
      Real(c, video, l.(clock := l.clock.(shift := Some(shared))), f, pts, now, accept)
    else
      Real(c, video, l, f, pts, now, accept)
  }

  /** No input: after the timeout, fill up to the shared clock. */
  function TimedOut(c: Config, video: bool, l: Lane, now: int, accept: bool): Result<(Lane, Outcome)>
    requires Sane(l.track) && l.track.fillUntil.None? && l.track.pendingRealPts.None?
  {
    var clock := Started(l.clock, c.start, now);
    var rtc :- Reading(clock, now);
    var next :- if l.track.next.Some? then Ok(l.track.next.value) else FromUs(c.start, l.track.timeBase);
    var fill :- Late(c, l.track.lastSuccess, l.track.timeBase, rtc, next);
    var waitUntil :- Checked(now + POLL_US);
    var target :- FromUs(rtc, l.track.timeBase);
    var t := l.track.(next := Some(next), lastSuccess := false, waitUntil := waitUntil);
    if fill && next < target then
      Fill(c, video, Lane(BeginFill(t, target, false), clock), None, now, accept)
    else
      Ok((Lane(t, clock), Outcome(false, None, waitUntil, false)))
  }

  function Late(c: Config, lastSuccess: bool, tb: TimeBase, rtc: int, next: int): Result<bool> {
    if !lastSuccess then Ok(true)
    else
      var expected :- ToUs(next, tb);
      var behind :- Subtract(rtc, expected);
      Ok(behind > c.timeout)
  }

  /** After a filled jump, a further one only moves the shift and waits a millisecond. */
  function Suspend(l: Lane, original: int, now: int): Result<(Lane, Outcome)>
    requires l.track.next.Some?
  {
    var adjusted :- Adjust(l.(track := l.track.(tryWithoutFilling := false)), original);
    var until :- Checked(now + SUSPENSION_US);
    Ok((adjusted.(track := adjusted.track.(pendingRealPts := l.track.next, suspendedUntil := until)),
        Outcome(false, None, until, false)))
  }

  /** One step of one track. `accept` is the answer the output callback gives if it is asked. */
  function Step(c: Config, video: bool, l: Lane, head: Option<Head>, now: int, accept: bool): Result<(Lane, Outcome)>
    requires Sane(l.track) && HeadRetained(l.track, head)
  {
    var t := l.track;
    if t.fillUntil.Some? then Fill(c, video, l, head, now, accept)
    else if t.pendingRealPts.Some? then
      if now < t.suspendedUntil then Ok((l, Outcome(false, None, t.suspendedUntil, false)))
      else Correct(c, video, l.(track := t.(pendingRealPts := None)), head.value.frame, now, accept)
    else if head.Some? then
      if head.value.Eof? then Ok((l, Outcome(true, None, now, false)))
      else Correct(c, video, l, head.value.frame, now, accept)
    else if now < t.waitUntil then Ok((l, Outcome(false, None, t.waitUntil, false)))
    else TimedOut(c, video, l, now, accept)
  }
}
