/** Whole sessions of the synchroniser: both tracks, in any order, with any heads, rejections and times. */
module SyncerRuns {
  import opened Results
  import opened TimeMath
  import opened SyncerRules
  import opened SyncerContinuity
  import opened SyncerProgress

  /** An accepted frame, whether the shared shift existed before it, and the state right after it. */
  datatype Emission = Emission(output: Output, anchored: bool, after: Lane)

  /** One track, the head its owner is holding for it, and all it has put out. */
  datatype Side = Side(track: Track, held: Option<Head>, history: seq<Emission>)

  /** The shared clock has moved to a position, in microseconds, at some time. */
  datatype Advance = Advance(position: int, at: int)

  datatype Session = Session(video: Side, audio: Side, clock: Clock, failed: bool, advances: seq<Advance>) {
    function Of(isVideo: bool): Side {
      if isVideo then video else audio
    }

    function With(isVideo: bool, side: Side, k: Clock): Session {
      if isVideo then this.(video := side, clock := k) else this.(audio := side, clock := k)
    }
  }

  datatype Call = Call(isVideo: bool, head: Option<Head>, now: int, accept: bool)

  // ----- what every session keeps

  function End(o: Output): int {
    o.pts + o.duration
  }

  ghost predicate FollowsOn(c: Config, previous: Output, e: Emission) {
    var expected := Carried(End(previous), previous.timeBase, e.output.timeBase);
    && expected.Ok?
    && (e.anchored || !e.output.source.Input? ==> Continues(c, e.output, expected.value))
    && (!e.anchored ==> e.output.pts >= expected.value)
  }

  /** Each emission continues the one before it, and each real one leaves the track's shift with the shared shift. */
  ghost predicate Timeline(c: Config, history: seq<Emission>) {
    && (forall k :: 0 < k < |history| ==> FollowsOn(c, history[k - 1].output, history[k]))
    && (forall k :: 0 <= k < |history| && history[k].output.source.Input? ==>
          Together(c, history[k].after.track, history[k].after.clock.shift))
  }

  /** The track expects the end of its last emission, carried over at most once, by the head now held. */
  ghost predicate AtEnd(isVideo: bool, t: Track, held: Option<Head>, last: Output) {
    && t.hasOutput && t.next.Some?
    && Carried(End(last), last.timeBase, t.timeBase) == Ok(t.next.value)
    && (t.timeBase == last.timeBase
        || (isVideo && held.Some? && held.value.Decoded? && SameRational(t.timeBase, held.value.frame.timeBase)))
  }

  ghost predicate SideKeeps(c: Config, isVideo: bool, s: Side) {
    && Sane(s.track) && Serves(isVideo, s.track, s.held)
    && Timeline(c, s.history)
    && (s.history != [] ==> AtEnd(isVideo, s.track, s.held, s.history[|s.history| - 1].output))
  }

  ghost predicate Inv(c: Config, s: Session) {
    SideKeeps(c, true, s.video) && SideKeeps(c, false, s.audio) && SaneClock(s.clock)
  }

  /** The owner's obligation: a head stays until it is consumed. */
  predicate Admissible(s: Session, call: Call) {
    var held := s.Of(call.isVideo).held;
    held.Some? ==> call.head == held
  }

  // ----- one call

  function Performed(s: Session, call: Call, after: Lane, o: Outcome): Session {
    var side := s.Of(call.isVideo);
    var moved := after.clock.pts.Some? && after.clock.pts != s.clock.pts;
    s.(advances := s.advances + if moved then [Advance(after.clock.pts.value, call.now)] else []).With(call.isVideo,
      Side(after.track, if o.consumed then None else call.head,
           side.history + if o.output.None? then [] else [Emission(o.output.value, s.clock.shift.Some?, after)]),
      after.clock)
  }

  lemma RetainedHeadServes(c: Config, s: Session, call: Call)
    requires Inv(c, s) && Admissible(s, call)
    ensures Sane(s.Of(call.isVideo).track) && Serves(call.isVideo, s.Of(call.isVideo).track, call.head)
  {
    hide SameRational;
  }

  lemma CheckedHeadIsSound(c: Config, call: Call)
    requires Check(c, call.isVideo, call.head, call.now).Ok?
    ensures SoundHead(call.isVideo, call.head)
  {
    hide AvRescaleQ;
  }

  /** A call with bad arguments throws and changes nothing; an arithmetic failure ends the session. */
  ghost function Perform(c: Config, s: Session, call: Call): Session
    requires Inv(c, s)
  {
    if s.failed || !Admissible(s, call) || Check(c, call.isVideo, call.head, call.now).Err? then s
    else
      RetainedHeadServes(c, s, call);
      match Step(c, call.isVideo, Lane(s.Of(call.isVideo).track, s.clock), call.head, call.now, call.accept)
      case Err(_) => s.(failed := true)
      case Ok((after, o)) => Performed(s, call, after, o)
  }

  lemma TimelineGrows(c: Config, history: seq<Emission>, e: Emission)
    requires Timeline(c, history)
    requires history != [] ==> FollowsOn(c, history[|history| - 1].output, e)
    requires e.output.source.Input? ==> Together(c, e.after.track, e.after.clock.shift)
    ensures Timeline(c, history + [e])
  {
    hide FollowsOn, Together;
  }

  /** Between two emissions a track changes its time base at most once, so the expectation is one conversion away. */
  lemma ExpectationIsLastEnd(isVideo: bool, t: Track, held: Option<Head>, head: Option<Head>, last: Output,
    after: Track)
    requires AtEnd(isVideo, t, held, last) && KeepsTimeBase(isVideo, t, after, head)
    requires held.Some? ==> head == held
    requires Carried(t.next.value, t.timeBase, after.timeBase).Ok?
    ensures Carried(End(last), last.timeBase, after.timeBase) == Carried(t.next.value, t.timeBase, after.timeBase)
    ensures after.timeBase == t.timeBase || t.timeBase == last.timeBase
  {
    hide Rescale;
    SameBase(t.timeBase);
    SameBase(last.timeBase);
  }

  lemma PerformKeepsSide(c: Config, s: Session, call: Call, after: Lane, o: Outcome)
    requires Inv(c, s) && Admissible(s, call) && SoundHead(call.isVideo, call.head) && c.maxStreamsDiff > 0
    requires Sane(s.Of(call.isVideo).track) && Serves(call.isVideo, s.Of(call.isVideo).track, call.head)
    requires Step(c, call.isVideo, Lane(s.Of(call.isVideo).track, s.clock), call.head, call.now, call.accept) ==
      Ok((after, o))
    ensures SideKeeps(c, call.isVideo, Performed(s, call, after, o).Of(call.isVideo)) && SaneClock(after.clock)
  {
    hide Step, Rescale, SameRational, Together, Continues, FollowsOn, Timeline, Carried;
    var side := s.Of(call.isVideo);
    var lane := Lane(side.track, s.clock);
    StepPlaces(c, call.isVideo, lane, call.head, call.now, call.accept);
    StepKeepsShiftsTogether(c, call.isVideo, lane, call.head, call.now, call.accept);
    if side.history != [] {
      var last := side.history[|side.history| - 1].output;
      ExpectationIsLastEnd(call.isVideo, side.track, side.held, call.head, last, after.track);
    }
    if o.output.Some? {
      var e := Emission(o.output.value, s.clock.shift.Some?, after);
      if side.history != [] {
        FollowsFromPlaced(c, lane, after.track, side.history[|side.history| - 1].output, e);
      }
      TimelineGrows(c, side.history, e);
      CarriedHome(End(e.output), after.track.timeBase);
    } else {
      assert side.history + [] == side.history;
      KeptBaseOfHead(call.isVideo, side.track, after.track, call.head);
    }
  }

  lemma FollowsFromPlaced(c: Config, before: Lane, after: Track, last: Output, e: Emission)
    requires Placed(c, before, after, Some(e.output)) && before.track.next.Some? && before.track.hasOutput
    requires e.anchored == before.clock.shift.Some? && after.timeBase == e.output.timeBase
    requires Carried(End(last), last.timeBase, after.timeBase)
          == Carried(before.track.next.value, before.track.timeBase, after.timeBase)
    ensures FollowsOn(c, last, e)
  {
    hide Carried, Continues;
  }

  lemma CarriedHome(position: int, tb: TimeBase)
    ensures Carried(position, tb, tb) == Ok(position)
  {
  }

  lemma KeptBaseOfHead(isVideo: bool, before: Track, after: Track, head: Option<Head>)
    requires KeepsTimeBase(isVideo, before, after, head)
    ensures after.timeBase == before.timeBase
      || (isVideo && head.Some? && head.value.Decoded? && SameRational(after.timeBase, head.value.frame.timeBase))
  {
    SameBase(after.timeBase);
  }

  lemma PerformKeeps(c: Config, s: Session, call: Call)
    requires Inv(c, s) && c.maxStreamsDiff > 0
    ensures Inv(c, Perform(c, s, call))
  {
    hide Step, Check, SideKeeps, SaneClock;
    if !s.failed && Admissible(s, call) && Check(c, call.isVideo, call.head, call.now).Ok? {
      RetainedHeadServes(c, s, call);
      CheckedHeadIsSound(c, call);
      var step := Step(c, call.isVideo, Lane(s.Of(call.isVideo).track, s.clock), call.head, call.now, call.accept);
      if step.Ok? {
        PerformKeepsSide(c, s, call, step.value.0, step.value.1);
      }
    }
  }

  // ----- whole sessions

  ghost function Opening(c: Config): Session
    requires FirstPosition(c, true).Ok? && FirstPosition(c, false).Ok?
  {
    Session(
      Side(Fresh(TrackTimeBase(c, true), FirstPosition(c, true).value, c.initialTimeout), None, []),
      Side(Fresh(TrackTimeBase(c, false), FirstPosition(c, false).value, c.initialTimeout), None, []),
      NEW_CLOCK, false, [])
  }

  ghost function Run(c: Config, s: Session, calls: seq<Call>): Session
    requires Inv(c, s) && c.maxStreamsDiff > 0
    decreases calls
  {
    if calls == [] then s
    else
      PerformKeeps(c, s, calls[0]);
      Run(c, Perform(c, s, calls[0]), calls[1..])
  }

  lemma {:induction false} RunKeeps(c: Config, s: Session, calls: seq<Call>)
    requires Inv(c, s) && c.maxStreamsDiff > 0
    ensures Inv(c, Run(c, s, calls))
    decreases calls
  {
    hide Inv, Perform;
    if calls != [] {
      PerformKeeps(c, s, calls[0]);
      RunKeeps(c, Perform(c, s, calls[0]), calls[1..]);
    }
  }

  lemma OpeningHolds(c: Config)
    requires FirstPosition(c, true).Ok? && FirstPosition(c, false).Ok?
    ensures Inv(c, Opening(c))
  {
    hide Rescale;
  }

  ghost function AnyRun(c: Config, calls: seq<Call>): Session
    requires c.Valid() && FirstPosition(c, true).Ok? && FirstPosition(c, false).Ok?
  {
    OpeningHolds(c);
    Run(c, Opening(c), calls)
  }

  /**
   * In every session each track puts out one continuous timeline: fillers always exactly where the previous frame
   * ended, real frames less than the tolerance away once the shared shift exists, the one that fixes it no earlier than
   * there, and the shifts together at each real frame.
   */
  lemma EverySessionIsContinuous(c: Config, calls: seq<Call>)
    requires c.Valid() && FirstPosition(c, true).Ok? && FirstPosition(c, false).Ok?
    ensures Timeline(c, AnyRun(c, calls).video.history) && Timeline(c, AnyRun(c, calls).audio.history)
  {
    hide Timeline, Run, Rescale, AvRescaleQ;
    OpeningHolds(c);
    RunKeeps(c, Opening(c), calls);
  }

  /**
   * Wherever a session is, ten accepted steps of a track, at the times it asks for and without its peer, consume its
   * frame head.
   */
  lemma EveryHeadIsConsumed(c: Config, calls: seq<Call>, isVideo: bool, f: Frame, times: seq<int>)
    requires c.Valid() && FirstPosition(c, true).Ok? && FirstPosition(c, false).Ok?
    requires isVideo || f.samples > 0
    requires AnyRun(c, calls).Of(isVideo).held.Some? ==> AnyRun(c, calls).Of(isVideo).held == Some(Decoded(f))
    ensures var s := AnyRun(c, calls);
            var l := Lane(s.Of(isVideo).track, s.clock);
            && Sane(l.track) && Serves(isVideo, l.track, Some(Decoded(f)))
            && (|times| == 10 && HonoursWakes(c, isVideo, l, f, times) ==>
                  Attempts(c, isVideo, l, f, times) != Unfinished)
  {
    hide Timeline, Run, Rescale, AvRescaleQ, Sane, HonoursWakes, Attempts;
    OpeningHolds(c);
    RunKeeps(c, Opening(c), calls);
    var s := AnyRun(c, calls);
    RetainedHeadServes(c, s, Call(isVideo, Some(Decoded(f)), 0, true));
    var l := Lane(s.Of(isVideo).track, s.clock);
    if |times| == 10 && HonoursWakes(c, isVideo, l, f, times) {
      HeadIsConsumedWithinTenSteps(c, isVideo, l, f, times);
    }
  }
}
