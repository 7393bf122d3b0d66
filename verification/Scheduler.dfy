/** Driver and workers together, in every interleaving, with the synchroniser they feed. */
module Scheduler {
  import opened Results
  import opened TimeMath
  import opened SyncerRules
  import opened SyncerContinuity
  import opened SyncerRuns
  import opened SchedulerSlot
  import RealtimeTiming

  /** What a worker thread is doing. */
  datatype Phase = Waiting | Working(input: Option<Head>)

  /** One look at the item in front, after `at` calls of the realtime clock by either track. */
  datatype Look = Look(fate: Fate, item: Head, at: nat, now: int)

  /**
   * One track: its slot, its worker with the converter input that was refused last, the history of its items, and when
   * the synchroniser last asked to be called again.
   */
  datatype Line = Line(
    slot: Slot, phase: Phase, pending: Option<Head>,
    read: seq<Head>, looks: seq<Look>, taken: seq<Head>,
    filtered: seq<(Head, Option<Head>)>, pushed: seq<Head>, produced: seq<Head>, consumed: seq<Head>,
    asked: int)

  /** Both tracks, the synchroniser, and the realtime mapping with the calls that made it. */
  datatype World = World(
    video: Line, audio: Line, session: Session, offset: Option<int>, calls: seq<RealtimeTiming.Call>, failed: bool) {
    function Of(isVideo: bool): Line {
      if isVideo then video else audio
    }

    function With(isVideo: bool, l: Line): World {
      if isVideo then this.(video := l) else this.(audio := l)
    }
  }

  datatype Config = Config(syncer: SyncerRules.Config, realtime: RealtimeTiming.Config)

  /** The critical sections of the driver and the workers, with what their environment answers. */
  datatype Action =
    | Collect(now: int)
    | Deliver(now: int, space: nat, later: int, accept: bool)
    | Feed(arriving: Option<Head>, now: int)
    | Take
    | Finish(filter: Option<Head>, accepts: bool, output: Option<Head>)

  // ----- items as sequences

  function Seq<T>(o: Option<T>): seq<T> {
    if o.Some? then [o.value] else []
  }

  /** The items given to the worker. */
  function Given(looks: seq<Look>): seq<Head> {
    if looks == [] then []
    else Given(looks[..|looks| - 1]) + if looks[|looks| - 1].fate.Give? then [looks[|looks| - 1].item] else []
  }

  /** The items given or dropped. */
  function Settled(looks: seq<Look>): seq<Head> {
    if looks == [] then []
    else Settled(looks[..|looks| - 1]) + if looks[|looks| - 1].fate.Keep? then [] else [looks[|looks| - 1].item]
  }

  function Inputs(filtered: seq<(Head, Option<Head>)>): seq<Head> {
    seq(|filtered|, i requires 0 <= i < |filtered| => filtered[i].0)
  }

  function Passed(filtered: seq<(Head, Option<Head>)>): seq<Head> {
    if filtered == [] then []
    else Passed(filtered[..|filtered| - 1]) + Seq(filtered[|filtered| - 1].1)
  }

  // ----- steps

  function Start(): Line {
    Line(CLEAR, Waiting, None, [], [], [], [], [], [], [], 0)
  }

  predicate Enabled(l: Line, a: Action) {
    match a
    case Take => l.slot.requested && l.phase.Waiting?
    case Finish(_, _, _) => l.phase.Working?
    case _ => true
  }

  function Work(l: Line, isVideo: bool, filter: Option<Head>, accepts: bool, output: Option<Head>): Line
    requires l.phase.Working?
  {
    var input := l.phase.input;
    // Only video input passes through the filter before the converter.
    var kept := if isVideo then filter else input;
    var pending := if input.Some? then kept else l.pending;
    var pushes := pending.Some? && accepts;
    var left := if pushes then None else pending;
    l.(phase := Waiting, pending := left,
       filtered := l.filtered + if input.Some? then [(input.value, kept)] else [],
       pushed := l.pushed + if pushes then [pending.value] else [],
       produced := l.produced + Seq(output),
       slot := Finished(l.slot, left, output))
  }

  function Fed(l: Line, prepared: Prepared, slot: Slot, at: nat, now: int): Line {
    match prepared
    case Read(fate, item) =>
      l.(slot := slot,
         read := if l.slot.sourceHead.Some? then l.read else l.read + [item],
         looks := l.looks + [Look(fate, item, at, now)])
    case _ => l.(slot := slot)
  }

  /** The call of the realtime clock that a look takes. */
  function Asked(prepared: Prepared, now: int): seq<RealtimeTiming.Call> {
    if prepared.Read? && prepared.item.Decoded? && InputPts(prepared.item.frame).Ok?
    then [RealtimeTiming.Call(InputPts(prepared.item.frame).value, now)]
    else []
  }

  ghost function Apply(c: Config, w: World, isVideo: bool, a: Action): World
    requires Inv(c, w) && Enabled(w.Of(isVideo), a)
  {
    var l := w.Of(isVideo);
    match a
    case Collect(now) => w.With(isVideo, l.(slot := Completed(l.slot, now)))
    case Deliver(now, space, later, accept) =>
      if Resting(l.slot, now, space) then w else Delivery(c, w, isVideo, now, space, later, accept)
    case Feed(arriving, now) =>
      var (prepared, slot, offset) := Prepare(c.realtime, l.slot, w.offset, arriving, now);
      (match prepared
       case Err(_) => w.(failed := true)
       case Ok(p) =>
         w.With(isVideo, Fed(l, p, slot, |w.calls|, now)).(offset := offset, calls := w.calls + Asked(p, now)))
    case Take =>
      w.With(isVideo, l.(slot := Taken(l.slot), phase := Working(l.slot.task), taken := l.taken + Seq(l.slot.task)))
    case Finish(filter, accepts, output) => w.With(isVideo, Work(l, isVideo, filter, accepts, output))
  }

  function DeliveredLine(l: Line, o: Outcome, space: nat, later: int): Line {
    l.(slot := Delivered(l.slot, o, space, later),
       consumed := l.consumed + (if o.consumed then Seq(l.slot.head) else []), asked := o.wake)
  }

  ghost function Delivery(c: Config, w: World, isVideo: bool, now: int, space: nat, later: int, accept: bool): World
    requires Inv(c, w)
  {
    var l := w.Of(isVideo);
    var call := Call(isVideo, l.slot.head, now, accept);
    HeadIsTheHeldOne(c, w, isVideo);
    RetainedHeadServes(c.syncer, w.session, call);
    if Check(c.syncer, isVideo, l.slot.head, now).Err? then w.(failed := true)
    else
      match Step(c.syncer, isVideo, Lane(w.session.Of(isVideo).track, w.session.clock), l.slot.head, now, accept)
      case Err(_) => w.(failed := true)
      case Ok((_, o)) =>
        w.With(isVideo, DeliveredLine(l, o, space, later)).(session := Perform(c.syncer, w.session, call))
  }

  // ----- the joint invariant

  /**
   * Who holds the slot: the worker while busy, the driver once completed; never both, and never over an unconsumed
   * head.
   */
  ghost predicate Handshake(l: Line) {
    var s := l.slot;
    && (s.busy ==> !s.completed && s.head.None? && (s.requested <==> l.phase.Waiting?))
    && (!s.busy ==> !s.requested && l.phase.Waiting?)
    && (s.completed ==> s.head.None?)
    && (!s.completed ==> s.result.None?)
    && (!s.requested ==> s.task.None?)
  }

  /** New input never overwrites the one the converter refused. */
  ghost predicate RefusedInputIsSafe(l: Line) {
    && (l.pending.Some? ==> !l.slot.needsInput)
    && (l.slot.task.Some? ==> l.pending.None?)
    && (l.phase.Working? && l.phase.input.Some? ==> l.pending.None?)
    && (l.slot.completed ==> (l.slot.needsInput <==> l.pending.None? && l.slot.result.None?))
  }

  /** Every item is in exactly one place, in order. */
  ghost predicate ItemsKept(l: Line) {
    && l.read == Settled(l.looks) + Seq(l.slot.sourceHead)
    && Given(l.looks) == l.taken + Seq(l.slot.task)
    && l.taken == Inputs(l.filtered) + (if l.phase.Working? then Seq(l.phase.input) else [])
    && Passed(l.filtered) == l.pushed + Seq(l.pending)
    && l.produced == l.consumed + Seq(l.slot.head) + Seq(l.slot.result)
  }

  ghost predicate LineKeeps(l: Line, held: Option<Head>) {
    && Handshake(l) && RefusedInputIsSafe(l) && ItemsKept(l)
    && (held.Some? ==> l.slot.head == held)
    && (held.Some? && !l.slot.outputBlocked ==> l.slot.syncerWake == l.asked)
  }

  ghost predicate Inv(c: Config, w: World) {
    && c.syncer.maxStreamsDiff > 0
    && SyncerRuns.Inv(c.syncer, w.session) && !w.session.failed
    && LineKeeps(w.video, w.session.video.held)
    && LineKeeps(w.audio, w.session.audio.held)
  }

  /** The driver always shows the synchroniser the head it still owes. */
  lemma HeadIsTheHeldOne(c: Config, w: World, isVideo: bool)
    requires Inv(c, w)
    ensures var held := w.session.Of(isVideo).held; held.Some? ==> w.Of(isVideo).slot.head == held
  {
  }

  // ----- every step keeps it

  lemma CollectKeeps(l: Line, held: Option<Head>, now: int)
    requires LineKeeps(l, held)
    ensures LineKeeps(l.(slot := Completed(l.slot, now)), held)
  {
    hide Given, Passed, Settled, Inputs;
  }

  lemma FeedKeeps(c: RealtimeTiming.Config, l: Line, held: Option<Head>, offset: Option<int>, arriving: Option<Head>,
    at: nat, now: int)
    requires LineKeeps(l, held)
    requires Prepare(c, l.slot, offset, arriving, now).0.Ok?
    ensures var (prepared, slot, _) := Prepare(c, l.slot, offset, arriving, now);
            LineKeeps(Fed(l, prepared.value, slot, at, now), held)
  {
    hide Judge, Passed, Inputs, Given, Settled;
    var (prepared, slot, _) := Prepare(c, l.slot, offset, arriving, now);
    if prepared.value.Read? {
      LooksGrow(l.looks, Look(prepared.value.fate, prepared.value.item, at, now));
    }
  }

  lemma LooksGrow(looks: seq<Look>, last: Look)
    ensures Given(looks + [last]) == Given(looks) + if last.fate.Give? then [last.item] else []
    ensures Settled(looks + [last]) == Settled(looks) + if last.fate.Keep? then [] else [last.item]
  {
    assert (looks + [last])[..|looks|] == looks;
  }

  lemma TakeKeeps(l: Line, held: Option<Head>)
    requires LineKeeps(l, held) && l.slot.requested && l.phase.Waiting?
    ensures LineKeeps(l.(slot := Taken(l.slot), phase := Working(l.slot.task), taken := l.taken + Seq(l.slot.task)),
      held)
  {
    hide Given, Passed, Settled, Inputs;
  }

  lemma FinishKeeps(l: Line, held: Option<Head>, isVideo: bool, filter: Option<Head>, accepts: bool,
    output: Option<Head>)
    requires LineKeeps(l, held) && l.phase.Working?
    ensures LineKeeps(Work(l, isVideo, filter, accepts, output), held)
  {
    hide Given, Settled;
    var input := l.phase.input;
    if input.Some? {
      var last := (input.value, if isVideo then filter else input);
      assert (l.filtered + [last])[..|l.filtered|] == l.filtered;
      assert Inputs(l.filtered + [last]) == Inputs(l.filtered) + [input.value];
      assert Passed(l.filtered + [last]) == l.pushed + Seq(last.1);
    }
    assert l.filtered + [] == l.filtered && l.pushed + [] == l.pushed;
    assert l.consumed + [] + Seq(output) == l.consumed + Seq(output);
  }

  lemma DeliveredLineKeeps(l: Line, held: Option<Head>, o: Outcome, space: nat, later: int)
    requires LineKeeps(l, held)
    ensures LineKeeps(DeliveredLine(l, o, space, later), if o.consumed then None else l.slot.head)
  {
    hide Given, Passed, Settled, Inputs;
    if o.consumed && l.slot.head.Some? {
      assert l.slot.result.None?;
    }
    assert l.consumed + [] == l.consumed;
  }

  lemma DeliverKeeps(c: Config, w: World, isVideo: bool, now: int, space: nat, later: int, accept: bool)
    requires Inv(c, w)
    ensures Inv(c, Delivery(c, w, isVideo, now, space, later, accept))
  {
    hide Step, Check, SyncerRuns.Inv, LineKeeps, Delivered;
    var l := w.Of(isVideo);
    var call := Call(isVideo, l.slot.head, now, accept);
    HeadIsTheHeldOne(c, w, isVideo);
    RetainedHeadServes(c.syncer, w.session, call);
    PerformKeeps(c.syncer, w.session, call);
    var step := Step(c.syncer, isVideo, Lane(w.session.Of(isVideo).track, w.session.clock), l.slot.head, now, accept);
    if Check(c.syncer, isVideo, l.slot.head, now).Ok? && step.Ok? {
      DeliveredLineKeeps(l, w.session.Of(isVideo).held, step.value.1, space, later);
    }
  }

  lemma ApplyKeeps(c: Config, w: World, isVideo: bool, a: Action)
    requires Inv(c, w) && Enabled(w.Of(isVideo), a)
    ensures Inv(c, Apply(c, w, isVideo, a))
  {
    hide SyncerRuns.Inv, LineKeeps, Prepare, Delivery;
    var l, held := w.Of(isVideo), w.session.Of(isVideo).held;
    match a
    case Collect(now) => CollectKeeps(l, held, now);
    case Deliver(now, space, later, accept) =>
      if !Resting(l.slot, now, space) {
        DeliverKeeps(c, w, isVideo, now, space, later, accept);
      }
    case Feed(arriving, now) =>
      if Prepare(c.realtime, l.slot, w.offset, arriving, now).0.Ok? {
        FeedKeeps(c.realtime, l, held, w.offset, arriving, |w.calls|, now);
      }
    case Take => TakeKeeps(l, held);
    case Finish(filter, accepts, output) => FinishKeeps(l, held, isVideo, filter, accepts, output);
  }

  // ----- every interleaving

  ghost function StepBy(c: Config, w: World, isVideo: bool, a: Action): (r: World)
    requires Inv(c, w)
    ensures Inv(c, r)
  {
    if w.failed || !Enabled(w.Of(isVideo), a) then w
    else
      ApplyKeeps(c, w, isVideo, a);
      Apply(c, w, isVideo, a)
  }

  ghost function Play(c: Config, w: World, actions: seq<(bool, Action)>): World
    requires Inv(c, w)
    decreases actions
  {
    if actions == [] then w else Play(c, StepBy(c, w, actions[0].0, actions[0].1), actions[1..])
  }

  lemma {:induction false} PlayKeeps(c: Config, w: World, actions: seq<(bool, Action)>)
    requires Inv(c, w)
    ensures Inv(c, Play(c, w, actions))
    decreases actions
  {
    hide Inv, Apply;
    if actions != [] {
      PlayKeeps(c, StepBy(c, w, actions[0].0, actions[0].1), actions[1..]);
    }
  }

  ghost predicate Startable(c: Config) {
    c.syncer.Valid() && FirstPosition(c.syncer, true).Ok? && FirstPosition(c.syncer, false).Ok?
  }

  ghost function AnyRun(c: Config, actions: seq<(bool, Action)>): World
    requires Startable(c)
  {
    OpeningHolds(c.syncer);
    Play(c, World(Start(), Start(), Opening(c.syncer), None, [], false), actions)
  }

  lemma EveryRunKeeps(c: Config, actions: seq<(bool, Action)>)
    requires Startable(c)
    ensures Inv(c, AnyRun(c, actions))
  {
    hide SyncerRuns.Inv;
    OpeningHolds(c.syncer);
    PlayKeeps(c, World(Start(), Start(), Opening(c.syncer), None, [], false), actions);
  }

  /**
   * In every interleaving each source item is waiting in front, dropped as late, or given to the worker, once and in
   * order; the worker takes what it was given in that order; what the filter lets through reaches the converter once,
   * in order; and what the converter returns reaches the synchroniser once, in order.
   */
  lemma EachItemOnceInOrder(c: Config, actions: seq<(bool, Action)>, isVideo: bool)
    requires Startable(c)
    ensures var l := AnyRun(c, actions).Of(isVideo);
            && l.read == Settled(l.looks) + Seq(l.slot.sourceHead)
            && Given(l.looks) == l.taken + Seq(l.slot.task)
            && l.taken == Inputs(l.filtered) + (if l.phase.Working? then Seq(l.phase.input) else [])
            && Passed(l.filtered) == l.pushed + Seq(l.pending)
            && l.produced == l.consumed + Seq(l.slot.head) + Seq(l.slot.result)
  {
    EveryRunKeeps(c, actions);
  }

  /**
   * In every interleaving a task carries input only when the worker has none left over, a result arrives only over an
   * empty head, and a worker that is done asks for input exactly if it has neither a result nor refused input.
   */
  lemma NothingIsOverwritten(c: Config, actions: seq<(bool, Action)>, isVideo: bool)
    requires Startable(c)
    ensures var l := AnyRun(c, actions).Of(isVideo);
            && (l.slot.task.Some? || (l.phase.Working? && l.phase.input.Some?) ==> l.pending.None?)
            && (l.slot.completed ==> l.slot.head.None?)
            && (l.slot.busy ==> !l.slot.completed && l.slot.result.None?)
            && (l.slot.completed ==> (l.slot.needsInput <==> l.pending.None? && l.slot.result.None?))
  {
    EveryRunKeeps(c, actions);
  }

  /**
   * In every interleaving the synchroniser finds the head it relies on while it is suspended or filling forward: the
   * very one it was shown before.
   */
  lemma SynchroniserFindsItsHead(c: Config, actions: seq<(bool, Action)>, isVideo: bool)
    requires Startable(c)
    ensures var w := AnyRun(c, actions);
            var track, head := w.session.Of(isVideo).track, w.Of(isVideo).slot.head;
            && Serves(isVideo, track, head)
            && (Engaged(track) ==> head.Some? && head == w.session.Of(isVideo).held)
  {
    hide Timeline, AtEnd, SameRational;
    EveryRunKeeps(c, actions);
  }

  // ----- the realtime decisions of a run

  /** The look saw the mapping that the calls before it left, and decided by it. */
  ghost predicate RightlyJudged(c: RealtimeTiming.Config, l: Look, calls: seq<RealtimeTiming.Call>) {
    match l.item
    case Eof => l.fate.Give?
    case Decoded(f) =>
      && l.at < |calls| && calls[l.at].now == l.now && TimeOf(f, calls[l.at].pts)
      && FateOf(c, l.fate, RealtimeTiming.After(c, None, calls[..l.at]), calls[l.at].pts, l.now)
  }

  ghost predicate AllJudged(c: RealtimeTiming.Config, looks: seq<Look>, calls: seq<RealtimeTiming.Call>) {
    forall i :: 0 <= i < |looks| ==> RightlyJudged(c, looks[i], calls)
  }

  ghost predicate Timed(c: Config, w: World) {
    && w.offset == RealtimeTiming.After(c.realtime, None, w.calls)
    && AllJudged(c.realtime, w.video.looks, w.calls) && AllJudged(c.realtime, w.audio.looks, w.calls)
  }

  lemma JudgementsStay(c: RealtimeTiming.Config, looks: seq<Look>, calls: seq<RealtimeTiming.Call>,
    more: seq<RealtimeTiming.Call>)
    requires AllJudged(c, looks, calls)
    ensures AllJudged(c, looks, calls + more)
  {
    hide FateOf, TimeOf, RealtimeTiming.After;
    forall i | 0 <= i < |looks| && looks[i].item.Decoded?
      ensures (calls + more)[..looks[i].at] == calls[..looks[i].at]
    {
      assert RightlyJudged(c, looks[i], calls);
    }
  }

  lemma FeedJudges(c: Config, w: World, isVideo: bool, arriving: Option<Head>, now: int)
    requires Inv(c, w) && Timed(c, w) && c.realtime.Valid()
    ensures Timed(c, Apply(c, w, isVideo, Feed(arriving, now)))
  {
    hide Inv, FateOf, TimeOf, RealtimeTiming.Decide, RealtimeTiming.After, Judge, InputPts, RealtimeTiming.Config.Valid;
    var l := w.Of(isVideo);
    var (prepared, slot, offset) := Prepare(c.realtime, l.slot, w.offset, arriving, now);
    if prepared.Ok? {
      var calls := w.calls + Asked(prepared.value, now);
      JudgementsStay(c.realtime, w.video.looks, w.calls, Asked(prepared.value, now));
      JudgementsStay(c.realtime, w.audio.looks, w.calls, Asked(prepared.value, now));
      if prepared.value.Read? {
        JudgedByLead(c.realtime, w.offset, prepared.value.item, now);
        if prepared.value.item.Decoded? {
          var call := RealtimeTiming.Call(InputPts(prepared.value.item.frame).value, now);
          RealtimeTiming.AfterSnoc(c.realtime, None, w.calls, call);
          assert calls[..|w.calls|] == w.calls;
        }
        assert RightlyJudged(c.realtime, Look(prepared.value.fate, prepared.value.item, |w.calls|, now), calls);
      }
      assert w.calls + [] == w.calls;
    }
  }

  lemma StepJudges(c: Config, w: World, isVideo: bool, a: Action)
    requires Inv(c, w) && Timed(c, w) && c.realtime.Valid()
    ensures Timed(c, StepBy(c, w, isVideo, a))
  {
    hide Inv, AllJudged, Prepare, Step, Check, RealtimeTiming.After;
    if a.Feed? {
      FeedJudges(c, w, isVideo, a.arriving, a.now);
    }
  }

  lemma {:induction false} PlayJudges(c: Config, w: World, actions: seq<(bool, Action)>)
    requires Inv(c, w) && Timed(c, w) && c.realtime.Valid()
    ensures Timed(c, Play(c, w, actions))
    decreases actions
  {
    hide Inv, Apply, Timed;
    if actions != [] {
      StepJudges(c, w, actions[0].0, actions[0].1);
      PlayJudges(c, StepBy(c, w, actions[0].0, actions[0].1), actions[1..]);
    }
  }

  /**
   * In every interleaving the mapping is the one that the clock's calls by both tracks leave, and each look at a frame
   * saw the mapping that the calls before it left. The frame was dropped exactly if its lead lay in the late band, kept
   * exactly if it was early, and given to the worker exactly if the clock released it. An end is always given.
   */
  lemma FramesAreJudgedByTheClock(c: Config, actions: seq<(bool, Action)>, isVideo: bool, i: nat)
    requires Startable(c) && c.realtime.Valid()
    requires i < |AnyRun(c, actions).Of(isVideo).looks|
    ensures var w := AnyRun(c, actions);
            var l := w.Of(isVideo).looks[i];
            && w.offset == RealtimeTiming.After(c.realtime, None, w.calls)
            && match l.item
               case Eof => l.fate.Give?
               case Decoded(f) =>
                 && l.at < |w.calls| && w.calls[l.at].now == l.now
                 && var (pts, offset) := (w.calls[l.at].pts, RealtimeTiming.After(c.realtime, None, w.calls[..l.at]));
                 && (f.pts >= INT64_MIN ==> pts == Scaled(f.pts, f.timeBase, MICROSECONDS))
                 && (l.fate.Drop? <==> RealtimeTiming.InLateBand(c.realtime, offset, pts, l.now))
                 && (l.fate.Keep? <==> RealtimeTiming.Early(c.realtime, offset, pts, l.now))
                 && (l.fate.Give? <==>
                     RealtimeTiming.Decide(c.realtime, offset, pts, l.now).decision == Ok(RealtimeTiming.Release))
  {
    hide SyncerRuns.Inv, RealtimeTiming.InLateBand, RealtimeTiming.Early, RealtimeTiming.Decide;
    OpeningHolds(c.syncer);
    var w := World(Start(), Start(), Opening(c.syncer), None, [], false);
    PlayJudges(c, w, actions);
    var calls := AnyRun(c, actions).calls;
    assert RightlyJudged(c.realtime, AnyRun(c, actions).Of(isVideo).looks[i], calls);
  }

  /** The time of the frame, or its lead, cannot be computed. */
  predicate Unjudgeable(c: RealtimeTiming.Config, offset: Option<int>, item: Head, now: int) {
    && item.Decoded?
    && (InputPts(item.frame).Err? ||
        RealtimeTiming.Decide(c, offset, InputPts(item.frame).value, now).decision.Err?)
  }

  lemma JudgeFails(c: RealtimeTiming.Config, offset: Option<int>, item: Head, now: int)
    ensures Judge(c, offset, item, now).0.Err? <==> Unjudgeable(c, offset, item, now)
  {
    hide InputPts, RealtimeTiming.Decide;
  }

  /**
   * A free track is fed: its worker is asked to go on, or the item in front, else the one that arrives, is looked at
   * and handed over if it is due.
   */
  lemma FreeTrackIsFed(c: Config, w: World, isVideo: bool, arriving: Option<Head>, now: int)
    requires Inv(c, w) && Free(w.Of(isVideo).slot)
    ensures var r := Apply(c, w, isVideo, Feed(arriving, now));
            var l, after := w.Of(isVideo), r.Of(isVideo);
            var item := if l.slot.sourceHead.Some? then l.slot.sourceHead else arriving;
            if !l.slot.needsInput then after.slot.requested && after.slot.busy && after.slot.task == None
            else if item.None? then after == l
            else if Unjudgeable(c.realtime, w.offset, item.value, now) then
              r == w.(failed := true)
            else
              && |after.looks| == |l.looks| + 1
              && var look := after.looks[|l.looks|];
              && look.item == item.value && look.now == now && look.at == |w.calls|
              && (look.fate.Give? ==> after.slot.requested && after.slot.busy && after.slot.task == item)
  {
    hide Inv, Judge, Unjudgeable;
    var l := w.Of(isVideo);
    var item := if l.slot.sourceHead.Some? then l.slot.sourceHead else arriving;
    if item.Some? {
      JudgeFails(c.realtime, w.offset, item.value, now);
    }
  }

  /** A head leaves its place only by being consumed. */
  lemma HeadStaysUntilConsumed(c: Config, w: World, isVideo: bool, other: bool, a: Action)
    requires Inv(c, w) && w.Of(isVideo).slot.head.Some?
    ensures var before, after := w.Of(isVideo), StepBy(c, w, other, a).Of(isVideo);
            || (after.slot.head == before.slot.head && after.consumed == before.consumed)
            || (after.slot.head.None? && after.consumed == before.consumed + [before.slot.head.value])
  {
    hide SyncerRuns.Inv, SyncerRules.Step, Check, ItemsKept, Judge;
  }

  /** Scheduled output is as continuous as the synchroniser's: heads are always retained as it demands. */
  lemma ScheduledOutputIsContinuous(c: Config, actions: seq<(bool, Action)>)
    requires Startable(c)
    ensures var s := AnyRun(c, actions).session;
            Timeline(c.syncer, s.video.history) && Timeline(c.syncer, s.audio.history)
  {
    hide Timeline, AtEnd, SameRational;
    EveryRunKeeps(c, actions);
  }

  /** The driver shows an accepted track its pending head again no earlier than the synchroniser asked. */
  lemma DriverHonoursWakes(c: Config, actions: seq<(bool, Action)>, isVideo: bool, now: int, space: nat)
    requires Startable(c)
    requires var w := AnyRun(c, actions);
             w.session.Of(isVideo).held.Some? && !w.Of(isVideo).slot.outputBlocked &&
               !Resting(w.Of(isVideo).slot, now, space)
    ensures now >= AnyRun(c, actions).Of(isVideo).asked
  {
    EveryRunKeeps(c, actions);
  }
}
