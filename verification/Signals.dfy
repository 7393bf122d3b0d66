/** Event loops that sleep on a revision counter: no readiness and no capacity is ever lost, in any interleaving. */
module Signals {
  import opened Results
  import opened Queues

  /** A notification sent after a lock was released and not yet delivered. */
  datatype Note = Wake(signal: nat) | Capacity(signal: nat)

  /** A rejected push: the capacity signal of its queue and the revision read before the attempt. */
  datatype Parked = Parked(signal: nat, space: nat)

  /**
   * One round of a loop. `observed` was read first; `empty` are the queues then found empty, `checked` the parked ones
   * whose capacity revision had not moved.
   */
  datatype Round = Round(observed: nat, empty: set<nat>, sampled: map<nat, Parked>, checked: set<nat>)

  datatype Stage = Away | Looking(round: Round) | Sleeping(round: Round)

  datatype Loop = Loop(signal: nat, stage: Stage, parked: map<nat, Parked>)

  datatype World<T> = World(
    queues: map<nat, Queue<T, nat, nat>>,
    revisions: map<nat, nat>, spaces: map<nat, nat>, wakes: map<nat, nat>,
    inflight: multiset<Note>, loops: map<nat, Loop>)

  /** A signal counts from zero. */
  function Rev(revisions: map<nat, nat>, signal: nat): nat {
    if signal in revisions then revisions[signal] else 0
  }

  datatype Action<T> =
    | PushTo(queue: nat, item: T)
    | PopFrom(queue: nat)
    | BindRead(queue: nat, read: Option<nat>)
    | BindWrite(queue: nat, write: Option<nat>)
    | CloseQueue(queue: nat)
    | Fire(note: Note)
    | Begin(loop: nat)
    | Look(loop: nat, queue: nat)
    | Sample(loop: nat, queue: nat, signal: nat)
    | Offer(loop: nat, queue: nat, item: T)
    | Check(loop: nat, queue: nat)
    | Sleep(loop: nat)
    | Rouse(loop: nat)
    | Expire(loop: nat)

  // ----- steps

  function Sent(notes: Notes<nat, nat>): multiset<Note> {
    (if notes.read.Some? then multiset{Wake(notes.read.value)} else multiset{})
    + (if notes.write.Some? then multiset{Capacity(notes.write.value)} else multiset{})
  }

  function Changed<T>(w: World<T>, q: nat, after: Queue<T, nat, nat>, notes: Notes<nat, nat>): World<T> {
    w.(queues := w.queues[q := after], inflight := w.inflight + Sent(notes))
  }

  function Staged<T>(w: World<T>, l: nat, stage: Stage): World<T>
    requires l in w.loops
  {
    w.(loops := w.loops[l := w.loops[l].(stage := stage)])
  }

  /** A rejected push parks its queue on the revision sampled before; any other answer ends the waiting. */
  function Offered(me: Loop, q: nat, status: Status): Loop
    requires me.stage.Looking? && q in me.stage.round.sampled
  {
    var round := me.stage.round;
    me.(stage := Looking(round.(checked := round.checked - {q})),
        parked := if status == Timeout then me.parked[q := round.sampled[q]] else me.parked - {q})
  }

  predicate Enabled<T>(w: World<T>, a: Action<T>) {
    match a
    case PushTo(q, _) => q in w.queues
    case PopFrom(q) => q in w.queues
    case BindRead(q, _) => q in w.queues
    case BindWrite(q, _) => q in w.queues
    case CloseQueue(q) => q in w.queues
    case Fire(note) => note in w.inflight
    case Begin(l) => l in w.loops && !w.loops[l].stage.Sleeping?
    case Look(l, q) => l in w.loops && w.loops[l].stage.Looking? && q in w.queues
    case Sample(l, q, _) => l in w.loops && w.loops[l].stage.Looking? && q in w.queues
    case Offer(l, q, _) =>
      l in w.loops && w.loops[l].stage.Looking? && q in w.queues && q in w.loops[l].stage.round.sampled
    case Check(l, q) =>
      && l in w.loops && w.loops[l].stage.Looking? && q in w.loops[l].parked
      && var p := w.loops[l].parked[q]; Rev(w.spaces, p.signal) == p.space
    case Sleep(l) => l in w.loops && w.loops[l].stage.Looking?
    case Rouse(l) =>
      l in w.loops && w.loops[l].stage.Sleeping? &&
        Rev(w.revisions, w.loops[l].signal) != w.loops[l].stage.round.observed
    case Expire(l) => l in w.loops && w.loops[l].stage.Sleeping?
  }

  function Fired<T>(w: World<T>, note: Note): World<T> {
    var v := w.(inflight := w.inflight - multiset{note});
    match note
    case Wake(s) => v.(revisions := v.revisions[s := Rev(v.revisions, s) + 1])
    // The capacity revision moves first; waking the loop is a second notification.
    case Capacity(s) =>
      v.(spaces := v.spaces[s := Rev(v.spaces, s) + 1],
         inflight := v.inflight + if s in v.wakes then multiset{Wake(v.wakes[s])} else multiset{})
  }

  function Apply<T>(w: World<T>, a: Action<T>): World<T>
    requires Enabled(w, a)
  {
    match a
    case PushTo(q, x) => var (_, after, notes) := Push(w.queues[q], x); Changed(w, q, after, notes)
    case PopFrom(q) => var (_, _, after, notes) := Pop(w.queues[q]); Changed(w, q, after, notes)
    case BindRead(q, s) => var (after, notes) := SetReadSignal(w.queues[q], s); Changed(w, q, after, notes)
    case BindWrite(q, s) => var (after, notes) := SetWriteSignal(w.queues[q], s); Changed(w, q, after, notes)
    case CloseQueue(q) => var (after, notes) := Close(w.queues[q]); Changed(w, q, after, notes)
    case Fire(note) => Fired(w, note)
    case Begin(l) => Staged(w, l, Looking(Round(Rev(w.revisions, w.loops[l].signal), {}, map[], {})))
    case Look(l, q) =>
      var (status, _, after, notes) := Pop(w.queues[q]);
      var round := w.loops[l].stage.round;
      Staged(Changed(w, q, after, notes), l,
        Looking(if status == Empty then round.(empty := round.empty + {q}) else round))
    case Sample(l, q, s) =>
      var round := w.loops[l].stage.round;
      Staged(w, l, Looking(round.(sampled := round.sampled[q := Parked(s, Rev(w.spaces, s))])))
    case Offer(l, q, x) =>
      var (status, after, notes) := Push(w.queues[q], x);
      var v := Changed(w, q, after, notes);
      v.(loops := v.loops[l := Offered(w.loops[l], q, status)])
    case Check(l, q) =>
      var round := w.loops[l].stage.round;
      Staged(w, l, Looking(round.(checked := round.checked + {q})))
    case Sleep(l) => Staged(w, l, Sleeping(w.loops[l].stage.round))
    case Rouse(l) => Staged(w, l, Away)
    case Expire(l) => Staged(w, l, Away)
  }

  // ----- the joint invariant

  /**
   * A loop that observed this revision will not sleep through: the revision has moved, or a notification is on its way.
   */
  ghost predicate Told<T>(w: World<T>, signal: nat, observed: nat) {
    Rev(w.revisions, signal) != observed || Wake(signal) in w.inflight
  }

  ghost predicate ToldOfRoom<T>(w: World<T>, signal: nat, space: nat) {
    Rev(w.spaces, signal) != space || Capacity(signal) in w.inflight
  }

  ghost predicate ParkedHolds<T>(w: World<T>, q: nat, p: Parked) {
    && p.space <= Rev(w.spaces, p.signal)
    && q in w.queues
    && (RoomFor(w.queues[q], p.signal) ==> ToldOfRoom(w, p.signal, p.space))
  }

  ghost predicate EmptyHolds<T>(w: World<T>, q: nat, signal: nat, observed: nat) {
    q in w.queues && (ReadyFor(w.queues[q], signal) ==> Told(w, signal, observed))
  }

  /** If capacity moved after the check, the loop is told. */
  ghost predicate CheckedHolds<T>(w: World<T>, p: Parked, signal: nat, observed: nat) {
    Rev(w.spaces, p.signal) != p.space && p.signal in w.wakes && w.wakes[p.signal] == signal ==>
      Told(w, signal, observed)
  }

  ghost predicate RoundHolds<T>(w: World<T>, l: Loop, r: Round) {
    && r.observed <= Rev(w.revisions, l.signal)
    && (forall q :: q in r.empty ==> EmptyHolds(w, q, l.signal, r.observed))
    && (forall q :: q in r.sampled ==> r.sampled[q].space <= Rev(w.spaces, r.sampled[q].signal))
    && (forall q :: q in r.checked ==> q in l.parked && CheckedHolds(w, l.parked[q], l.signal, r.observed))
  }

  ghost predicate LoopHolds<T>(w: World<T>, l: Loop) {
    && (forall q :: q in l.parked ==> ParkedHolds(w, q, l.parked[q]))
    && (!l.stage.Away? ==> RoundHolds(w, l, l.stage.round))
  }

  ghost predicate Inv<T>(w: World<T>) {
    && (forall q :: q in w.queues ==> w.queues[q].Valid())
    && (forall l :: l in w.loops ==> LoopHolds(w, w.loops[l]))
  }

  // ----- what no step takes away

  /** The revision of a wait signal only grows, and a notification in flight is delivered by making it grow. */
  ghost predicate WakeMoves<T>(w: World<T>, v: World<T>, s: nat) {
    && Rev(w.revisions, s) <= Rev(v.revisions, s)
    && (Wake(s) in w.inflight ==> Wake(s) in v.inflight || Rev(w.revisions, s) < Rev(v.revisions, s))
  }

  /** Likewise for a capacity signal, which also forwards to its loop. */
  ghost predicate SpaceMoves<T>(w: World<T>, v: World<T>, s: nat) {
    && Rev(w.spaces, s) <= Rev(v.spaces, s)
    && (Capacity(s) in w.inflight ==> Capacity(s) in v.inflight || Rev(w.spaces, s) < Rev(v.spaces, s))
    && (s in w.wakes && Rev(w.spaces, s) < Rev(v.spaces, s) ==> Wake(w.wakes[s]) in v.inflight)
  }

  /** A queue that becomes ready, or gets room, announces it. */
  ghost predicate QueueMoves<T>(w: World<T>, v: World<T>, q: nat)
    requires q in w.queues
  {
    && q in v.queues && v.queues[q].Valid()
    && (forall s :: ReadyFor(v.queues[q], s) && !ReadyFor(w.queues[q], s) ==> Wake(s) in v.inflight)
    && (forall s :: RoomFor(v.queues[q], s) && !RoomFor(w.queues[q], s) ==> Capacity(s) in v.inflight)
  }

  ghost predicate Progress<T>(w: World<T>, v: World<T>) {
    && v.wakes == w.wakes && v.queues.Keys == w.queues.Keys
    && (forall s :: WakeMoves(w, v, s))
    && (forall s :: SpaceMoves(w, v, s))
    && (forall q :: q in w.queues ==> QueueMoves(w, v, q))
  }

  lemma SentReaches(notes: Notes<nat, nat>)
    ensures notes.read.Some? ==> Wake(notes.read.value) in Sent(notes)
    ensures notes.write.Some? ==> Capacity(notes.write.value) in Sent(notes)
  {
  }

  lemma ChangedProgresses<T>(w: World<T>, q: nat, after: Queue<T, nat, nat>, notes: Notes<nat, nat>)
    requires Inv(w) && q in w.queues && after.Valid() && Announced(w.queues[q], after, notes)
    ensures Progress(w, Changed(w, q, after, notes))
  {
    hide LoopHolds, WakeMoves, SpaceMoves, Sent;
    var v := Changed(w, q, after, notes);
    SentReaches(notes);
    forall s
      ensures WakeMoves(w, v, s) && SpaceMoves(w, v, s)
    {
      MoreInFlight(w, v, s, Sent(notes));
    }
  }

  lemma MoreInFlight<T>(w: World<T>, v: World<T>, s: nat, more: multiset<Note>)
    requires v.revisions == w.revisions && v.spaces == w.spaces && v.inflight == w.inflight + more
    ensures WakeMoves(w, v, s) && SpaceMoves(w, v, s)
  {
  }

  lemma FiredProgresses<T>(w: World<T>, note: Note)
    requires Inv(w) && note in w.inflight
    ensures Progress(w, Fired(w, note))
  {
    hide LoopHolds, WakeMoves, SpaceMoves;
    var v := Fired(w, note);
    forall s
      ensures WakeMoves(w, v, s) && SpaceMoves(w, v, s)
    {
      FiredMoves(w, note, s);
    }
  }

  lemma FiredMoves<T>(w: World<T>, note: Note, s: nat)
    requires note in w.inflight
    ensures WakeMoves(w, Fired(w, note), s) && SpaceMoves(w, Fired(w, note), s)
  {
    var v := Fired(w, note);
    assert Wake(s) != note && Wake(s) in w.inflight ==> Wake(s) in v.inflight;
    assert Capacity(s) != note && Capacity(s) in w.inflight ==> Capacity(s) in v.inflight;
  }

  lemma ToldStays<T>(w: World<T>, v: World<T>, signal: nat, observed: nat)
    requires Progress(w, v) && observed <= Rev(w.revisions, signal) && Told(w, signal, observed)
    ensures Told(v, signal, observed)
  {
    hide SpaceMoves, QueueMoves, Rev;
    assert WakeMoves(w, v, signal);
  }

  lemma ToldOfRoomStays<T>(w: World<T>, v: World<T>, signal: nat, space: nat)
    requires Progress(w, v) && space <= Rev(w.spaces, signal) && ToldOfRoom(w, signal, space)
    ensures ToldOfRoom(v, signal, space)
  {
    hide WakeMoves, QueueMoves, Rev;
    assert SpaceMoves(w, v, signal);
  }

  lemma ParkedStays<T>(w: World<T>, v: World<T>, q: nat, p: Parked)
    requires Progress(w, v) && ParkedHolds(w, q, p)
    ensures ParkedHolds(v, q, p)
  {
    hide WakeMoves, Rev, RoomFor, ReadyFor;
    assert SpaceMoves(w, v, p.signal) && QueueMoves(w, v, q);
    if RoomFor(w.queues[q], p.signal) {
      ToldOfRoomStays(w, v, p.signal, p.space);
    }
  }

  lemma EmptyStays<T>(w: World<T>, v: World<T>, q: nat, signal: nat, observed: nat)
    requires Progress(w, v) && observed <= Rev(w.revisions, signal) && EmptyHolds(w, q, signal, observed)
    ensures EmptyHolds(v, q, signal, observed)
  {
    hide SpaceMoves, WakeMoves, Rev, RoomFor, ReadyFor;
    assert QueueMoves(w, v, q);
    if ReadyFor(w.queues[q], signal) {
      ToldStays(w, v, signal, observed);
    }
  }

  lemma CheckedStays<T>(w: World<T>, v: World<T>, p: Parked, signal: nat, observed: nat)
    requires Progress(w, v) && observed <= Rev(w.revisions, signal) && p.space <= Rev(w.spaces, p.signal)
    requires CheckedHolds(w, p, signal, observed)
    ensures CheckedHolds(v, p, signal, observed)
  {
    hide WakeMoves, QueueMoves, Rev;
    assert SpaceMoves(w, v, p.signal);
    if Told(w, signal, observed) {
      ToldStays(w, v, signal, observed);
    }
  }

  lemma LoopStays<T>(w: World<T>, v: World<T>, l: Loop)
    requires Progress(w, v) && LoopHolds(w, l)
    ensures LoopHolds(v, l)
  {
    hide ParkedHolds, EmptyHolds, CheckedHolds, QueueMoves;
    assert forall s :: Rev(w.revisions, s) <= Rev(v.revisions, s) && Rev(w.spaces, s) <= Rev(v.spaces, s) by {
      RevisionsGrow(w, v);
    }
    hide Progress;
    forall q | q in l.parked
      ensures ParkedHolds(v, q, l.parked[q])
    {
      ParkedStays(w, v, q, l.parked[q]);
    }
    if !l.stage.Away? {
      var r := l.stage.round;
      forall q | q in r.empty
        ensures EmptyHolds(v, q, l.signal, r.observed)
      {
        EmptyStays(w, v, q, l.signal, r.observed);
      }
      forall q | q in r.checked
        ensures CheckedHolds(v, l.parked[q], l.signal, r.observed)
      {
        ParkedIsPast(w, q, l.parked[q]);
        CheckedStays(w, v, l.parked[q], l.signal, r.observed);
      }
    }
  }

  lemma RevisionsGrow<T>(w: World<T>, v: World<T>)
    requires Progress(w, v)
    ensures forall s :: Rev(w.revisions, s) <= Rev(v.revisions, s) && Rev(w.spaces, s) <= Rev(v.spaces, s)
  {
    forall s
      ensures Rev(w.revisions, s) <= Rev(v.revisions, s) && Rev(w.spaces, s) <= Rev(v.spaces, s)
    {
      assert WakeMoves(w, v, s) && SpaceMoves(w, v, s);
    }
  }

  lemma ParkedIsPast<T>(w: World<T>, q: nat, p: Parked)
    requires ParkedHolds(w, q, p)
    ensures p.space <= Rev(w.spaces, p.signal)
  {
  }

  /** A step of the environment keeps the invariant for all loops; a step of one loop must also keep its own. */
  lemma ProgressKeeps<T>(w: World<T>, v: World<T>)
    requires Inv(w) && Progress(w, v) && v.loops == w.loops
    ensures Inv(v)
  {
    hide LoopHolds, WakeMoves, SpaceMoves;
    forall q | q in v.queues
      ensures v.queues[q].Valid()
    {
      assert QueueMoves(w, v, q);
    }
    forall l | l in v.loops
      ensures LoopHolds(v, v.loops[l])
    {
      LoopStays(w, v, w.loops[l]);
    }
  }

  // ----- each step

  lemma QueueStepKeeps<T>(w: World<T>, a: Action<T>)
    requires Inv(w) && Enabled(w, a)
    requires a.PushTo? || a.PopFrom? || a.BindRead? || a.BindWrite? || a.CloseQueue?
    ensures Inv(Apply(w, a))
  {
    hide LoopHolds, Progress, Changed;
    var q := w.queues[a.queue];
    match a
    case PushTo(_, x) => PushKeeps(q, x); Through(w, a.queue, Push(q, x).1, Push(q, x).2);
    case PopFrom(_) => PopKeeps(q); Through(w, a.queue, Pop(q).2, Pop(q).3);
    case BindRead(_, s) => BindingKeeps(q, s, None); Through(w, a.queue, SetReadSignal(q, s).0, SetReadSignal(q, s).1);
    case BindWrite(_, s) => BindingKeeps(q, None, s);
      Through(w, a.queue, SetWriteSignal(q, s).0, SetWriteSignal(q, s).1);
    case CloseQueue(_) => BindingKeeps(q, None, None); Through(w, a.queue, Close(q).0, Close(q).1);
  }

  lemma Through<T>(w: World<T>, q: nat, after: Queue<T, nat, nat>, notes: Notes<nat, nat>)
    requires Inv(w) && q in w.queues && after.Valid() && Announced(w.queues[q], after, notes)
    ensures Inv(Changed(w, q, after, notes))
    ensures Progress(w, Changed(w, q, after, notes))
  {
    hide LoopHolds, Progress;
    ChangedProgresses(w, q, after, notes);
    ProgressKeeps(w, Changed(w, q, after, notes));
  }

  lemma FireKeeps<T>(w: World<T>, note: Note)
    requires Inv(w) && note in w.inflight
    ensures Inv(Fired(w, note))
  {
    hide LoopHolds, Progress;
    FiredProgresses(w, note);
    ProgressKeeps(w, Fired(w, note));
  }

  /** Only the acting loop's own obligations are new. */
  lemma LoopStepKeeps<T>(w: World<T>, l: nat, after: Loop)
    requires Inv(w) && l in w.loops && LoopHolds(w, after)
    ensures Inv(w.(loops := w.loops[l := after]))
  {
    var v := w.(loops := w.loops[l := after]);
    forall k | k in v.loops
      ensures LoopHolds(v, v.loops[k])
    {
      SameSignals(w, v, v.loops[k]);
    }
  }

  lemma SameSignals<T>(w: World<T>, v: World<T>, l: Loop)
    requires LoopHolds(w, l) && v == w.(loops := v.loops)
    ensures LoopHolds(v, l)
  {
  }

  lemma LookKeeps<T>(w: World<T>, l: nat, q: nat)
    requires Inv(w) && Enabled(w, Look(l, q))
    ensures Inv(Apply(w, Look(l, q)))
  {
    var (status, _, after, notes) := Pop(w.queues[q]);
    PopKeeps(w.queues[q]);
    Through(w, q, after, notes);
    var v := Changed(w, q, after, notes);
    var me := w.loops[l];
    var round := me.stage.round;
    var next := me.(stage := Looking(if status == Empty then round.(empty := round.empty + {q}) else round));
    assert LoopHolds(v, next) by {
      assert LoopHolds(v, me);
    }
    LoopStepKeeps(v, l, next);
  }

  lemma OfferKeeps<T>(w: World<T>, l: nat, q: nat, x: T)
    requires Inv(w) && Enabled(w, Offer(l, q, x))
    ensures Inv(Apply(w, Offer(l, q, x)))
  {
    hide LoopHolds, Progress, Changed, Push;
    var (status, after, notes) := Push(w.queues[q], x);
    PushKeeps(w.queues[q], x);
    Through(w, q, after, notes);
    var v := Changed(w, q, after, notes);
    var me := w.loops[l];
    assert v.loops == w.loops && v.queues[q] == after && v.spaces == w.spaces by {
      ChangedOnly(w, q, after, notes);
    }
    RejectedMayPark(w, v, q, me, status);
    LoopStepKeeps(v, l, Offered(me, q, status));
  }

  lemma ChangedOnly<T>(w: World<T>, q: nat, after: Queue<T, nat, nat>, notes: Notes<nat, nat>)
    ensures var v := Changed(w, q, after, notes);
      v.loops == w.loops && q in v.queues && v.queues[q] == after && v.spaces == w.spaces
  {
  }

  lemma RejectedMayPark<T>(w: World<T>, v: World<T>, q: nat, me: Loop, status: Status)
    requires LoopHolds(w, me) && LoopHolds(v, me) && me.stage.Looking? && q in me.stage.round.sampled
    requires v.spaces == w.spaces && q in v.queues
    requires status == Timeout ==> !v.queues[q].Room()
    ensures LoopHolds(v, Offered(me, q, status))
  {
    hide EmptyHolds, CheckedHolds;
    var p := me.stage.round.sampled[q];
    if status == Timeout {
      assert ParkedHolds(v, q, p);
    }
  }

  lemma CheckKeeps<T>(w: World<T>, me: Loop, q: nat)
    requires LoopHolds(w, me) && me.stage.Looking? && q in me.parked
    requires Rev(w.spaces, me.parked[q].signal) == me.parked[q].space
    ensures LoopHolds(w, me.(stage := Looking(me.stage.round.(checked := me.stage.round.checked + {q}))))
  {
    hide ParkedHolds, EmptyHolds;
  }

  lemma OwnStepKeeps<T>(w: World<T>, a: Action<T>)
    requires Inv(w) && Enabled(w, a)
    requires a.Begin? || a.Sample? || a.Check? || a.Sleep? || a.Rouse? || a.Expire?
    ensures Inv(Apply(w, a))
  {
    hide ParkedHolds, EmptyHolds, CheckedHolds;
    var me, next := w.loops[a.loop], Apply(w, a).loops[a.loop];
    assert LoopHolds(w, me);
    match a
    case Begin(_) => LoopStepKeeps(w, a.loop, next);
    case Sample(_, _, _) => LoopStepKeeps(w, a.loop, next);
    case Check(_, q) => CheckKeeps(w, me, q); LoopStepKeeps(w, a.loop, next);
    case Sleep(_) => LoopStepKeeps(w, a.loop, next);
    case Rouse(_) => LoopStepKeeps(w, a.loop, next);
    case Expire(_) => LoopStepKeeps(w, a.loop, next);
  }

  lemma ApplyKeeps<T>(w: World<T>, a: Action<T>)
    requires Inv(w) && Enabled(w, a)
    ensures Inv(Apply(w, a))
  {
    hide Inv;
    match a
    case Fire(note) => FireKeeps(w, note);
    case Look(l, q) => LookKeeps(w, l, q);
    case Offer(l, q, x) => OfferKeeps(w, l, q, x);
    case PushTo(_, _) => QueueStepKeeps(w, a);
    case PopFrom(_) => QueueStepKeeps(w, a);
    case BindRead(_, _) => QueueStepKeeps(w, a);
    case BindWrite(_, _) => QueueStepKeeps(w, a);
    case CloseQueue(_) => QueueStepKeeps(w, a);
    case _ => OwnStepKeeps(w, a);
  }

  // ----- every interleaving

  function Run<T>(w: World<T>, actions: seq<Action<T>>): World<T>
    decreases actions
  {
    if actions == [] then w else Run(if Enabled(w, actions[0]) then Apply(w, actions[0]) else w, actions[1..])
  }

  lemma {:induction false} RunKeeps<T>(w: World<T>, actions: seq<Action<T>>)
    requires Inv(w)
    ensures Inv(Run(w, actions))
    decreases actions
  {
    hide Inv, Apply, Enabled;
    if actions != [] {
      if Enabled(w, actions[0]) {
        ApplyKeeps(w, actions[0]);
      }
      RunKeeps(if Enabled(w, actions[0]) then Apply(w, actions[0]) else w, actions[1..]);
    }
  }

  /** No loop has begun. The queues may have been in use, and notifications be on their way. */
  ghost predicate Initial<T>(w: World<T>) {
    && (forall q :: q in w.queues ==> w.queues[q].Valid())
    && (forall l :: l in w.loops ==> w.loops[l].stage.Away? && w.loops[l].parked == map[])
  }

  /** Queues stay first in, first out and within capacity through every interleaving. */
  lemma QueuesStayFifo<T>(w: World<T>, actions: seq<Action<T>>, q: nat)
    requires Initial(w) && q in Run(w, actions).queues
    ensures var queue := Run(w, actions).queues[q];
            queue.accepted == queue.taken + queue.items && |queue.items| <= queue.capacity
  {
    RunKeeps(w, actions);
  }

  /** The item a step hands to a queue and is answered Success for. */
  function PushedBy<T>(w: World<T>, a: Action<T>, q: nat): seq<T>
    requires Enabled(w, a)
  {
    match a
    case PushTo(to, x) => if to == q && Push(w.queues[q], x).0 == Success then [x] else []
    case Offer(_, to, x) => if to == q && Push(w.queues[q], x).0 == Success then [x] else []
    case _ => []
  }

  function Given<T>(item: Option<T>): seq<T> {
    if item.Some? then [item.value] else []
  }

  /** The item a step is given by a queue. */
  function PoppedBy<T>(w: World<T>, a: Action<T>, q: nat): seq<T>
    requires Enabled(w, a)
  {
    match a
    case PopFrom(of) => if of == q then Given(Pop(w.queues[q]).1) else []
    case Look(_, of) => if of == q then Given(Pop(w.queues[q]).1) else []
    case _ => []
  }

  function Pushed<T>(w: World<T>, actions: seq<Action<T>>, q: nat): seq<T>
    decreases actions
  {
    if actions == [] then []
    else if !Enabled(w, actions[0]) then Pushed(w, actions[1..], q)
    else PushedBy(w, actions[0], q) + Pushed(Apply(w, actions[0]), actions[1..], q)
  }

  function Popped<T>(w: World<T>, actions: seq<Action<T>>, q: nat): seq<T>
    decreases actions
  {
    if actions == [] then []
    else if !Enabled(w, actions[0]) then Popped(w, actions[1..], q)
    else PoppedBy(w, actions[0], q) + Popped(Apply(w, actions[0]), actions[1..], q)
  }

  /** What one step does to the items of a queue. */
  ghost predicate Passes<T>(w: World<T>, a: Action<T>, q: nat)
    requires Enabled(w, a) && q in w.queues
  {
    var v := Apply(w, a);
    q in v.queues && w.queues[q].items + PushedBy(w, a, q) == PoppedBy(w, a, q) + v.queues[q].items
  }

  lemma PushPasses<T>(w: World<T>, a: Action<T>, q: nat)
    requires Enabled(w, a) && (a.PushTo? || a.Offer?) && q in w.queues && w.queues[a.queue].Valid()
    ensures Passes(w, a, q)
  {
    hide Push, Sent, Offered;
    PushKeeps(w.queues[a.queue], a.item);
  }

  lemma PopPasses<T>(w: World<T>, a: Action<T>, q: nat)
    requires Enabled(w, a) && (a.PopFrom? || a.Look?) && q in w.queues && w.queues[a.queue].Valid()
    ensures Passes(w, a, q)
  {
    hide Pop, Sent;
    PopKeeps(w.queues[a.queue]);
  }

  lemma BindingPasses<T>(w: World<T>, a: Action<T>, q: nat)
    requires Enabled(w, a) && (a.BindRead? || a.BindWrite? || a.CloseQueue?) && q in w.queues
    ensures Passes(w, a, q)
  {
    hide Sent;
  }

  lemma OwnStepPasses<T>(w: World<T>, a: Action<T>, q: nat)
    requires Enabled(w, a) && q in w.queues
    requires a.Begin? || a.Sample? || a.Check? || a.Sleep? || a.Rouse? || a.Expire? || a.Fire?
    ensures Passes(w, a, q)
  {
  }

  lemma StepPassesItems<T>(w: World<T>, a: Action<T>, q: nat)
    requires Inv(w) && Enabled(w, a) && q in w.queues
    ensures Passes(w, a, q)
  {
    hide LoopHolds, Passes, Apply;
    match a
    case PushTo(_, _) => PushPasses(w, a, q);
    case Offer(_, _, _) => PushPasses(w, a, q);
    case PopFrom(_) => PopPasses(w, a, q);
    case Look(_, _) => PopPasses(w, a, q);
    case BindRead(_, _) => BindingPasses(w, a, q);
    case BindWrite(_, _) => BindingPasses(w, a, q);
    case CloseQueue(_) => BindingPasses(w, a, q);
    case _ => OwnStepPasses(w, a, q);
  }

  lemma {:induction false} RunPassesItems<T>(w: World<T>, actions: seq<Action<T>>, q: nat)
    requires Inv(w) && q in w.queues
    ensures q in Run(w, actions).queues
    ensures w.queues[q].items + Pushed(w, actions, q) == Popped(w, actions, q) + Run(w, actions).queues[q].items
    decreases actions
  {
    hide Inv, Apply, Enabled, PushedBy, PoppedBy;
    if actions != [] {
      var a, rest := actions[0], actions[1..];
      if Enabled(w, a) {
        ApplyKeeps(w, a);
        StepPassesItems(w, a, q);
        var v := Apply(w, a);
        RunPassesItems(v, rest, q);
        Reassociate(w.queues[q].items, PushedBy(w, a, q), Pushed(v, rest, q), PoppedBy(w, a, q), v.queues[q].items,
          Popped(v, rest, q), Run(v, rest).queues[q].items);
      } else {
        RunPassesItems(w, rest, q);
      }
    }
  }

  lemma Reassociate<T>(items: seq<T>, pushed: seq<T>, morePushed: seq<T>, popped: seq<T>, between: seq<T>,
    morePopped: seq<T>, last: seq<T>)
    requires items + pushed == popped + between && between + morePushed == morePopped + last
    ensures items + (pushed + morePushed) == (popped + morePopped) + last
  {
    assert items + (pushed + morePushed) == (items + pushed) + morePushed;
    assert (popped + between) + morePushed == popped + (between + morePushed);
    assert popped + (morePopped + last) == (popped + morePopped) + last;
  }

  /**
   * In every interleaving what a queue hands out and still holds is what it held at first and then exactly the items of
   * the pushes that were answered Success, once each and in their order.
   */
  lemma ItemsPassThrough<T>(w: World<T>, actions: seq<Action<T>>, q: nat)
    requires Initial(w) && q in w.queues
    ensures q in Run(w, actions).queues
    ensures w.queues[q].items + Pushed(w, actions, q) == Popped(w, actions, q) + Run(w, actions).queues[q].items
  {
    RunPassesItems(w, actions, q);
  }

  /**
   * No lost wake-up: a loop asleep on a revision, with a queue it saw empty bound to its signal and ready since, is
   * woken already or has a notification on its way.
   */
  lemma NoLostWakeUp<T>(w: World<T>, actions: seq<Action<T>>, l: nat, q: nat)
    requires Initial(w) && l in Run(w, actions).loops
    requires var me := Run(w, actions).loops[l]; me.stage.Sleeping? && q in me.stage.round.empty
    ensures var v := Run(w, actions);
            var me := v.loops[l];
            && q in v.queues
            && (v.queues[q].readSignal == Some(me.signal) && (v.queues[q].closed || v.queues[q].items != []) ==>
                  Enabled(v, Rouse(l)) || Wake(me.signal) in v.inflight)
  {
    RunKeeps(w, actions);
    assert LoopHolds(Run(w, actions), Run(w, actions).loops[l]);
  }

  /**
   * No lost capacity: a push stays rejected on an unmoved revision only while its queue is full and open, or a capacity
   * notification is on its way.
   */
  lemma NoLostCapacity<T>(w: World<T>, actions: seq<Action<T>>, l: nat, q: nat)
    requires Initial(w) && l in Run(w, actions).loops && q in Run(w, actions).loops[l].parked
    ensures var v := Run(w, actions);
            var p := v.loops[l].parked[q];
            && q in v.queues
            && (v.queues[q].writeSignal == Some(p.signal) && Rev(v.spaces, p.signal) == p.space ==>
                  (!v.queues[q].closed && |v.queues[q].items| == v.queues[q].capacity) ||
                    Capacity(p.signal) in v.inflight)
  {
    RunKeeps(w, actions);
    assert LoopHolds(Run(w, actions), Run(w, actions).loops[l]);
  }

  /**
   * A loop asleep over a rejected push is woken by the capacity it waits for: the news is with it, on its way to it, or
   * on its way to the counter that forwards it.
   */
  lemma NoSleepOverCapacity<T>(w: World<T>, actions: seq<Action<T>>, l: nat, q: nat)
    requires Initial(w) && l in Run(w, actions).loops
    requires var me := Run(w, actions).loops[l]; me.stage.Sleeping? && q in me.stage.round.checked
    ensures var v := Run(w, actions);
            var me := v.loops[l];
            && q in me.parked && q in v.queues
            && var p := me.parked[q];
               (RoomFor(v.queues[q], p.signal) && p.signal in v.wakes && v.wakes[p.signal] == me.signal ==>
                  Enabled(v, Rouse(l)) || Wake(me.signal) in v.inflight || Capacity(p.signal) in v.inflight)
  {
    RunKeeps(w, actions);
    assert LoopHolds(Run(w, actions), Run(w, actions).loops[l]);
  }

  /** Delivering the notification is enough: the sleeper may wake at once. */
  lemma DeliveryWakes<T>(w: World<T>, actions: seq<Action<T>>, l: nat)
    requires Initial(w) && l in Run(w, actions).loops && Run(w, actions).loops[l].stage.Sleeping?
    requires Wake(Run(w, actions).loops[l].signal) in Run(w, actions).inflight
    ensures var v := Run(w, actions); Enabled(Apply(v, Fire(Wake(v.loops[l].signal))), Rouse(l))
  {
    RunKeeps(w, actions);
    assert LoopHolds(Run(w, actions), Run(w, actions).loops[l]);
  }
}
