/**
 * One remuxer's admission, drain and close protocol: producers, a one-packet handoff, and tasks on a single poller
 * thread.
 */
module Remuxer {
  import opened Results
  import opened MediaTimestamps
  import opened DtsQueue
  import opened Interleaver

  type Entry = Item<Packet>

  const HANDOFF_CAPACITY := 1

  datatype Task = Process | Finish | Stopped

  /** The fields guarded by the session mutex, the handoff queue, and the poller's task queue. */
  datatype Core = Core(
    running: bool, accepting: bool, draining: bool, closing: bool, scheduled: bool, errorReported: bool,
    handoff: seq<Entry>, handoffClosed: bool, interleaver: State<Packet>, tasks: seq<Task>)

  // ----- the critical sections

  function Scheduled(c: Core): Core {
    if c.scheduled || c.closing then c
    else c.(scheduled := true, tasks := c.tasks + [Process])
  }

  function Drained(c: Core): Core {
    if !c.running || c.closing then c
    else Scheduled(c.(accepting := false, handoffClosed := true, draining := true))
  }

  function Errored(c: Core): Core {
    if !c.running || c.errorReported then c
    else Scheduled(c.(errorReported := true, accepting := false, handoffClosed := true, draining := true))
  }

  /** What the locked part of a Process task ends in. */
  datatype Taken = Ignored | Took(entered: seq<Entry>, out: seq<Entry>, finish: bool) | Threw

  ghost function Take(c: Core): (Core, Taken)
    requires forall i :: 0 <= i < |c.handoff| ==> c.handoff[i].track < |c.interleaver.highest|
  {
    if !c.running || c.closing then (c.(scheduled := false), Ignored)
    else
      var popped := c.(handoff := if c.handoff == [] then [] else c.handoff[1..]);
      var entered := if c.handoff == [] then [] else [c.handoff[0]];
      var filed := if c.handoff == [] then Ok(c.interleaver) else Push(c.interleaver, c.handoff[0]);
      // An exception leaves `scheduled` as it was.
      if filed.Err? then (popped, Threw)
      else
        match PopReady(filed.value, c.draining)
        case Err(_) => (popped.(interleaver := filed.value), Threw)
        case Ok((after, out)) =>
          (popped.(interleaver := after, scheduled := false), Took(entered, out, c.draining))
  }

  function Closed(c: Core): Core {
    c.(accepting := false, handoffClosed := true, closing := true)
  }

  function HandedOver(c: Core, x: Entry): Core {
    c.(handoff := c.handoff + [x])
  }

  ghost function Opened(tracks: nat): Core {
    Core(true, true, false, false, false, false, [], false, Start<Packet>(tracks).state, [])
  }

  function Ended(c: Core): Core {
    c.(running := false, scheduled := false, handoff := [], handoffClosed := true)
  }

  /** The state Start sets up for one session; each method is one critical section of the source. */
  class Session {
    const interleaver: PacketInterleaver
    var running: bool
    var accepting: bool
    var draining: bool
    var closing: bool
    var scheduled: bool
    var errorReported: bool
    var handoff: seq<Packet>
    var handoffClosed: bool
    var tasks: seq<Task>

    ghost predicate Consistent()
      reads this, interleaver
    {
      && interleaver.Consistent() && ValidStreams(interleaver.streams)
      && AllValid(handoff, interleaver.streams)
    }

    ghost function View(): Core
      reads this, interleaver
      requires Consistent()
    {
      Core(running, accepting, draining, closing, scheduled, errorReported,
           Places(handoff, interleaver.streams), handoffClosed, interleaver.View(), tasks)
    }

    constructor (streams: seq<Stream>)
      requires ValidStreams(streams)
      ensures Consistent() && interleaver.streams == streams && fresh(interleaver)
      ensures View() == Opened(|streams|)
    {
      interleaver := new PacketInterleaver(streams);
      running, accepting := true, true;
      draining, closing, scheduled, errorReported := false, false, false, false;
      handoff, handoffClosed, tasks := [], false, [];
    }

    method Schedule()
      requires Consistent()
      modifies this`scheduled, this`tasks
      ensures Consistent() && View() == Scheduled(old(View()))
    {
      if scheduled || closing {
        return;
      }
      scheduled := true;
      tasks := tasks + [Process];
    }

    method Drain()
      requires Consistent()
      modifies this
      ensures Consistent() && View() == Drained(old(View()))
    {
      if !running || closing {
        return;
      }
      accepting := false;
      handoffClosed := true;
      draining := true;
      Schedule();
    }

    method Error()
      requires Consistent()
      modifies this
      ensures Consistent() && View() == Errored(old(View()))
    {
      if !running {
        return;
      }
      if !errorReported {
        errorReported := true;
        accepting := false;
        handoffClosed := true;
        draining := true;
        if !closing {
          Schedule();
        }
      }
    }

    /** The blocking push of an admitted producer, at the moment it stops blocking. */
    method PushHandoff(p: Packet) returns (accepted: bool)
      requires Consistent() && Valid(p, interleaver.streams)
      requires handoffClosed || |handoff| < HANDOFF_CAPACITY
      modifies this`handoff
      ensures Consistent() && accepted == !handoffClosed
      ensures View() == if accepted then HandedOver(old(View()), Place(p, interleaver.streams)) else old(View())
    {
      hide Place;
      if handoffClosed {
        return false;
      }
      PlacesConcat(handoff, [p], interleaver.streams);
      assert Places([p], interleaver.streams) == [Place(p, interleaver.streams)];
      handoff := handoff + [p];
      return true;
    }

    /** The locked part of a Process task. */
    method TakePackets() returns (taken: Option<Result<seq<Packet>>>, finish: bool)
      requires Consistent()
      modifies this, interleaver
      ensures Consistent()
      ensures var (after, what) := Take(old(View()));
              && View() == after
              && match what
                 case Ignored => taken.None?
                 case Threw => taken.Some? && taken.value.Err?
                 case Took(_, out, last) =>
                   && taken.Some? && taken.value.Ok? && finish == last
                   && AllValid(taken.value.value, interleaver.streams)
                   && Places(taken.value.value, interleaver.streams) == out
    {
      hide Place, Valid, Sorted;
      finish := false;
      if !running || closing {
        scheduled := false;
        return None, false;
      }
      if handoff != [] {
        var p := handoff[0];
        PlacesSplit(handoff, 1, interleaver.streams);
        handoff := handoff[1..];
        var filed := interleaver.Push(p);
        if filed.Err? {
          return Some(Err(filed.error)), false;
        }
      }
      var packets := interleaver.PopReady(draining);
      if packets.Err? {
        return Some(Err(packets.error)), false;
      }
      scheduled := false;
      return Some(packets), draining;
    }

    method Close()
      requires Consistent()
      modifies this
      ensures Consistent() && View() == Closed(old(View()))
    {
      accepting := false;
      handoffClosed := true;
      closing := true;
    }

    method End()
      requires Consistent()
      modifies this
      ensures Consistent() && View() == Ended(old(View()))
    {
      handoff, handoffClosed := [], true;
      running, scheduled := false, false;
    }
  }

  const IDLE := Core(false, false, false, false, false, false, [], true, State([], [], false, false), [])

  // ----- threads

  /** A producer inside SubmitPacket: past the admission check, or past its successful push. */
  datatype Producer = Idle | Waiting(packet: Entry, session: nat) | Admitted(packet: Entry, session: nat)

  /** Where the poller thread is. `Processing` holds the packets it took; `Failed` is about to report an exception. */
  datatype Poller = Ready | Processing(finish: bool) | Failed | Closing | Flushing

  datatype World = World(
    core: Core, session: nat, producers: map<nat, Producer>, poller: Poller,
    // History of the current session.
    accepted: seq<Entry>, entered: seq<Entry>, emitted: seq<Entry>, spoiled: bool, closings: nat,
    // Earlier sessions, by number, and what producers have answered true to.
    past: seq<Record>, answered: seq<(Entry, nat)>)

  /** What is remembered of a session: the packets accepted and emitted, and whether processing failed. */
  datatype Record = Record(accepted: seq<Entry>, emitted: seq<Entry>, spoiled: bool)

  datatype Action =
    | Submit(producer: nat, packet: Entry)
    | HandOver(producer: nat)
    | Announce(producer: nat)
    | RequestDrain
    | OutputError
    | Open(tracks: nat)
    | ForgetStop
    | Poll(throws: bool)

  function Role(w: World, p: nat): Producer {
    if p in w.producers then w.producers[p] else Idle
  }

  predicate Enabled(w: World, a: Action) {
    match a
    case Submit(p, x) => Role(w, p).Idle? && x.track < |w.core.interleaver.highest|
    case HandOver(p) =>
      Role(w, p).Waiting? &&
      (Role(w, p).session != w.session || w.core.handoffClosed || |w.core.handoff| < HANDOFF_CAPACITY)
    case Announce(p) => Role(w, p).Admitted?
    case RequestDrain => true
    case OutputError => true
    case Open(_) => !w.core.running && w.poller.Ready?
    case ForgetStop => !w.core.running
    case Poll(_) => !w.poller.Ready? || w.core.tasks != []
  }

  ghost function Apply(w: World, a: Action): World
    requires Enabled(w, a) && Inv(w)
  {
    match a
    case Submit(p, x) =>
      if w.core.accepting then w.(producers := w.producers[p := Waiting(x, w.session)]) else w
    case HandOver(p) =>
      var me := Role(w, p);
      // An older session's queue was closed before that session ended.
      if me.session != w.session || w.core.handoffClosed then w.(producers := w.producers[p := Idle])
      else
        w.(core := HandedOver(w.core, me.packet),
           accepted := w.accepted + [me.packet],
           producers := w.producers[p := Admitted(me.packet, me.session)])
    case Announce(p) =>
      var me := Role(w, p);
      w.(core := if me.session == w.session && w.core.running then Scheduled(w.core) else w.core,
         producers := w.producers[p := Idle],
         answered := w.answered + [(me.packet, me.session)])
    case RequestDrain => w.(core := Drained(w.core))
    case OutputError => w.(core := Errored(w.core))
    case Open(tracks) =>
      w.(core := Opened(tracks), session := w.session + 1,
         accepted := [], entered := [], emitted := [], spoiled := false, closings := 0,
         past := w.past + [Record(w.accepted, w.emitted, w.spoiled)])
    case ForgetStop => w.(core := w.core.(draining := false, closing := false))
    case Poll(throws) => PollStep(w, throws)
  }

  /** One step of the poller thread. `throws` chooses whether converting or sending the taken packets fails. */
  ghost function PollStep(w: World, throws: bool): World
    requires Enabled(w, Poll(throws)) && Inv(w)
  {
    match w.poller
    case Ready => RunTask(w.(core := w.core.(tasks := w.core.tasks[1..])), w.core.tasks[0])
    case Processing(finish) =>
      if throws then w.(poller := Failed, spoiled := w.spoiled || !finish)
      else w.(poller := if finish then Closing else Ready)
    case Failed => w.(core := Errored(w.core), poller := Closing)
    case Closing => w.(core := Closed(w.core), poller := Flushing, closings := w.closings + 1)
    case Flushing => w.(core := w.core.(tasks := w.core.tasks + [Finish]), poller := Ready)
  }

  ghost function RunTask(w: World, task: Task): World
    requires Fits(w)
  {
    match task
    case Process =>
      var (after, taken) := Take(w.core);
      (match taken
       case Ignored => w.(core := after)
       case Threw => w.(core := after, poller := Failed, spoiled := true)
       case Took(entered, out, finish) =>
         w.(core := after, poller := Processing(finish), entered := w.entered + entered, emitted := w.emitted + out))
    case Finish => w.(core := w.core.(tasks := w.core.tasks + [Stopped]))
    case Stopped => w.(core := Ended(w.core))
  }

  // ----- the joint invariant

  ghost predicate Fits(w: World) {
    && (forall i :: 0 <= i < |w.core.handoff| ==> w.core.handoff[i].track < |w.core.interleaver.highest|)
    && (forall p :: p in w.producers && w.producers[p].Waiting? && w.producers[p].session == w.session ==>
          w.producers[p].packet.track < |w.core.interleaver.highest|)
  }

  /** Admission is open only in a plain running session; draining means the handoff is closed. */
  ghost predicate Flags(c: Core) {
    && (c.accepting ==> c.running && !c.draining && !c.closing && !c.handoffClosed && !c.errorReported)
    && (c.running && (c.draining || c.closing || c.errorReported) ==> c.draining && c.handoffClosed)
    && (!c.running ==> c.handoffClosed && c.handoff == [])
    && |c.handoff| <= HANDOFF_CAPACITY
  }

  /**
   * One Process task at most, exactly when `scheduled` says so, unless an exception left the flag behind; one finish
   * path.
   */
  ghost predicate Tasks(w: World) {
    var c := w.core;
    if !c.running then c.tasks == [] && w.poller.Ready? && !c.scheduled
    else if !c.closing then
      && (c.tasks == [] || c.tasks == [Process])
      && (c.tasks == [Process] ==> c.scheduled)
      && (c.scheduled && c.tasks == [] ==> w.poller.Failed? || w.poller.Closing?)
      && !w.poller.Flushing?
      && (w.poller == Processing(true) || w.poller.Closing? ==> c.draining)
      && (c.draining ==> c.tasks == [Process] || w.poller == Processing(true) || w.poller.Failed? || w.poller.Closing?)
    else
      || (w.poller.Flushing? && (c.tasks == [] || c.tasks == [Process]))
      || (w.poller.Ready? && (c.tasks == [Process, Finish] || c.tasks == [Finish] || c.tasks == [Stopped]))
  }

  ghost predicate FinishPath(w: World) {
    w.poller == Processing(true) || w.poller.Failed? || w.poller.Closing? || w.poller.Flushing? || w.core.closing ||
      !w.core.running
  }

  /** Every accepted packet is in exactly one place, and none is left behind once the finish path is entered. */
  ghost predicate Conserved(w: World) {
    !w.spoiled ==>
      && w.accepted == w.entered + w.core.handoff
      && (w.poller.Failed? ==> w.core.draining)
      && (w.core.running ==>
            multiset(w.entered) == multiset(w.core.interleaver.queue) + multiset(w.emitted))
      && (FinishPath(w) ==> w.core.handoff == [] && multiset(w.emitted) == multiset(w.accepted))
      && (w.core.running && FinishPath(w) ==> w.core.interleaver.queue == [])
  }

  ghost predicate ClosedOnce(w: World) {
    && (w.core.running ==> w.closings == if w.core.closing then 1 else 0)
    && (!w.core.running ==> w.closings == if w.session > 0 then 1 else 0)
    && (w.core.running ==> w.session > 0)
  }

  ghost predicate ProducersHonest(w: World) {
    forall p :: p in w.producers ==>
      match w.producers[p]
      case Idle => true
      case Waiting(_, session) => session <= w.session
      case Admitted(_, session) => session <= w.session
  }

  ghost predicate Inv(w: World) {
    Fits(w) && Flags(w.core) && Tasks(w) && Conserved(w) && ClosedOnce(w) && ProducersHonest(w)
  }

  // ----- every step keeps it

  lemma DrainKeeps(w: World)
    requires Inv(w)
    ensures Inv(Apply(w, RequestDrain))
  {
  }

  lemma ErrorKeeps(w: World)
    requires Inv(w)
    ensures Inv(Apply(w, OutputError))
  {
  }

  lemma SubmitKeeps(w: World, p: nat, x: Entry)
    requires Inv(w) && Enabled(w, Submit(p, x))
    ensures Inv(Apply(w, Submit(p, x)))
  {
  }

  lemma HandOverKeepsFlags(w: World, p: nat)
    requires Inv(w) && Enabled(w, HandOver(p))
    ensures var v := Apply(w, HandOver(p));
      Flags(v.core) && Tasks(v) && ClosedOnce(v) && (FinishPath(v) <==> FinishPath(w))
    ensures FinishPath(w) && w.core.running ==> w.core.handoffClosed || w.poller.Failed?
    ensures w.core.draining || !w.core.running ==> w.core.handoffClosed
  {
    hide Fits, Conserved, ProducersHonest;
  }

  lemma HandOverKeeps(w: World, p: nat)
    requires Inv(w) && Enabled(w, HandOver(p))
    ensures Inv(Apply(w, HandOver(p)))
  {
    hide Take, PopReady, Push, Flags, Tasks, ClosedOnce;
    HandOverKeepsFlags(w, p);
    var me := Role(w, p);
    if me.session == w.session && !w.core.handoffClosed && !w.spoiled {
      assert w.accepted + [me.packet] == w.entered + (w.core.handoff + [me.packet]);
    }
  }

  lemma AnnounceKeeps(w: World, p: nat)
    requires Inv(w) && Enabled(w, Announce(p))
    ensures Inv(Apply(w, Announce(p)))
  {
  }

  lemma OpenKeeps(w: World, tracks: nat)
    requires Inv(w) && Enabled(w, Open(tracks))
    ensures Inv(Apply(w, Open(tracks)))
  {
  }

  lemma ForgetStopKeeps(w: World)
    requires Inv(w) && Enabled(w, ForgetStop)
    ensures Inv(Apply(w, ForgetStop))
  {
  }

  /** What the locked part of Process does to the packets it moves, and the little it changes besides. */
  lemma TakeMoves(c: Core)
    requires forall i :: 0 <= i < |c.handoff| ==> c.handoff[i].track < |c.interleaver.highest|
    requires |c.handoff| <= HANDOFF_CAPACITY && Take(c).1.Took?
    ensures var (after, taken) := Take(c);
            && c.handoff == taken.entered
            && multiset(c.interleaver.queue) + multiset(taken.entered) ==
                 multiset(taken.out) + multiset(after.interleaver.queue)
            && (c.draining ==> after.interleaver.queue == [])
  {
    hide Push, PopReady;
    var filed := if c.handoff == [] then Ok(c.interleaver) else Push(c.interleaver, c.handoff[0]);
    if c.handoff != [] {
      assert c.handoff == [c.handoff[0]];
      PushAdds(c.interleaver, c.handoff[0]);
    }
    PopSplits(filed.value, c.draining);
  }

  lemma TakeFrame(c: Core)
    requires forall i :: 0 <= i < |c.handoff| ==> c.handoff[i].track < |c.interleaver.highest|
    requires |c.handoff| <= HANDOFF_CAPACITY
    ensures var (after, taken) := Take(c);
            && after == c.(handoff := after.handoff, interleaver := after.interleaver, scheduled := after.scheduled)
            && |after.interleaver.highest| == |c.interleaver.highest|
            && (taken.Ignored? <==> !c.running || c.closing)
            && (taken.Ignored? ==> after == c.(scheduled := false))
            && (!taken.Ignored? ==> after.handoff == [])
            && after.scheduled == (c.scheduled && taken.Threw?)
            && (taken.Took? ==> taken.finish == c.draining)
  {
    hide Push, PopReady;
    var filed := if c.handoff == [] then Ok(c.interleaver) else Push(c.interleaver, c.handoff[0]);
    if filed.Ok? {
      if c.handoff != [] {
        PushAdds(c.interleaver, c.handoff[0]);
      }
      if PopReady(filed.value, c.draining).Ok? {
        PopSplits(filed.value, c.draining);
      }
    }
  }

  lemma MoveMultisets(entered: multiset<Entry>, more: multiset<Entry>, queue: multiset<Entry>,
                      out: multiset<Entry>, rest: multiset<Entry>, emitted: multiset<Entry>)
    requires entered == queue + emitted && queue + more == out + rest
    ensures entered + more == rest + (emitted + out)
  {
    assert entered + more == (queue + more) + emitted;
  }

  lemma TookKeepsConserved(w: World, after: Core, taken: Taken)
    requires w.poller.Ready? && w.core.running && !w.core.closing
    requires Conserved(w) && taken.Took?
    requires w.core.handoff == taken.entered && after.handoff == []
    requires multiset(w.core.interleaver.queue) + multiset(taken.entered)
          == multiset(taken.out) + multiset(after.interleaver.queue)
    requires taken.finish ==> after.interleaver.queue == []
    requires after.running && !after.closing
    ensures Conserved(w.(core := after, poller := Processing(taken.finish),
                         entered := w.entered + taken.entered, emitted := w.emitted + taken.out))
  {
    if !w.spoiled {
      var entered, emitted := w.entered + taken.entered, w.emitted + taken.out;
      assert w.accepted == entered + after.handoff;
      MoveMultisets(multiset(w.entered), multiset(taken.entered), multiset(w.core.interleaver.queue),
                    multiset(taken.out), multiset(after.interleaver.queue), multiset(w.emitted));
    }
  }

  lemma RunProcessKeeps(w: World)
    requires Inv(w) && w.poller.Ready? && w.core.tasks != [] && w.core.tasks[0].Process?
    ensures Inv(RunTask(w.(core := w.core.(tasks := w.core.tasks[1..])), Process))
  {
    hide Conserved, Take;
    var started := w.(core := w.core.(tasks := w.core.tasks[1..]));
    TakeFrame(started.core);
    assert w.core.running ==> w.core.closing || w.core.tasks == [Process];
    RunProcessKeepsConserved(w);
  }

  lemma RunProcessKeepsConserved(w: World)
    requires Fits(w) && Flags(w.core) && w.poller.Ready? && w.core.tasks != []
    requires Conserved(w)
    ensures Conserved(RunTask(w.(core := w.core.(tasks := w.core.tasks[1..])), Process))
  {
    hide Conserved, Take, Flags;
    assert |w.core.handoff| <= HANDOFF_CAPACITY by {
      BoundedHandoff(w.core);
    }
    var started := w.(core := w.core.(tasks := w.core.tasks[1..]));
    TakeFrame(started.core);
    var (after, taken) := Take(started.core);
    if taken.Took? {
      TakeMoves(started.core);
      ConservedIgnoresTasks(w, started);
      TookKeepsConserved(started, after, taken);
    } else {
      ConservedIgnoresTasks(w, started.(core := started.core.(scheduled := false)));
      SpoiledIsConserved(RunTask(started, Process));
    }
  }

  lemma BoundedHandoff(c: Core)
    requires Flags(c)
    ensures |c.handoff| <= HANDOFF_CAPACITY
  {
  }

  lemma ConservedIgnoresTasks(w: World, v: World)
    requires Conserved(w)
    requires v == w.(core := w.core.(tasks := v.core.tasks, scheduled := v.core.scheduled))
    ensures Conserved(v)
  {
  }

  lemma SpoiledIsConserved(w: World)
    ensures w.spoiled ==> Conserved(w)
  {
  }

  lemma RunOtherKeeps(w: World)
    requires Inv(w) && w.poller.Ready? && w.core.tasks != [] && !w.core.tasks[0].Process?
    ensures Inv(RunTask(w.(core := w.core.(tasks := w.core.tasks[1..])), w.core.tasks[0]))
  {
    assert w.core.tasks == [w.core.tasks[0]];
  }

  lemma ProcessingKeeps(w: World, throws: bool)
    requires Inv(w) && w.poller.Processing?
    ensures Inv(PollStep(w, throws))
  {
  }

  lemma FailedKeeps(w: World, throws: bool)
    requires Inv(w) && w.poller.Failed?
    ensures Inv(PollStep(w, throws))
  {
  }

  lemma FinishingKeeps(w: World, throws: bool)
    requires Inv(w) && (w.poller.Closing? || w.poller.Flushing?)
    ensures Inv(PollStep(w, throws))
  {
  }

  lemma PollKeeps(w: World, throws: bool)
    requires Inv(w) && Enabled(w, Poll(throws))
    ensures Inv(Apply(w, Poll(throws)))
  {
    hide Inv, RunTask;
    match w.poller
    case Ready =>
      if w.core.tasks[0].Process? {
        RunProcessKeeps(w);
      } else {
        RunOtherKeeps(w);
      }
    case Processing(_) => ProcessingKeeps(w, throws);
    case Failed => FailedKeeps(w, throws);
    case _ => FinishingKeeps(w, throws);
  }

  // ----- every interleaving

  const NEW := World(IDLE, 0, map[], Ready, [], [], [], false, 0, [], [])

  lemma ApplyKeeps(w: World, a: Action)
    requires Inv(w) && Enabled(w, a)
    ensures Inv(Apply(w, a))
  {
    hide Inv;
    match a
    case Submit(p, x) => SubmitKeeps(w, p, x);
    case HandOver(p) => HandOverKeeps(w, p);
    case Announce(p) => AnnounceKeeps(w, p);
    case RequestDrain => DrainKeeps(w);
    case OutputError => ErrorKeeps(w);
    case Open(tracks) => OpenKeeps(w, tracks);
    case ForgetStop => ForgetStopKeeps(w);
    case Poll(throws) => PollKeeps(w, throws);
  }

  /** A step that is not enabled does not happen. */
  ghost function Step(w: World, a: Action): (r: World)
    requires Inv(w)
    ensures Inv(r)
  {
    if Enabled(w, a) then ApplyKeeps(w, a); Apply(w, a) else w
  }

  ghost function Play(w: World, actions: seq<Action>): World
    requires Inv(w)
    decreases actions
  {
    if actions == [] then w else Play(Step(w, actions[0]), actions[1..])
  }

  lemma {:induction false} PlayKeeps(w: World, actions: seq<Action>)
    requires Inv(w)
    ensures Inv(Play(w, actions))
    decreases actions
  {
    hide Inv;
    if actions != [] {
      PlayKeeps(Step(w, actions[0]), actions[1..]);
    }
  }

  lemma NewHolds()
    ensures Inv(NEW)
  {
  }

  ghost function AnyRun(actions: seq<Action>): World {
    NewHolds();
    Play(NEW, actions)
  }

  lemma EveryRunKeeps(actions: seq<Action>)
    ensures Inv(AnyRun(actions))
  {
    NewHolds();
    PlayKeeps(NEW, actions);
  }

  /**
   * Unless processing failed: packets enter the interleaver once each, in the order they were accepted, every accepted
   * packet is in exactly one place, and all of them have been emitted when Finish runs.
   */
  lemma AcceptedPacketsAreEmittedBeforeFinish(actions: seq<Action>)
    requires !AnyRun(actions).spoiled
    ensures var w := AnyRun(actions);
            && w.accepted == w.entered + w.core.handoff
            && (w.core.running ==>
                  multiset(w.accepted) ==
                    multiset(w.core.handoff) + multiset(w.core.interleaver.queue) + multiset(w.emitted))
            && (w.core.tasks != [] && w.core.tasks[0] == Finish ==>
                  multiset(w.emitted) == multiset(w.accepted) && w.core.handoff == [] && w.core.interleaver.queue == [])
            && (!w.core.running ==> multiset(w.emitted) == multiset(w.accepted))
  {
    EveryRunKeeps(actions);
    var w := AnyRun(actions);
    assert multiset(w.accepted) == multiset(w.entered) + multiset(w.core.handoff);
  }

  /**
   * Each session enters its finish path at most once, exactly once by the time it has stopped; a Process task queued
   * behind it does nothing.
   */
  lemma SessionClosesOnce(actions: seq<Action>)
    ensures var w := AnyRun(actions);
            && Inv(w) && w.closings <= 1
            && (!w.core.running && w.session > 0 ==> w.closings == 1)
            && (w.core.running && w.core.closing && w.poller.Ready? && w.core.tasks[..1] == [Process] ==>
                  forall throws :: Apply(w, Poll(throws))
                    == w.(core := w.core.(scheduled := false, tasks := w.core.tasks[1..])))
  {
    EveryRunKeeps(actions);
  }

  // ----- what producers are told

  ghost function RecordOf(w: World, session: nat): Record
    requires session <= w.session == |w.past|
  {
    if session == w.session then Record(w.accepted, w.emitted, w.spoiled) else w.past[session]
  }

  ghost predicate AcceptedIn(w: World, x: Entry, session: nat)
    requires w.session == |w.past|
  {
    session <= w.session && x in RecordOf(w, session).accepted
  }

  ghost predicate Recorded(w: World) {
    && w.session == |w.past|
    && (forall n :: 0 <= n < |w.past| && !w.past[n].spoiled ==>
          multiset(w.past[n].emitted) == multiset(w.past[n].accepted))
    && (forall p :: p in w.producers && w.producers[p].Admitted? ==>
          AcceptedIn(w, w.producers[p].packet, w.producers[p].session))
    && (forall k :: 0 <= k < |w.answered| ==> AcceptedIn(w, w.answered[k].0, w.answered[k].1))
  }

  /** The poller touches neither the producers nor what was accepted. */
  lemma PollLeavesRecords(w: World, throws: bool)
    requires Inv(w) && Enabled(w, Poll(throws))
    ensures var v := Apply(w, Poll(throws));
            && v.producers == w.producers && v.accepted == w.accepted && v.session == w.session
            && v.past == w.past && v.answered == w.answered
  {
    hide Inv, Take;
  }

  lemma AcceptedStays(w: World, v: World)
    requires w.session == |w.past| && v.session == |v.past|
    requires v.session == w.session && v.past == w.past && w.accepted <= v.accepted
    ensures forall x, n :: AcceptedIn(w, x, n) ==> AcceptedIn(v, x, n)
  {
  }

  lemma OpenArchives(w: World, tracks: nat)
    requires Inv(w) && Recorded(w) && Enabled(w, Open(tracks))
    ensures Recorded(Apply(w, Open(tracks)))
  {
    hide Fits, Flags, Tasks, ClosedOnce, ProducersHonest;
    var v := Apply(w, Open(tracks));
    assert !w.spoiled ==> multiset(w.emitted) == multiset(w.accepted);
    forall x, n | AcceptedIn(w, x, n)
      ensures AcceptedIn(v, x, n)
    {
      assert RecordOf(v, n) == RecordOf(w, n);
    }
  }

  lemma ApplyRecords(w: World, a: Action)
    requires Inv(w) && Recorded(w) && Enabled(w, a)
    ensures Recorded(Apply(w, a))
  {
    hide Inv, Take;
    var v := Apply(w, a);
    match a
    case Open(tracks) => OpenArchives(w, tracks);
    case Poll(throws) =>
      PollLeavesRecords(w, throws);
      AcceptedStays(w, v);
    case HandOver(p) =>
      AcceptedStays(w, v);
      assert v.accepted == w.accepted || v.accepted[|w.accepted|] == Role(w, p).packet;
    case _ => AcceptedStays(w, v);
  }

  lemma {:induction false} PlayRecords(w: World, actions: seq<Action>)
    requires Inv(w) && Recorded(w)
    ensures Recorded(Play(w, actions))
    decreases actions
  {
    hide Inv, Recorded, Apply, Enabled;
    if actions != [] {
      if Enabled(w, actions[0]) {
        ApplyRecords(w, actions[0]);
      }
      PlayRecords(Step(w, actions[0]), actions[1..]);
    }
  }

  /**
   * Whenever a producer answers true, its own session accepted the packet, and has emitted it once that session has
   * stopped without a failure of processing.
   */
  lemma TrueMeansAccepted(actions: seq<Action>, k: nat)
    requires k < |AnyRun(actions).answered|
    ensures var w := AnyRun(actions);
            var (packet, session) := w.answered[k];
            && session <= w.session == |w.past|
            && packet in RecordOf(w, session).accepted
            && ((session < w.session || !w.core.running) && !RecordOf(w, session).spoiled ==>
                  packet in RecordOf(w, session).emitted)
  {
    NewHolds();
    EveryRunKeeps(actions);
    PlayRecords(NEW, actions);
    var w := AnyRun(actions);
    var (packet, session) := w.answered[k];
    var record := RecordOf(w, session);
    assert AcceptedIn(w, packet, session);
    if (session < w.session || !w.core.running) && !record.spoiled {
      assert multiset(record.emitted) == multiset(record.accepted);
      assert packet in multiset(record.accepted);
    }
  }

  // ----- no packet is left in the slot unattended

  ghost predicate Attended(w: World) {
    w.core.running && !w.core.closing && w.core.handoff != [] ==>
      || w.core.tasks == [Process] || w.poller.Failed? || w.poller.Closing?
      || exists p :: p in w.producers && w.producers[p].Admitted? && w.producers[p].session == w.session
  }

  lemma OthersStayAdmitted(w: World, p: nat, role: Producer)
    ensures forall q :: q in w.producers && q != p && w.producers[q].Admitted? ==>
      q in w.producers[p := role] && w.producers[p := role][q] == w.producers[q]
  {
  }

  lemma StepKeepsAttended(w: World, a: Action)
    requires Inv(w) && Attended(w) && Enabled(w, a)
    ensures Attended(Apply(w, a))
  {
    hide Conserved, PopReady, Push, Take;
    match a
    case HandOver(p) =>
      assert p in Apply(w, a).producers;
      OthersStayAdmitted(w, p, Apply(w, a).producers[p]);
    case Submit(p, x) =>
      OthersStayAdmitted(w, p, Waiting(x, w.session));
    case Announce(p) =>
      OthersStayAdmitted(w, p, Idle);
      var mine := Role(w, p).session == w.session && w.core.running;
      if mine && !w.core.closing {
        assert Apply(w, a).core.scheduled;
      }
    case Poll(_) =>
      TakeFrame(w.core.(tasks := if w.core.tasks == [] then [] else w.core.tasks[1..]));
    case _ =>
  }

  lemma {:induction false} SlotIsAttended(w: World, actions: seq<Action>)
    requires Inv(w) && Attended(w)
    ensures Attended(Play(w, actions))
    decreases actions
  {
    if actions != [] {
      if Enabled(w, actions[0]) {
        StepKeepsAttended(w, actions[0]);
      }
      SlotIsAttended(Step(w, actions[0]), actions[1..]);
    }
  }

  /**
   * In every interleaving, a packet in the handoff slot has a task coming for it, a producer about to schedule one, or
   * a closing session.
   */
  lemma NoPacketIsStranded(actions: seq<Action>)
    ensures Attended(AnyRun(actions))
  {
    NewHolds();
    SlotIsAttended(NEW, actions);
  }

  // ----- a draining session stops

  ghost function Rank(w: World): nat {
    if !w.core.running then 0
    else if w.core.closing then
      if w.poller.Flushing? then 4 else |w.core.tasks| + if Finish in w.core.tasks then 1 else 0
    else
      match w.poller
      case Flushing => 4
      case Closing => 5
      case Failed => 6
      case Processing(finish) => if finish then 7 else 9
      case Ready => 8
  }

  ghost predicate Stopping(w: World) {
    w.core.running && w.core.draining
  }

  lemma PollAdvances(w: World, throws: bool)
    requires Inv(w) && Stopping(w)
    ensures Enabled(w, Poll(throws))
    ensures var after := Apply(w, Poll(throws)); Rank(after) < Rank(w) <= 9 && (after.core.running ==> Stopping(after))
  {
    hide Conserved, PopReady, Push, Take;
    if w.poller.Ready? {
      TakeFrame(w.core.(tasks := w.core.tasks[1..]));
    }
  }

  lemma OthersDoNotDelay(w: World, a: Action)
    requires Inv(w) && Stopping(w) && Enabled(w, a) && !a.Poll?
    ensures Rank(Apply(w, a)) <= Rank(w) && Stopping(Apply(w, a))
  {
    hide Conserved;
  }

  function Polls(actions: seq<Action>): nat {
    if actions == [] then 0 else (if actions[0].Poll? then 1 else 0) + Polls(actions[1..])
  }

  lemma StepTowardsStop(w: World, a: Action)
    requires Inv(w) && Stopping(w)
    ensures 0 < Rank(w) <= 9
    ensures var next := Step(w, a);
            next.core.running ==> Stopping(next) && Rank(next) <= Rank(w) - if a.Poll? then 1 else 0
  {
    hide Inv, Stopping, Rank, Apply, Enabled;
    PollAdvances(w, false);
    if a.Poll? {
      PollAdvances(w, a.throws);
    } else if Enabled(w, a) {
      OthersDoNotDelay(w, a);
    }
  }

  /**
   * Once draining, the session has stopped after at most nine steps of the poller, whatever other threads do in
   * between.
   */
  lemma {:induction false} DrainingSessionStops(w: World, actions: seq<Action>)
    requires Inv(w) && Stopping(w) && Polls(actions) >= Rank(w)
    ensures Rank(w) <= 9
    ensures exists k :: 0 <= k <= |actions| && !Play(w, actions[..k]).core.running
    decreases actions
  {
    hide Inv, Stopping, Rank, Apply, Enabled;
    PollAdvances(w, false);
    var next := Step(w, actions[0]);
    StepTowardsStop(w, actions[0]);
    if !next.core.running {
      assert actions[..1] == [actions[0]] && [actions[0]][1..] == [];
      assert Play(w, actions[..1]) == Play(next, []);
    } else {
      DrainingSessionStops(next, actions[1..]);
      var k :| 0 <= k <= |actions[1..]| && !Play(next, actions[1..][..k]).core.running;
      assert actions[..k + 1][1..] == actions[1..][..k];
      assert Play(w, actions[..k + 1]) == Play(next, actions[1..][..k]);
    }
  }

  /** A request to drain, and an output's first error, set a running session draining. */
  lemma DrainIsHeard(w: World, a: Action)
    requires Inv(w) && w.core.running && (a.RequestDrain? || a.OutputError?)
    ensures Stopping(Step(w, a)) && !Step(w, a).core.accepting && Step(w, a).core.handoffClosed
  {
    hide Conserved, Fits, Tasks, ProducersHonest, ClosedOnce;
  }

  /**
   * Whenever a running session is asked to drain, or one of its outputs fails, it has stopped after at most nine
   * further steps of the poller.
   */
  lemma DrainedSessionStops(w: World, a: Action, actions: seq<Action>)
    requires Inv(w) && w.core.running && (a.RequestDrain? || a.OutputError?) && Polls(actions) >= 9
    ensures exists k :: 0 <= k <= |actions| && !Play(Step(w, a), actions[..k]).core.running
  {
    hide Inv, Stopping, Rank, Apply, Enabled;
    DrainIsHeard(w, a);
    PollAdvances(Step(w, a), false);
    DrainingSessionStops(Step(w, a), actions);
  }

  // ----- a session admits until it drains

  ghost predicate AdmitsUntilDrained(w: World) {
    w.core.running && !w.core.draining ==> w.core.accepting && !w.core.handoffClosed && !w.core.closing
  }

  /** Admission and draining go on as they were, or the session has ended. */
  ghost predicate SameGates(c: Core, v: Core) {
    v.running ==>
      && c.running && v.accepting == c.accepting && v.handoffClosed == c.handoffClosed
      && v.closing == c.closing && v.draining == c.draining
  }

  lemma TakeLeavesGates(c: Core)
    requires forall i :: 0 <= i < |c.handoff| ==> c.handoff[i].track < |c.interleaver.highest|
    ensures SameGates(c, Take(c).0)
  {
    hide PopReady, Push;
  }

  lemma TaskLeavesGates(w: World, task: Task)
    requires Fits(w)
    ensures SameGates(w.core, RunTask(w, task).core)
  {
    TakeLeavesGates(w.core);
    hide Take, Fits;
  }

  lemma ClosingWasDrained(w: World)
    requires Inv(w)
    ensures w.poller.Closing? && w.core.running ==> w.core.draining || w.core.closing
  {
    hide Fits, Conserved, ProducersHonest, ClosedOnce, Flags;
  }

  lemma PollAdmits(w: World, throws: bool)
    requires Inv(w) && AdmitsUntilDrained(w) && Enabled(w, Poll(throws))
    ensures AdmitsUntilDrained(PollStep(w, throws))
    ensures var c := PollStep(w, throws).core;
            w.core.running && c.running && c.draining ==> w.core.draining || w.poller.Failed?
  {
    ClosingWasDrained(w);
    if w.poller.Ready? {
      TaskLeavesGates(w.(core := w.core.(tasks := w.core.tasks[1..])), w.core.tasks[0]);
    }
    hide Inv, RunTask;
  }

  /** A step sets a session draining only if it is asked to, an output fails, or processing has failed. */
  lemma DrainsForCause(w: World, a: Action)
    requires Inv(w) && AdmitsUntilDrained(w)
    ensures var v := Step(w, a);
            && AdmitsUntilDrained(v)
            && (v.core.running && v.core.draining && v.session == w.session ==>
                  w.core.draining || a.RequestDrain? || a.OutputError? || (a.Poll? && w.poller.Failed?))
  {
    if a.Poll? && Enabled(w, a) {
      PollAdmits(w, a.throws);
      hide Inv, Apply;
    } else {
      hide Inv, PollStep;
    }
  }

  lemma {:induction false} PlayAdmits(w: World, actions: seq<Action>)
    requires Inv(w) && AdmitsUntilDrained(w)
    ensures AdmitsUntilDrained(Play(w, actions))
    decreases actions
  {
    hide Inv, AdmitsUntilDrained, Step;
    if actions != [] {
      DrainsForCause(w, actions[0]);
      PlayAdmits(Step(w, actions[0]), actions[1..]);
    }
  }

  /** In every interleaving a running session that does not drain admits packets, and its handoff takes them. */
  lemma RunningSessionAdmits(actions: seq<Action>)
    ensures var c := AnyRun(actions).core;
            c.running && !c.draining ==> c.accepting && !c.handoffClosed && !c.closing
  {
    NewHolds();
    PlayAdmits(NEW, actions);
  }
}
