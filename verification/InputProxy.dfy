/**
 * Reconnecting input: a control thread replaces connections while a single reader takes packets and acknowledges ends.
 */
module InputProxy {
  import opened Results

  /** A connection is named by a number; its description carries the same number. */
  type Id = int

  datatype InputState = Opening | Opened | Ended | Failed | Cancelled | Closed

  /** One AvInput: its state, its packet queue, and everything it has read from the source. */
  datatype Connection = Connection(state: InputState, cancelled: bool, buffered: seq<nat>, produced: seq<nat>)

  datatype Terminal = AtEnd | Broken | Aborted

  datatype Phase = Connecting | Connected | WaitingRetry | ProxyEnded | ProxyFailed | Stopped

  /** Where the control thread is. */
  datatype Control =
    | Top
    | Create
    | Announce(follow: Control)
    | Open
    | Offer
    | Await
    | Withdraw(cause: Option<Terminal>)
    | Shut(cause: Option<Terminal>)
    | Forget(cause: Option<Terminal>)
    | Decide(cause: Option<Terminal>)
    | Backoff
    | Over

  datatype Item = Packet(info: Id, content: nat) | Eof(info: Id)

  /** Where the reader is inside ReadPacket; the description is captured together with the input. */
  datatype Reader =
    | Outside
    | Inside(input: Id, info: Id)
    | Popped(input: Id, info: Id, content: nat)
    | AtEof(input: Id, info: Id)
    | Missed(input: Id)

  datatype Proxy = Proxy(
    loops: bool, maxRetries: int,
    stopping: bool, available: bool, stateChanged: bool, phase: Phase, info: Option<Id>,
    terminal: Option<Terminal>, input: Option<Id>, control: Control, retries: nat,
    connections: map<Id, Connection>, next: Id,
    reader: Reader, returned: seq<Item>)

  function Begin(loops: bool, maxRetries: int): Proxy {
    Proxy(loops, maxRetries, false, false, false, Connecting, None, None, None, Top, 0, map[], 0, Outside, [])
  }

  // ----- the control thread

  function Published(p: Proxy, phase: Phase, follow: Control): Proxy {
    p.(phase := phase, control := Announce(follow))
  }

  /**
   * One step of the control thread; `connected` is the outcome of opening a connection. Three steps join locked regions
   * of the source that follow one another: a new input is created and announced as connecting in one, an opened one is
   * described and announced as connected in one, and cancelling, closing and discarding an input is one.
   */
  function ControlStep(p: Proxy, connected: bool): (v: Proxy)
    requires Controllable(p)
    ensures v.loops == p.loops && v.maxRetries == p.maxRetries && v.returned == p.returned
  {
    match p.control
    case Top =>
      if p.stopping then Published(p, Stopped, Over) else p.(control := Create)
    case Create =>
      Published(
        p.(connections := p.connections[p.next := Connection(Opening, false, [], [])],
           input := Some(p.next), next := p.next + 1, info := None, terminal := None),
        Connecting, Open)
    case Announce(follow) => p.(stateChanged := true, control := follow)
    case Open =>
      var k := p.input.value;
      if p.stopping then p.(control := Withdraw(None))
      else if !connected then
        p.(connections := p.connections[k := p.connections[k].(state := Failed)], control := Withdraw(Some(Broken)))
      else
        Published(p.(connections := p.connections[k := p.connections[k].(state := Opened)], info := Some(k),
          retries := 0),
                  Connected, Offer)
    case Offer => p.(available := !p.stopping, control := Await)
    case Await => p.(control := Withdraw(if p.stopping then None else p.terminal))
    case Withdraw(cause) => p.(available := false, control := Shut(cause))
    case Shut(cause) =>
      var k := p.input.value;
      p.(connections := p.connections[k := p.connections[k].(state := Closed, cancelled := true, buffered := [])],
         control := Forget(cause))
    case Forget(cause) => p.(input := None, control := Decide(cause))
    case Decide(cause) =>
      if p.stopping || cause.None? then Published(p, Stopped, Over)
      else
        (match cause.value
         case AtEnd => if p.loops then p.(control := Top) else Published(p, ProxyEnded, Over)
         case Broken =>
           if p.maxRetries >= 0 && p.retries >= p.maxRetries then Published(p, ProxyFailed, Over)
           else Published(p.(retries := p.retries + 1), WaitingRetry, Backoff)
         case Aborted => Published(p, Stopped, Over))
    case Backoff => if p.stopping then Published(p, Stopped, Over) else p.(control := Top)
    case Over => p
  }

  predicate Controllable(p: Proxy) {
    && (p.control.Open? || p.control.Shut? ==> p.input.Some? && p.input.value in p.connections)
    && (p.control.Await? ==> p.stopping || p.terminal.Some?)
  }

  // ----- connections

  datatype InputEvent = Produces(content: nat) | ReachesEnd | Breaks | Aborts | Cancels

  predicate InputMay(p: Proxy, k: Id, e: InputEvent) {
    k in p.connections &&
    var c := p.connections[k];
    match e
    case Produces(_) => c.state.Opened? && !c.cancelled
    // The end is announced only once the reader has emptied the queue.
    case ReachesEnd => c.state.Opened? && c.buffered == []
    case Breaks => c.state.Opened?
    case Aborts => c.state.Opened? && c.cancelled
    case Cancels => p.stopping
  }

  function InputStep(p: Proxy, k: Id, e: InputEvent): (v: Proxy)
    requires InputMay(p, k, e)
    ensures v.loops == p.loops && v.maxRetries == p.maxRetries && v.returned == p.returned
  {
    var c := p.connections[k];
    var after :=
      match e
      case Produces(x) => c.(buffered := c.buffered + [x], produced := c.produced + [x])
      case ReachesEnd => c.(state := Ended)
      case Breaks => c.(state := Failed)
      case Aborts => c.(state := Cancelled)
      case Cancels => c.(cancelled := true);
    p.(connections := p.connections[k := after])
  }

  /** The notification of a connection that broke or was aborted; an end is left for the reader to acknowledge. */
  function InputChanged(p: Proxy, k: Id, state: InputState): (v: Proxy)
    ensures v.loops == p.loops && v.maxRetries == p.maxRetries && v.returned == p.returned
  {
    if p.input != Some(k) || p.terminal.Some? then p
    else if state.Failed? then p.(terminal := Some(Broken))
    else if state.Cancelled? then p.(terminal := Some(Aborted))
    else p
  }

  // ----- the reader

  predicate TerminalPhase(phase: Phase) {
    phase.Stopped? || phase.ProxyEnded? || phase.ProxyFailed?
  }

  predicate EndKnown(p: Proxy) {
    p.phase.ProxyEnded? || (!p.loops && p.terminal == Some(AtEnd))
  }

  predicate Readable(p: Proxy) {
    p.stopping || p.available || TerminalPhase(p.phase) || p.stateChanged || EndKnown(p)
  }

  /** What a read call answers: nothing, an item, or it is still going on. */
  datatype Answer = Nothing | Answered(item: Item) | Pending

  function Enter(p: Proxy): (Proxy, Answer)
    requires p.reader.Outside? && Readable(p)
    requires p.available || EndKnown(p) ==> p.info.Some?
    requires p.available ==> p.input.Some?
  {
    if p.stateChanged then (p.(stateChanged := false), Nothing)
    else if p.stopping || p.phase.Stopped? || p.phase.ProxyFailed? then (p, Nothing)
    else if EndKnown(p) then (p.(returned := p.returned + [Eof(p.info.value)]), Answered(Eof(p.info.value)))
    else if !p.available then (p, Nothing)
    else (p.(reader := Inside(p.input.value, p.info.value)), Pending)
  }

  predicate QueueClosed(c: Connection) {
    c.cancelled || c.state.Ended? || c.state.Failed? || c.state.Cancelled? || c.state.Closed?
  }

  /** The blocking pop of the captured input: an item, or the reason there is none. */
  function PopInput(p: Proxy): (v: Proxy)
    requires p.reader.Inside? && p.reader.input in p.connections
    requires p.connections[p.reader.input].buffered != [] || QueueClosed(p.connections[p.reader.input])
    ensures v.loops == p.loops && v.maxRetries == p.maxRetries && v.returned == p.returned
  {
    var k, c := p.reader.input, p.connections[p.reader.input];
    if c.cancelled then p.(reader := Missed(k))
    else if c.buffered != [] then
      p.(connections := p.connections[k := c.(buffered := c.buffered[1..])],
        reader := Popped(k, p.reader.info, c.buffered[0]))
    else if c.state.Ended? then p.(reader := AtEof(k, p.reader.info))
    else p.(reader := Missed(k))
  }

  /** A popped packet is given up when its input was cancelled meanwhile. */
  function ReturnPacket(p: Proxy): (Proxy, Answer)
    requires p.reader.Popped? && p.reader.input in p.connections
  {
    var k, c := p.reader.input, p.connections[p.reader.input];
    if c.cancelled || c.state.Closed? || c.state.Cancelled? then (p.(reader := Missed(k)), Pending)
    else
      var item := Packet(p.reader.info, p.reader.content);
      (p.(reader := Outside, returned := p.returned + [item]), Answered(item))
  }

  /** The reader acknowledges the end of the very input it read. */
  function AcknowledgeEof(p: Proxy): (Proxy, Answer)
    requires p.reader.AtEof?
  {
    var mine := !p.stopping && p.input == Some(p.reader.input) && p.terminal.None?;
    var item := Eof(p.reader.info);
    (p.(terminal := if mine then Some(AtEnd) else p.terminal,
        available := if mine && p.loops then false else p.available,
        reader := Outside, returned := p.returned + [item]),
     Answered(item))
  }

  predicate Changed(p: Proxy)
    requires p.reader.Missed?
  {
    p.stopping || TerminalPhase(p.phase) || p.stateChanged || (p.available && p.input != Some(p.reader.input))
  }

  // ----- steps

  datatype Action =
    | Steer(connected: bool)
    | Source(input: Id, event: InputEvent)
    | Inform(input: Id)
    | Read
    | Pop
    | GiveBack
    | Acknowledge
    | Retry
    | Stop

  ghost predicate Enabled(p: Proxy, a: Action) {
    match a
    case Steer(_) => Controllable(p)
    case Source(k, e) => InputMay(p, k, e)
    case Inform(k) => k in p.connections
    case Read => p.reader.Outside? && Readable(p)
    case Pop =>
      && p.reader.Inside? && p.reader.input in p.connections
      && (p.connections[p.reader.input].buffered != [] || QueueClosed(p.connections[p.reader.input]))
    case GiveBack => p.reader.Popped?
    case Acknowledge => p.reader.AtEof?
    case Retry => p.reader.Missed? && Changed(p)
    case Stop => true
  }

  ghost function Apply(p: Proxy, a: Action): (Proxy, Answer)
    requires Inv(p) && Enabled(p, a)
  {
    match a
    case Steer(connected) => (ControlStep(p, connected), Pending)
    case Source(k, e) => (InputStep(p, k, e), Pending)
    case Inform(k) => (InputChanged(p, k, p.connections[k].state), Pending)
    case Read => Enter(p)
    case Pop => (PopInput(p), Pending)
    case GiveBack => ReturnPacket(p)
    case Acknowledge => AcknowledgeEof(p)
    case Retry => (p.(reader := Outside), Pending)
    case Stop => (p.(stopping := true), Pending)
  }

  // ----- the order of what is returned

  /**
   * Packets and ends come connection by connection; nothing of a connection but ends follows its end, and in loop mode
   * nothing at all.
   */
  ghost predicate Ordered(items: seq<Item>, loops: bool) {
    forall i, j :: 0 <= i < j < |items| ==> Precedes(items[i], items[j], loops)
  }

  ghost predicate Precedes(x: Item, y: Item, loops: bool) {
    && x.info <= y.info
    && (x.Eof? && x.info == y.info ==> y.Eof? && !loops)
  }

  ghost function PacketsOf(items: seq<Item>, k: Id): seq<nat> {
    if items == [] then []
    else
      var last := items[|items| - 1];
      PacketsOf(items[..|items| - 1], k) + if last.Packet? && last.info == k then [last.content] else []
  }

  ghost predicate ReaderOn(p: Proxy, k: Id) {
    (p.reader.Inside? || p.reader.Popped? || p.reader.AtEof?) && p.reader.input == k
  }

  // ----- the joint invariant

  /** A stage the control thread has reached, whether or not it has announced it yet. */
  function Stage(p: Proxy): Control {
    if p.control.Announce? then p.control.follow else p.control
  }

  ghost predicate Holding(c: Control) {
    c.Open? || c.Offer? || c.Await? || c.Withdraw? || c.Shut? || c.Forget?
  }

  /** Connections are numbered in order, and the current one is the newest. */
  ghost predicate Numbered(p: Proxy) {
    && (forall k :: k in p.connections ==> k < p.next)
    && (p.input.Some? ==> p.input.value in p.connections && p.input.value == p.next - 1)
    && (p.info.Some? ==> p.info.value == p.next - 1)
    && (Holding(Stage(p)) ==> p.input.Some?)
    && (p.control.Announce? ==> Stage(p).Open? || Stage(p).Offer? || Stage(p).Backoff? || Stage(p).Over?)
    && (forall i :: 0 <= i < |p.returned| ==> p.returned[i].info < p.next)
  }

  ghost predicate EndReturned(p: Proxy, k: Id) {
    Eof(k) in p.returned
  }

  /** The reader is only offered the current, opened connection, and a connection not yet offered is unread. */
  ghost predicate Offered(p: Proxy) {
    && (p.available ==> p.input.Some? && p.info == p.input && (p.control.Await? || p.control.Withdraw?))
    && (Stage(p).Offer? ==> p.info == p.input)
    && (Stage(p).Open? || Stage(p).Offer? ==>
          !EndReturned(p, p.next - 1) && !ReaderOn(p, p.next - 1) && p.terminal != Some(AtEnd))
    && (p.phase.ProxyEnded? ==> !p.loops && p.terminal == Some(AtEnd) && Stage(p).Over?)
  }

  /** Why the control thread gives up a connection: it was told, it is stopping, or the connection never opened. */
  ghost predicate Justified(p: Proxy)
    requires Numbered(p)
  {
    && (p.control.Withdraw? || p.control.Shut? || p.control.Forget? || p.control.Decide? ==>
          if p.control.cause.None? then p.stopping
          else p.control.cause == p.terminal || (p.control.cause == Some(Broken) && p.info.None?))
    && (Stage(p).Open? ==> p.info.None? && p.connections[p.input.value].state.Opening?)
    && (p.input.Some? && p.terminal == Some(Broken) ==>
          p.connections[p.input.value].state.Failed? || p.connections[p.input.value].state.Closed?)
    && (p.input.Some? && p.terminal == Some(Aborted) ==>
          p.connections[p.input.value].state.Cancelled? || p.connections[p.input.value].state.Closed?)
  }

  /** Once its end has been returned a connection is never offered again, and without looping nothing is. */
  ghost predicate EndsKept(p: Proxy) {
    && (p.terminal == Some(AtEnd) ==> p.info.Some? && EndReturned(p, p.info.value))
    && (!p.stopping && p.info.Some? && EndReturned(p, p.info.value) ==>
          p.terminal == Some(AtEnd) && (p.loops ==> !p.available))
    && (!p.loops && !p.stopping && (exists k :: EndReturned(p, k)) ==>
          p.terminal == Some(AtEnd)
          && (p.control.Await? || p.control.Withdraw? || p.control.Shut? || p.control.Forget? || p.control.Decide? ||
                Stage(p).Over?))
  }

  ghost predicate ReaderWithin(p: Proxy, k: Id, info: Id) {
    && info == k && k in p.connections && !EndReturned(p, k)
    && (k == p.next - 1 ==> p.info == Some(k))
    && (forall i :: 0 <= i < |p.returned| ==> p.returned[i].info <= k)
    && (!p.stopping && !p.connections[k].cancelled ==>
          p.input == Some(k) && (p.control.Await? || p.control.Withdraw? || p.control.Shut?))
  }

  ghost predicate ReaderHolds(p: Proxy) {
    match p.reader
    case Inside(k, info) => ReaderWithin(p, k, info)
    case Popped(k, info, _) => ReaderWithin(p, k, info)
    case AtEof(k, info) =>
      && ReaderWithin(p, k, info)
      && PacketsOf(p.returned, k) == p.connections[k].produced
      && (p.connections[k].state.Ended? || p.connections[k].state.Closed?)
      && (!p.stopping ==> p.input == Some(k) && p.terminal.None? && p.control.Await?)
    case _ => true
  }

  /** While a connection is not cancelled none of its packets is lost; an end is returned only after all of them. */
  ghost predicate PacketsKept(p: Proxy) {
    && (forall k :: k in p.connections ==> ConnectionKept(p, k))
    && (forall k :: EndReturned(p, k) ==> k in p.connections)
  }

  ghost predicate ConnectionKept(p: Proxy, k: Id)
    requires k in p.connections
  {
    var c := p.connections[k];
    && (!c.cancelled ==>
          c.produced == PacketsOf(p.returned, k)
            + (if p.reader.Popped? && p.reader.input == k then [p.reader.content] else []) + c.buffered)
    && (c.state.Ended? ==> c.buffered == [])
    && (c.state.Closed? || c.state.Cancelled? ==> c.cancelled)
    && (EndReturned(p, k) ==> PacketsOf(p.returned, k) == c.produced && (c.state.Ended? || c.state.Closed?))
  }

  ghost predicate Inv(p: Proxy) {
    && Numbered(p) && Offered(p) && Justified(p) && EndsKept(p) && ReaderHolds(p) && PacketsKept(p)
    && Ordered(p.returned, p.loops)
    && (p.maxRetries >= 0 ==> p.retries <= p.maxRetries)
  }

  // ----- every step keeps it

  lemma ControlKeeps(p: Proxy, connected: bool)
    requires Inv(p) && Controllable(p)
    ensures Inv(ControlStep(p, connected))
  {
    hide Inv, ControlStep;
    match p.control
    case Create => CreateKeeps(p, connected);
    case Open => OpenKeeps(p, connected);
    case Shut(_) => ShutKeeps(p, connected);
    case Announce(_) => AnnounceKeeps(p, connected);
    case Offer => OfferKeeps(p, connected);
    case Await => OfferKeeps(p, connected);
    case Withdraw(_) => OfferKeeps(p, connected);
    case Forget(_) => ForgetKeeps(p, connected);
    case Decide(_) => DecideKeeps(p, connected);
    case _ => LoopTopKeeps(p, connected);
  }

  lemma CreateKeeps(p: Proxy, connected: bool)
    requires Inv(p) && p.control.Create?
    ensures Inv(ControlStep(p, connected))
  {
    hide Ordered, PacketsOf, EndReturned;
    var v := ControlStep(p, connected);
    SameReturned(p, v);
    assert !EndReturned(p, p.next);
    NoneOf(p.returned, p.next);
    forall k | k in v.connections
      ensures ConnectionKept(v, k)
    {
      assert k in p.connections ==> ConnectionKept(p, k);
    }
  }

  lemma OpenKeeps(p: Proxy, connected: bool)
    requires Inv(p) && p.control.Open? && Controllable(p)
    ensures Inv(ControlStep(p, connected))
  {
    hide Ordered, PacketsOf, EndReturned;
    var v := ControlStep(p, connected);
    SameReturned(p, v);
    forall k | k in v.connections
      ensures ConnectionKept(v, k)
    {
      assert ConnectionKept(p, k);
    }
  }

  lemma ShutKeeps(p: Proxy, connected: bool)
    requires Inv(p) && p.control.Shut? && Controllable(p)
    ensures Inv(ControlStep(p, connected))
  {
    hide Ordered, PacketsOf, EndReturned;
    var v := ControlStep(p, connected);
    SameReturned(p, v);
    forall k | k in v.connections
      ensures ConnectionKept(v, k)
    {
      assert ConnectionKept(p, k);
    }
  }

  lemma AnnounceKeeps(p: Proxy, connected: bool)
    requires Inv(p) && p.control.Announce?
    ensures Inv(ControlStep(p, connected))
  {
    hide Ordered, PacketsOf, EndReturned, ConnectionKept;
    var v := ControlStep(p, connected);
    SameReturned(p, v);
    SamePackets(p, v);
  }

  /** Offering, waiting and withdrawing: the connection itself is not touched. */
  lemma OfferKeeps(p: Proxy, connected: bool)
    requires Inv(p) && Controllable(p) && (p.control.Offer? || p.control.Await? || p.control.Withdraw?)
    ensures Inv(ControlStep(p, connected))
  {
    hide Ordered, PacketsOf, EndReturned, ConnectionKept;
    var v := ControlStep(p, connected);
    SameReturned(p, v);
    SamePackets(p, v);
  }

  lemma ForgetKeeps(p: Proxy, connected: bool)
    requires Inv(p) && p.control.Forget?
    ensures Inv(ControlStep(p, connected))
  {
    hide Ordered, PacketsOf, EndReturned, ConnectionKept;
    var v := ControlStep(p, connected);
    SameReturned(p, v);
    SamePackets(p, v);
  }

  lemma DecideKeeps(p: Proxy, connected: bool)
    requires Inv(p) && p.control.Decide?
    ensures Inv(ControlStep(p, connected))
  {
    hide Ordered, ReaderHolds, PacketsKept, EndsKept, Justified;
    var cause := p.control.cause;
    if p.stopping || cause.None? || cause.value.Aborted? {
      MoveOnKeeps(p, Announce(Over), Stopped, p.retries);
    } else if cause.value.Broken? {
      if p.maxRetries >= 0 && p.retries >= p.maxRetries {
        MoveOnKeeps(p, Announce(Over), ProxyFailed, p.retries);
      } else {
        MoveOnKeeps(p, Announce(Backoff), WaitingRetry, p.retries + 1);
      }
    } else if p.loops {
      MoveOnKeeps(p, Top, p.phase, p.retries);
    } else {
      MoveOnKeeps(p, Announce(Over), ProxyEnded, p.retries);
    }
  }

  /** After a connection only the stage, the phase and the number of attempts change. */
  lemma MoveOnKeeps(p: Proxy, control: Control, phase: Phase, retries: nat)
    requires Inv(p) && p.control.Decide?
    requires control in {Top, Announce(Over), Announce(Backoff)}
    requires phase.ProxyEnded? ==>
      control == Announce(Over) && !p.loops && p.control.cause == Some(AtEnd) && !p.stopping
    requires p.phase == phase || control != Top
    requires control != Announce(Over) && !p.stopping ==> p.loops || p.control.cause == Some(Broken)
    requires p.maxRetries >= 0 ==> retries <= p.maxRetries
    ensures Inv(p.(control := control, phase := phase, retries := retries))
  {
    hide Ordered, PacketsOf, EndReturned, ConnectionKept;
    var v := p.(control := control, phase := phase, retries := retries);
    SameReturned(p, v);
    SamePackets(p, v);
  }

  lemma LoopTopKeeps(p: Proxy, connected: bool)
    requires Inv(p) && (p.control.Top? || p.control.Backoff? || p.control.Over?)
    ensures Inv(ControlStep(p, connected))
  {
    hide Ordered, PacketsOf, EndReturned, ConnectionKept;
    var v := ControlStep(p, connected);
    SameReturned(p, v);
    SamePackets(p, v);
  }

  lemma {:induction false} NoneOf(items: seq<Item>, k: Id)
    requires forall i :: 0 <= i < |items| ==> items[i].info != k
    ensures PacketsOf(items, k) == []
  {
    if items != [] {
      NoneOf(items[..|items| - 1], k);
    }
  }

  lemma SamePackets(p: Proxy, v: Proxy)
    requires PacketsKept(p) && v.returned == p.returned && v.connections == p.connections && v.reader == p.reader
    ensures PacketsKept(v)
  {
    hide PacketsOf;
    SameReturned(p, v);
    forall k | k in v.connections
      ensures ConnectionKept(v, k)
    {
      assert ConnectionKept(p, k);
    }
  }

  lemma SameReturned(p: Proxy, v: Proxy)
    requires v.returned == p.returned
    ensures forall k :: EndReturned(v, k) <==> EndReturned(p, k)
  {
  }

  lemma SourceKeeps(p: Proxy, k: Id, e: InputEvent)
    requires Inv(p) && InputMay(p, k, e)
    ensures Inv(InputStep(p, k, e))
  {
    hide Ordered, PacketsOf;
    var v := InputStep(p, k, e);
    SameReturned(p, v);
    assert Numbered(v);
    assert Offered(v);
    assert Justified(v);
    assert EndsKept(v);
    assert ReaderHolds(v);
    assert PacketsKept(v);
  }

  lemma InformKeeps(p: Proxy, k: Id)
    requires Inv(p) && k in p.connections
    ensures Inv(InputChanged(p, k, p.connections[k].state))
  {
    if p.input == Some(k) && p.terminal.None? {
      if p.connections[k].state.Failed? {
        TellKeeps(p, k, Broken);
      } else if p.connections[k].state.Cancelled? {
        TellKeeps(p, k, Aborted);
      }
    }
  }

  lemma TellKeeps(p: Proxy, k: Id, t: Terminal)
    requires Inv(p) && k in p.connections && p.input == Some(k) && p.terminal.None?
    requires (t.Broken? && p.connections[k].state.Failed?) || (t.Aborted? && p.connections[k].state.Cancelled?)
    ensures Inv(p.(terminal := Some(t)))
  {
    hide Ordered, PacketsOf, EndReturned, ConnectionKept;
    var v := p.(terminal := Some(t));
    SameReturned(p, v);
    SamePackets(p, v);
  }

  /** Returning an item adds just that item. */
  lemma Returns(p: Proxy, v: Proxy, x: Item)
    requires v.returned == p.returned + [x]
    ensures forall k :: EndReturned(v, k) <==> EndReturned(p, k) || x == Eof(k)
    ensures forall k :: PacketsOf(v.returned, k) == PacketsOf(p.returned, k) + if x.Packet? && x.info == k
      then [x.content] else []
  {
    assert v.returned[..|v.returned| - 1] == p.returned;
  }

  lemma EndsAreReturned(p: Proxy)
    ensures forall i :: 0 <= i < |p.returned| && p.returned[i].Eof? ==> EndReturned(p, p.returned[i].info)
  {
    forall i | 0 <= i < |p.returned| && p.returned[i].Eof?
      ensures EndReturned(p, p.returned[i].info)
    {
      assert p.returned[i] == Eof(p.returned[i].info);
    }
  }

  lemma OrderGrows(items: seq<Item>, x: Item, loops: bool)
    requires Ordered(items, loops)
    requires forall i :: 0 <= i < |items| ==> Precedes(items[i], x, loops)
    ensures Ordered(items + [x], loops)
  {
  }

  lemma EnterKeeps(p: Proxy)
    requires Inv(p) && p.reader.Outside? && Readable(p)
    ensures p.available || EndKnown(p) ==> p.info.Some?
    ensures p.available ==> p.input.Some?
    ensures Inv(Enter(p).0)
  {
    hide Ordered, PacketsOf, EndReturned;
    var v := Enter(p).0;
    if v.returned != p.returned {
      var x := Eof(p.info.value);
      Returns(p, v, x);
      EndsAreReturned(p);
      OrderGrows(p.returned, x, p.loops);
    } else {
      SameReturned(p, v);
    }
    assert Numbered(v);
    assert Offered(v);
    assert Justified(v);
    assert EndsKept(v);
    assert ReaderHolds(v);
    assert PacketsKept(v);
  }

  lemma TerminalCases(t: Option<Terminal>)
    ensures t == None || t == Some(AtEnd) || t == Some(Broken) || t == Some(Aborted)
  {
    if t.Some? {
      match t.value
      case AtEnd =>
      case Broken =>
      case Aborted =>
    }
  }

  /** The connection whose end the reader has come to is the current one, still waited on. */
  lemma EndIsUnacknowledged(p: Proxy, k: Id)
    requires Numbered(p) && Justified(p) && EndsKept(p) && ReaderWithin(p, k, k)
    requires p.connections[k].state.Ended? && !p.connections[k].cancelled && !p.stopping
    ensures p.input == Some(k) && p.terminal.None? && p.control.Await?
  {
    assert k == p.next - 1 && p.info == Some(k);
    TerminalCases(p.terminal);
    assert p.terminal != Some(AtEnd) && p.terminal != Some(Broken) && p.terminal != Some(Aborted);
  }

  lemma PopKeeps(p: Proxy)
    requires Inv(p) && Enabled(p, Pop)
    ensures Inv(PopInput(p))
  {
    var k := p.reader.input;
    assert ConnectionKept(p, k);
    if p.connections[k].cancelled || (p.connections[k].buffered == [] && !p.connections[k].state.Ended?) {
      MovedReaderKeeps(p, Missed(k));
    } else if p.connections[k].buffered != [] {
      TakeKeeps(p);
    } else {
      if !p.stopping {
        EndIsUnacknowledged(p, k);
      }
      MovedReaderKeeps(p, AtEof(k, p.reader.info));
    }
  }

  lemma MovedReaderKeeps(p: Proxy, reader: Reader)
    requires Inv(p) && (p.reader.Inside? || (p.reader.Popped? && p.connections[p.reader.input].cancelled))
    requires reader.Missed? || (reader.AtEof? && ReaderHolds(p.(reader := reader)) && reader.input == p.reader.input)
    ensures Inv(p.(reader := reader))
  {
    hide Ordered, PacketsOf, EndReturned, ReaderHolds;
    var v := p.(reader := reader);
    SameReturned(p, v);
    forall j | j in v.connections
      ensures ConnectionKept(v, j)
    {
      assert ConnectionKept(p, j);
    }
    assert ReaderHolds(v) by {
      NoReaderHolds(v);
    }
  }

  lemma NoReaderHolds(p: Proxy)
    requires !p.reader.Missed? ==> ReaderHolds(p)
    ensures ReaderHolds(p)
  {
  }

  lemma TakeKeeps(p: Proxy)
    requires Inv(p) && Enabled(p, Pop) && !p.connections[p.reader.input].cancelled &&
      p.connections[p.reader.input].buffered != []
    ensures Inv(PopInput(p))
  {
    hide Ordered, PacketsOf, EndReturned;
    var v, k := PopInput(p), p.reader.input;
    SameReturned(p, v);
    forall j | j in v.connections
      ensures ConnectionKept(v, j)
    {
      assert ConnectionKept(p, j);
      HeadTail(p.connections[k].buffered, PacketsOf(p.returned, k));
    }
  }

  lemma HeadTail(buffered: seq<nat>, sent: seq<nat>)
    requires buffered != []
    ensures sent + [] + buffered == sent + [buffered[0]] + buffered[1..]
  {
    assert buffered == [buffered[0]] + buffered[1..];
  }

  lemma GiveBackKeeps(p: Proxy)
    requires Inv(p) && p.reader.Popped?
    ensures Inv(ReturnPacket(p).0)
  {
    hide Ordered, PacketsOf, EndReturned, Numbered, Offered, Justified, EndsKept;
    assert ConnectionKept(p, p.reader.input);
    if ReturnPacket(p).0.reader.Missed? {
      MovedReaderKeeps(p, Missed(p.reader.input));
    } else {
      DeliverKeeps(p);
    }
  }

  lemma DeliverKeeps(p: Proxy)
    requires Inv(p) && p.reader.Popped? && ReturnPacket(p).0.reader.Outside?
    ensures Inv(ReturnPacket(p).0)
  {
    hide Ordered, PacketsOf, EndReturned, PacketsKept;
    var v := ReturnPacket(p).0;
    var x := Packet(p.reader.info, p.reader.content);
    Returns(p, v, x);
    EndsAreReturned(p);
    OrderGrows(p.returned, x, p.loops);
    DeliverKeepsPackets(p);
  }

  lemma DeliverKeepsPackets(p: Proxy)
    requires Inv(p) && p.reader.Popped? && ReturnPacket(p).0.reader.Outside?
    ensures PacketsKept(ReturnPacket(p).0)
  {
    hide Ordered, PacketsOf, EndReturned, Numbered, Offered, Justified, EndsKept;
    var v := ReturnPacket(p).0;
    Returns(p, v, Packet(p.reader.info, p.reader.content));
    forall k | k in v.connections
      ensures ConnectionKept(v, k)
    {
      assert ConnectionKept(p, k);
      Appended(PacketsOf(p.returned, k), p.reader.content, p.connections[k].buffered);
    }
  }

  lemma Appended(sent: seq<nat>, x: nat, rest: seq<nat>)
    ensures sent + [x] + [] + rest == sent + [x] + rest
    ensures sent + [] + rest == sent + rest
  {
  }

  lemma AcknowledgeKeeps(p: Proxy)
    requires Inv(p) && p.reader.AtEof?
    ensures Inv(AcknowledgeEof(p).0)
  {
    hide Ordered, PacketsOf, EndReturned;
    var v := AcknowledgeEof(p).0;
    var x := Eof(p.reader.info);
    Returns(p, v, x);
    EndsAreReturned(p);
    OrderGrows(p.returned, x, p.loops);
    assert Numbered(v) && Offered(v) && Justified(v) && EndsKept(v) && ReaderHolds(v);
    forall k | k in v.connections
      ensures ConnectionKept(v, k)
    {
      assert ConnectionKept(p, k);
    }
  }

  lemma StopKeeps(p: Proxy)
    requires Inv(p)
    ensures Inv(p.(stopping := true))
    ensures p.reader.Missed? ==> Inv(p.(reader := Outside))
  {
    hide Ordered, PacketsOf;
    SameReturned(p, p.(stopping := true));
    SameReturned(p, p.(reader := Outside));
    assert Numbered(p.(stopping := true)) && Numbered(p.(reader := Outside));
  }

  // ----- every interleaving

  lemma ApplyKeeps(p: Proxy, a: Action)
    requires Inv(p) && Enabled(p, a)
    ensures a.Read? ==> (p.available || EndKnown(p) ==> p.info.Some?) && (p.available ==> p.input.Some?)
    ensures Inv(Apply(p, a).0)
  {
    hide Inv, ControlStep, InputStep, InputChanged, PopInput, ReturnPacket, AcknowledgeEof, Enter;
    match a
    case Steer(connected) => ControlKeeps(p, connected);
    case Source(k, e) => SourceKeeps(p, k, e);
    case Inform(k) => InformKeeps(p, k);
    case Read => EnterKeeps(p);
    case Pop => PopKeeps(p);
    case GiveBack => GiveBackKeeps(p);
    case Acknowledge => AcknowledgeKeeps(p);
    case Retry => StopKeeps(p);
    case Stop => StopKeeps(p);
  }

  /** A step returns at most one item, and returning one is all it does to the record. */
  lemma ApplyReturns(p: Proxy, a: Action)
    requires Inv(p) && Enabled(p, a)
    ensures var (v, answer) := Apply(p, a);
            && v.loops == p.loops && v.maxRetries == p.maxRetries
            && v.returned == match answer case Answered(x) => p.returned + [x] case _ => p.returned
  {
    hide Inv, ControlStep, InputStep, InputChanged, PopInput;
    ApplyKeeps(p, a);
  }

  ghost function Step(p: Proxy, a: Action): (v: Proxy)
    requires Inv(p)
    ensures Inv(v)
  {
    if Enabled(p, a) then ApplyKeeps(p, a); Apply(p, a).0 else p
  }

  lemma BeginHolds(loops: bool, maxRetries: int)
    ensures Inv(Begin(loops, maxRetries))
  {
  }

  ghost function Play(p: Proxy, actions: seq<Action>): Proxy
    requires Inv(p)
    decreases actions
  {
    if actions == [] then p else Play(Step(p, actions[0]), actions[1..])
  }

  lemma {:induction false} PlayKeeps(p: Proxy, actions: seq<Action>)
    requires Inv(p)
    ensures Inv(Play(p, actions)) && Play(p, actions).loops == p.loops && Play(p, actions).maxRetries == p.maxRetries
    decreases actions
  {
    hide Inv, Apply, Enabled;
    if actions != [] {
      if Enabled(p, actions[0]) {
        ApplyKeeps(p, actions[0]);
        ApplyReturns(p, actions[0]);
      }
      PlayKeeps(Step(p, actions[0]), actions[1..]);
    }
  }

  ghost function AnyRun(loops: bool, maxRetries: int, actions: seq<Action>): Proxy {
    BeginHolds(loops, maxRetries);
    Play(Begin(loops, maxRetries), actions)
  }

  /**
   * However reads, reconnections, failures and stops interleave, a looping connection's end is returned at most once,
   * with that connection's own description, after all of its packets and before anything of a later connection.
   */
  lemma EachEndReturnedOnce(loops: bool, maxRetries: int, actions: seq<Action>, i: nat, j: nat)
    requires i < |AnyRun(loops, maxRetries, actions).returned| && j < |AnyRun(loops, maxRetries, actions).returned|
    ensures var p := AnyRun(loops, maxRetries, actions);
            var x, y := p.returned[i], p.returned[j];
            && (i < j ==> x.info <= y.info)
            && (x.Eof? ==> x.info in p.connections && PacketsOf(p.returned, x.info) == p.connections[x.info].produced)
            && (x.Eof? && i < j && x.info == y.info ==> y.Eof? && !loops)
            && (loops && x.Eof? && x == y ==> i == j)
  {
    BeginHolds(loops, maxRetries);
    PlayKeeps(Begin(loops, maxRetries), actions);
    var p := AnyRun(loops, maxRetries, actions);
    var x := p.returned[i];
    assert x.Eof? ==> EndReturned(p, x.info);
    if x.Eof? {
      assert ConnectionKept(p, x.info);
    }
    if i < j {
      assert Precedes(p.returned[i], p.returned[j], loops);
    } else if j < i {
      assert Precedes(p.returned[j], p.returned[i], loops);
    }
  }

  // ----- which ends are returned

  /** The connections whose source reports its end in a step. */
  ghost function EndOf(p: Proxy, a: Action): set<Id> {
    if Enabled(p, a) && a.Source? && a.event.ReachesEnd? then {a.input} else {}
  }

  /** The connections whose source reports its end in the course of a run. */
  ghost function Ends(p: Proxy, actions: seq<Action>): set<Id>
    requires Inv(p)
    decreases actions
  {
    if actions == [] then {} else EndOf(p, actions[0]) + Ends(Step(p, actions[0]), actions[1..])
  }

  ghost predicate Serving(p: Proxy) {
    Stage(p).Open? || Stage(p).Offer? || p.control.Await?
  }

  /** The current connection, from its creation until the control thread turns away from it. */
  ghost predicate Live(p: Proxy, k: Id) {
    p.input == Some(k) && Serving(p)
  }

  /** A connection is given up only broken, aborted, or with its end returned; and only real ends are returned. */
  ghost predicate EndSettled(p: Proxy, ends: set<Id>, k: Id) {
    && (k in ends ==> k in p.connections && (p.connections[k].state.Ended? || p.connections[k].state.Closed?))
    && (k in p.connections && p.connections[k].state.Ended? ==> k in ends)
    && (EndReturned(p, k) ==> k in ends)
    && (k in p.connections && !p.stopping && !Live(p, k) ==>
          && !p.connections[k].state.Opening? && !p.connections[k].state.Opened?
          && (k in ends ==> EndReturned(p, k)))
    && (k in p.connections && Live(p, k) ==> !p.connections[k].state.Closed?)
    && (k in p.connections && !p.stopping && p.connections[k].cancelled ==> p.connections[k].state.Closed?)
  }

  /** The reader comes only to real ends, and is not kept from one that waits for it. */
  ghost predicate ReaderSettled(p: Proxy, ends: set<Id>) {
    && (p.reader.AtEof? ==> p.reader.input in ends)
    && (p.reader.Missed? ==>
          && p.reader.input in p.connections
          && (!p.connections[p.reader.input].cancelled ==> p.connections[p.reader.input].state.Failed?))
    && (p.control.Await? && !p.stopping && p.input.Some? && !EndReturned(p, p.input.value) ==> p.available)
  }

  ghost predicate Settled(p: Proxy, ends: set<Id>) {
    (forall k :: EndSettled(p, ends, k)) && ReaderSettled(p, ends)
  }

  /** The control thread turns away from a connection only for the reason it was told. */
  lemma TurningAwayIsJustified(p: Proxy)
    requires Numbered(p) && Justified(p) && EndsKept(p) && p.control.Await? && Controllable(p) && !p.stopping
    ensures var k := p.input.value;
            EndReturned(p, k) || p.connections[k].state.Failed? || p.connections[k].state.Cancelled?
            || p.connections[k].state.Closed?
  {
    TerminalCases(p.terminal);
    assert p.terminal == Some(AtEnd) ==> p.info == p.input;
  }

  lemma ControlSettles(p: Proxy, ends: set<Id>, connected: bool)
    requires Inv(p) && Controllable(p) && Settled(p, ends)
    ensures Settled(ControlStep(p, connected), ends)
  {
    hide Offered, Justified, EndsKept, ReaderHolds, PacketsKept, Ordered;
    match p.control
    case Create => CreateSettles(p, ends, connected);
    case Open =>
      OpensOpening(p);
      OpenSettles(p, ends, connected);
    case Shut(_) => ShutSettles(p, ends, connected);
    case Await =>
      if !p.stopping {
        TurningAwayIsJustified(p);
      }
      MoveSettles(p, ends, connected);
    case _ => MoveSettles(p, ends, connected);
  }

  lemma OpensOpening(p: Proxy)
    requires Numbered(p) && Justified(p) && p.control.Open?
    ensures p.connections[p.input.value].state.Opening?
  {
  }

  lemma CreateSettles(p: Proxy, ends: set<Id>, connected: bool)
    requires Numbered(p) && Settled(p, ends) && p.control.Create?
    ensures Settled(ControlStep(p, connected), ends)
  {
    hide EndReturned;
    var v := ControlStep(p, connected);
    SameReturned(p, v);
    forall k
      ensures EndSettled(v, ends, k)
    {
      assert EndSettled(p, ends, k);
    }
  }

  lemma OpenSettles(p: Proxy, ends: set<Id>, connected: bool)
    requires Numbered(p) && Settled(p, ends) && p.control.Open? && Controllable(p)
    requires p.connections[p.input.value].state.Opening?
    ensures Settled(ControlStep(p, connected), ends)
  {
    hide EndReturned;
    var v := ControlStep(p, connected);
    SameReturned(p, v);
    forall k
      ensures EndSettled(v, ends, k)
    {
      assert EndSettled(p, ends, k);
    }
  }

  lemma ShutSettles(p: Proxy, ends: set<Id>, connected: bool)
    requires Numbered(p) && Settled(p, ends) && p.control.Shut? && Controllable(p)
    ensures Settled(ControlStep(p, connected), ends)
  {
    hide EndReturned;
    var v := ControlStep(p, connected);
    SameReturned(p, v);
    forall k
      ensures EndSettled(v, ends, k)
    {
      assert EndSettled(p, ends, k);
    }
  }

  /** A control step that touches no connection makes none live, and makes one dead only by leaving the wait. */
  ghost predicate Moves(p: Proxy, v: Proxy) {
    && v.connections == p.connections && v.reader == p.reader && v.stopping == p.stopping
    && (v.control.Await? ==> p.stopping || v.available)
    && (Serving(v) ==> Serving(p) && v.input == p.input)
    && (!p.control.Await? && Serving(p) ==> Serving(v) && v.input == p.input)
  }

  predicate Replaces(c: Control) {
    c.Create? || c.Open? || c.Shut?
  }

  lemma EarlyStepsMove(p: Proxy, connected: bool)
    requires Numbered(p) && Controllable(p)
    requires p.control.Top? || p.control.Announce? || p.control.Offer? || p.control.Await?
    ensures Moves(p, ControlStep(p, connected))
  {
  }

  lemma LateStepsMove(p: Proxy, connected: bool)
    requires p.control.Withdraw? || p.control.Forget? || p.control.Backoff? || p.control.Over?
    ensures Moves(p, ControlStep(p, connected))
  {
  }

  lemma DecideMoves(p: Proxy, connected: bool)
    requires p.control.Decide?
    ensures Moves(p, ControlStep(p, connected))
  {
  }

  lemma MoveFrame(p: Proxy, connected: bool)
    requires Numbered(p) && Controllable(p) && !Replaces(p.control)
    ensures Moves(p, ControlStep(p, connected))
  {
    hide Moves, ControlStep, Numbered;
    match p.control
    case Top => EarlyStepsMove(p, connected);
    case Announce(_) => EarlyStepsMove(p, connected);
    case Offer => EarlyStepsMove(p, connected);
    case Await => EarlyStepsMove(p, connected);
    case Decide(_) => DecideMoves(p, connected);
    case _ => LateStepsMove(p, connected);
  }

  lemma MoveSettles(p: Proxy, ends: set<Id>, connected: bool)
    requires Numbered(p) && Controllable(p) && Settled(p, ends)
    requires !Replaces(p.control)
    requires p.control.Await? && !p.stopping ==>
               var k := p.input.value;
               EndReturned(p, k) || p.connections[k].state.Failed? || p.connections[k].state.Cancelled?
               || p.connections[k].state.Closed?
    ensures Settled(ControlStep(p, connected), ends)
  {
    hide EndReturned, ControlStep;
    var v := ControlStep(p, connected);
    MoveFrame(p, connected);
    SameReturned(p, v);
    forall k
      ensures EndSettled(v, ends, k)
    {
      assert EndSettled(p, ends, k);
    }
  }

  lemma SourceSettles(p: Proxy, ends: set<Id>, k: Id, e: InputEvent)
    requires Inv(p) && InputMay(p, k, e) && Settled(p, ends)
    ensures Settled(InputStep(p, k, e), ends + if e.ReachesEnd? then {k} else {})
  {
    hide Inv, EndReturned;
    var v := InputStep(p, k, e);
    SameReturned(p, v);
    var grown := ends + if e.ReachesEnd? then {k} else {};
    forall j
      ensures EndSettled(v, grown, j)
    {
      assert EndSettled(p, ends, j) && EndSettled(p, ends, k);
    }
  }

  lemma EnterSettles(p: Proxy, ends: set<Id>)
    requires Inv(p) && Enabled(p, Read) && Settled(p, ends)
    ensures Settled(Apply(p, Read).0, ends)
  {
    EnterKeeps(p);
    hide Ordered, PacketsOf, PacketsKept, Numbered, Justified;
    var (v, answer) := Enter(p);
    if answer.Answered? {
      ReturnsEnds(p, v, answer.item);
      assert EndSettled(p, ends, answer.item.info);
    } else {
      SameReturned(p, v);
    }
    hide EndReturned;
    forall k
      ensures EndSettled(v, ends, k)
    {
      assert EndSettled(p, ends, k);
    }
  }

  lemma ReturnsEnds(p: Proxy, v: Proxy, x: Item)
    requires v.returned == p.returned + [x]
    ensures forall k :: EndReturned(v, k) <==> EndReturned(p, k) || x == Eof(k)
  {
    Returns(p, v, x);
  }

  lemma PopSettles(p: Proxy, ends: set<Id>)
    requires Enabled(p, Pop) && Settled(p, ends) && ConnectionKept(p, p.reader.input)
    ensures Settled(PopInput(p), ends)
  {
    hide PacketsOf, EndReturned;
    var v := PopInput(p);
    SameReturned(p, v);
    assert EndSettled(p, ends, p.reader.input);
    forall k
      ensures EndSettled(v, ends, k)
    {
      assert EndSettled(p, ends, k);
    }
  }

  lemma ReturnSettles(p: Proxy, ends: set<Id>)
    requires p.reader.Popped? && p.reader.input in p.connections && ConnectionKept(p, p.reader.input)
    requires Settled(p, ends)
    ensures Settled(ReturnPacket(p).0, ends)
  {
    hide PacketsOf, EndReturned;
    var (v, answer) := ReturnPacket(p);
    if answer.Answered? {
      ReturnsEnds(p, v, answer.item);
    } else {
      SameReturned(p, v);
    }
    forall k
      ensures EndSettled(v, ends, k)
    {
      assert EndSettled(p, ends, k);
    }
  }

  lemma AcknowledgeSettles(p: Proxy, ends: set<Id>)
    requires p.reader.AtEof? && ReaderHolds(p) && Settled(p, ends)
    ensures Settled(AcknowledgeEof(p).0, ends)
  {
    hide PacketsOf, EndReturned;
    var (v, answer) := AcknowledgeEof(p);
    ReturnsEnds(p, v, Eof(p.reader.info));
    forall k
      ensures EndSettled(v, ends, k)
    {
      assert EndSettled(p, ends, k);
    }
  }

  lemma RetrySettles(p: Proxy, ends: set<Id>)
    requires p.reader.Missed? && Settled(p, ends)
    ensures Settled(p.(reader := Outside), ends)
  {
    hide EndReturned;
    var v := p.(reader := Outside);
    SameReturned(p, v);
    forall k
      ensures EndSettled(v, ends, k)
    {
      assert EndSettled(p, ends, k);
    }
  }

  lemma ReaderStepSettles(p: Proxy, ends: set<Id>, a: Action)
    requires Inv(p) && Enabled(p, a) && Settled(p, ends)
    requires a.Read? || a.Pop? || a.GiveBack? || a.Acknowledge? || a.Retry?
    ensures Settled(Apply(p, a).0, ends)
  {
    hide Settled, Ordered, ConnectionKept, PopInput, ReturnPacket, AcknowledgeEof, Enter;
    match a
    case Read => EnterSettles(p, ends);
    case Pop => PopSettles(p, ends);
    case GiveBack => ReturnSettles(p, ends);
    case Acknowledge => AcknowledgeSettles(p, ends);
    case Retry => RetrySettles(p, ends);
  }

  lemma ApplySettles(p: Proxy, ends: set<Id>, a: Action)
    requires Inv(p) && Enabled(p, a) && Settled(p, ends)
    ensures Settled(Apply(p, a).0, ends + EndOf(p, a))
  {
    hide Inv, ControlStep, InputStep;
    assert !(a.Source? && a.event.ReachesEnd?) ==> ends + EndOf(p, a) == ends;
    match a
    case Steer(connected) => ControlSettles(p, ends, connected);
    case Source(k, e) => SourceSettles(p, ends, k, e);
    case Inform(k) => SilentSettles(p, ends, Apply(p, a).0);
    case Stop => SilentSettles(p, ends, Apply(p, a).0);
    case _ => ReaderStepSettles(p, ends, a);
  }

  lemma SilentSettles(p: Proxy, ends: set<Id>, v: Proxy)
    requires Settled(p, ends)
    requires v == p.(terminal := v.terminal, stopping := v.stopping) && (p.stopping ==> v.stopping)
    ensures Settled(v, ends)
  {
    hide EndReturned;
    SameReturned(p, v);
    forall k
      ensures EndSettled(v, ends, k)
    {
      assert EndSettled(p, ends, k);
    }
  }

  lemma {:induction false} PlaySettles(p: Proxy, actions: seq<Action>, ends: set<Id>)
    requires Inv(p) && Settled(p, ends)
    ensures Settled(Play(p, actions), ends + Ends(p, actions))
    decreases actions
  {
    hide Inv, Apply, Enabled, Settled, EndOf;
    if actions == [] {
      assert ends + {} == ends;
    } else {
      var a, next := actions[0], Step(p, actions[0]);
      if Enabled(p, a) {
        ApplySettles(p, ends, a);
      } else {
        NothingEnds(p, a);
        assert ends + EndOf(p, a) == ends;
      }
      PlaySettles(next, actions[1..], ends + EndOf(p, a));
      assert ends + EndOf(p, a) + Ends(next, actions[1..]) == ends + (EndOf(p, a) + Ends(next, actions[1..]));
    }
  }

  lemma NothingEnds(p: Proxy, a: Action)
    requires !Enabled(p, a)
    ensures EndOf(p, a) == {}
  {
  }

  lemma RunSettles(loops: bool, maxRetries: int, actions: seq<Action>)
    ensures Inv(Begin(loops, maxRetries))
    ensures Settled(AnyRun(loops, maxRetries, actions), Ends(Begin(loops, maxRetries), actions))
  {
    hide Inv;
    BeginHolds(loops, maxRetries);
    PlaySettles(Begin(loops, maxRetries), actions, {});
    var ends := Ends(Begin(loops, maxRetries), actions);
    assert {} + ends == ends;
  }

  /**
   * In every run an end is returned only for a connection whose source reached it; and while nothing stops, a
   * connection that reached its end is not left before that end has been returned: reconnection hides none.
   */
  lemma EveryEndIsReturned(loops: bool, maxRetries: int, actions: seq<Action>, k: Id)
    ensures Inv(Begin(loops, maxRetries))
    ensures var p, ends := AnyRun(loops, maxRetries, actions), Ends(Begin(loops, maxRetries), actions);
            && (Eof(k) in p.returned ==> k in ends)
            && (k in ends && !p.stopping && !Live(p, k) ==> Eof(k) in p.returned)
  {
    RunSettles(loops, maxRetries, actions);
    assert EndSettled(AnyRun(loops, maxRetries, actions), Ends(Begin(loops, maxRetries), actions), k);
  }

  /** A reader is never stuck in front of an end that waits for it: it has a step to take until the end is returned. */
  lemma WaitingEndIsReadable(loops: bool, maxRetries: int, actions: seq<Action>, k: Id)
    requires Inv(Begin(loops, maxRetries))
    requires var p := AnyRun(loops, maxRetries, actions);
             && k in Ends(Begin(loops, maxRetries), actions) && !p.stopping && Eof(k) !in p.returned
             && p.control.Await?
    ensures var p := AnyRun(loops, maxRetries, actions);
            Enabled(p, Read) || Enabled(p, Pop) || Enabled(p, GiveBack) || Enabled(p, Acknowledge) || Enabled(p, Retry)
  {
    hide Inv, Play, Ends;
    RunSettles(loops, maxRetries, actions);
    PlayKeeps(Begin(loops, maxRetries), actions);
    ReaderMayGoOn(AnyRun(loops, maxRetries, actions), Ends(Begin(loops, maxRetries), actions), k);
  }

  lemma ReaderMayGoOn(p: Proxy, ends: set<Id>, k: Id)
    requires Inv(p) && Settled(p, ends)
    requires k in ends && !p.stopping && !EndReturned(p, k) && p.control.Await?
    ensures Enabled(p, Read) || Enabled(p, Pop) || Enabled(p, GiveBack) || Enabled(p, Acknowledge) || Enabled(p, Retry)
  {
    hide Ordered, PacketsOf, EndsKept, Justified;
    assert EndSettled(p, ends, k);
    assert Live(p, k) && p.available;
    assert ConnectionKept(p, k) && p.connections[k].state.Ended?;
    match p.reader
    case Outside => assert Readable(p);
    case Inside(j, _) =>
      assert ConnectionKept(p, j);
      assert QueueClosed(p.connections[j]);
    case Popped(_, _, _) =>
    case AtEof(_, _) =>
    case Missed(j) => assert p.input != Some(j);
  }

  // ----- which packets are returned

  ghost function Held(p: Proxy, k: Id): seq<nat> {
    if p.reader.Popped? && p.reader.input == k then [p.reader.content] else []
  }

  /** What has been returned of a connection, and is about to be, is the beginning of what its source produced. */
  ghost predicate Genuine(p: Proxy) {
    && (forall k :: k in p.connections ==> GenuineAt(p, k))
    && (forall i :: 0 <= i < |p.returned| ==> p.returned[i].info in p.connections)
  }

  ghost predicate GenuineAt(p: Proxy, k: Id)
    requires k in p.connections
  {
    PacketsOf(p.returned, k) + Held(p, k) <= p.connections[k].produced
  }

  lemma PopIsGenuine(p: Proxy)
    requires Inv(p) && Enabled(p, Pop) && Genuine(p)
    ensures Genuine(PopInput(p))
  {
    hide Numbered, Offered, Justified, EndsKept, Ordered, PacketsOf, EndReturned;
    var v, j := PopInput(p), p.reader.input;
    assert ConnectionKept(p, j);
    forall k | k in v.connections
      ensures GenuineAt(v, k)
    {
      assert GenuineAt(p, k);
      if k == j && v.reader.Popped? {
        HeadTail(p.connections[j].buffered, PacketsOf(p.returned, j));
      }
    }
  }

  lemma ReturnIsGenuine(p: Proxy)
    requires p.reader.Popped? && p.reader.input in p.connections && p.reader.info == p.reader.input && Genuine(p)
    ensures Genuine(ReturnPacket(p).0)
  {
    hide PacketsOf;
    var (v, answer) := ReturnPacket(p);
    if answer.Answered? {
      Returns(p, v, answer.item);
    }
    forall k | k in v.connections
      ensures GenuineAt(v, k)
    {
      assert GenuineAt(p, k);
      assert PacketsOf(v.returned, k) + [] == PacketsOf(v.returned, k);
      assert PacketsOf(p.returned, k) <= PacketsOf(p.returned, k) + Held(p, k);
    }
  }

  /** Steps that return no packet, hold none, and take nothing back of what was produced. */
  lemma OtherStepsAreGenuine(p: Proxy, v: Proxy)
    requires Genuine(p) && !v.reader.Popped? && !p.reader.Popped?
    requires v.connections == p.connections
    requires v.returned == p.returned
          || exists k :: k in p.connections && v.returned == p.returned + [Eof(k)]
    ensures Genuine(v)
  {
    hide PacketsOf;
    if v.returned != p.returned {
      var k :| k in p.connections && v.returned == p.returned + [Eof(k)];
      Returns(p, v, Eof(k));
    }
    forall k | k in v.connections
      ensures GenuineAt(v, k)
    {
      assert GenuineAt(p, k);
    }
  }

  ghost predicate KeepsProduced(p: Proxy, v: Proxy) {
    && v.reader == p.reader
    && (forall k :: k in v.connections ==> k in p.connections || k == p.next)
    && (forall k :: k in p.connections ==>
          k in v.connections && v.connections[k].produced == p.connections[k].produced)
  }

  /** Creating, opening and closing touch one connection, and of an old one not what it produced. */
  lemma ReplacesOne(p: Proxy, v: Proxy, k: Id, c: Connection)
    requires v.reader == p.reader && v.connections == p.connections[k := c]
    requires if k in p.connections then c.produced == p.connections[k].produced else k == p.next
    ensures KeepsProduced(p, v)
  {
  }

  lemma ReplacingKeepsProduced(p: Proxy, connected: bool)
    requires Numbered(p) && Controllable(p) && Replaces(p.control)
    ensures KeepsProduced(p, ControlStep(p, connected))
  {
    hide KeepsProduced;
    var v := ControlStep(p, connected);
    match p.control
    case Create => ReplacesOne(p, v, p.next, v.connections[p.next]);
    case Open =>
      var k := p.input.value;
      assert p.connections[k := p.connections[k]] == p.connections;
      ReplacesOne(p, v, k, v.connections[k]);
    case Shut(_) => ReplacesOne(p, v, p.input.value, v.connections[p.input.value]);
  }

  lemma ControlKeepsProduced(p: Proxy, connected: bool)
    requires Numbered(p) && Controllable(p)
    ensures KeepsProduced(p, ControlStep(p, connected))
  {
    hide ControlStep, Numbered;
    if Replaces(p.control) {
      ReplacingKeepsProduced(p, connected);
    } else {
      MoveFrame(p, connected);
    }
  }

  lemma ControlIsGenuine(p: Proxy, connected: bool)
    requires Numbered(p) && Controllable(p) && Genuine(p)
    requires p.reader.Popped? ==> p.reader.input in p.connections
    ensures Genuine(ControlStep(p, connected))
  {
    hide PacketsOf, ControlStep;
    var v := ControlStep(p, connected);
    ControlKeepsProduced(p, connected);
    NoneOf(p.returned, p.next);
    forall k | k in v.connections
      ensures GenuineAt(v, k)
    {
      if k in p.connections {
        assert GenuineAt(p, k);
      }
    }
  }

  lemma SourceIsGenuine(p: Proxy, j: Id, e: InputEvent)
    requires InputMay(p, j, e) && Genuine(p)
    ensures Genuine(InputStep(p, j, e))
  {
    hide PacketsOf;
    var v := InputStep(p, j, e);
    forall k | k in v.connections
      ensures GenuineAt(v, k)
    {
      assert GenuineAt(p, k);
    }
  }

  lemma ApplyIsGenuine(p: Proxy, a: Action)
    requires Inv(p) && Enabled(p, a) && Genuine(p)
    ensures Genuine(Apply(p, a).0)
  {
    hide PacketsOf, Genuine, ControlStep, InputStep, PopInput, ReturnPacket, PacketsKept, EndsKept, Justified, Ordered;
    match a
    case Steer(connected) => ControlIsGenuine(p, connected);
    case Source(k, e) => SourceIsGenuine(p, k, e);
    case Inform(_) => SameItemsAreGenuine(p, Apply(p, a).0);
    case Stop => SameItemsAreGenuine(p, Apply(p, a).0);
    case Pop => PopIsGenuine(p);
    case GiveBack => ReturnIsGenuine(p);
    case Read =>
      EnterKeeps(p);
      EnterReturnsKnownEnd(p);
      OtherStepsAreGenuine(p, Apply(p, a).0);
    case _ => OtherStepsAreGenuine(p, Apply(p, a).0);
  }

  lemma EnterReturnsKnownEnd(p: Proxy)
    requires Inv(p) && Enabled(p, Read)
    requires p.available || EndKnown(p) ==> p.info.Some?
    requires p.available ==> p.input.Some?
    ensures var v := Enter(p).0;
            v.returned == p.returned || exists k :: k in p.connections && v.returned == p.returned + [Eof(k)]
  {
    hide Ordered, ReaderHolds, Justified, Numbered, ConnectionKept;
    if EndKnown(p) {
      assert EndReturned(p, p.info.value);
    }
  }

  lemma SameItemsAreGenuine(p: Proxy, v: Proxy)
    requires Genuine(p) && v.connections == p.connections && v.returned == p.returned && v.reader == p.reader
    ensures Genuine(v)
  {
    hide PacketsOf;
    forall k | k in v.connections
      ensures GenuineAt(v, k)
    {
      assert GenuineAt(p, k);
    }
  }

  lemma {:induction false} PlayIsGenuine(p: Proxy, actions: seq<Action>)
    requires Inv(p) && Genuine(p)
    ensures Genuine(Play(p, actions))
    decreases actions
  {
    hide Inv, Apply, Enabled, Genuine;
    if actions != [] {
      if Enabled(p, actions[0]) {
        ApplyIsGenuine(p, actions[0]);
      }
      PlayIsGenuine(Step(p, actions[0]), actions[1..]);
    }
  }

  /** In every run the packets returned of a connection, ended or not, are the first its source produced, in order. */
  lemma ReturnedPacketsAreGenuine(loops: bool, maxRetries: int, actions: seq<Action>, k: Id)
    ensures var p := AnyRun(loops, maxRetries, actions);
            if k in p.connections then PacketsOf(p.returned, k) <= p.connections[k].produced
            else PacketsOf(p.returned, k) == []
  {
    hide Inv;
    BeginHolds(loops, maxRetries);
    PlayIsGenuine(Begin(loops, maxRetries), actions);
    var p := AnyRun(loops, maxRetries, actions);
    if k !in p.connections {
      NoneOf(p.returned, k);
    }
  }

  /** No more attempts in a row than the limit allows. */
  lemma RetriesAreBounded(loops: bool, maxRetries: int, actions: seq<Action>)
    requires maxRetries >= 0
    ensures AnyRun(loops, maxRetries, actions).retries <= maxRetries
  {
    BeginHolds(loops, maxRetries);
    PlayKeeps(Begin(loops, maxRetries), actions);
  }
}
