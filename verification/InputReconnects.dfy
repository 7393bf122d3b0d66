/** When the input proxy goes on to another connection, and why it ever stops doing so. */
module InputReconnects {
  import opened Results
  import opened InputProxy

  /** The control thread has a reason to turn away from a connection. */
  predicate Turning(c: Control) {
    c.Withdraw? || c.Shut? || c.Forget? || c.Decide?
  }

  // ----- why it stops

  /** Unless the proxy is stopping, no input is aborted. */
  ghost predicate Unaborted(p: Proxy) {
    !p.stopping ==>
      && p.terminal != Some(Aborted)
      && (Turning(p.control) ==> p.control.cause.Some? && p.control.cause != Some(Aborted))
      && (forall k :: k in p.connections && (p.connections[k].cancelled || p.connections[k].state.Cancelled?) ==>
            p.connections[k].state.Closed?)
  }

  /** It is over only after the end of an input that does not loop, or with every configured retry used up. */
  ghost predicate OverForCause(p: Proxy) {
    !p.stopping && Stage(p).Over? ==>
      || (p.phase.ProxyEnded? && !p.loops && p.terminal == Some(AtEnd))
      || (p.phase.ProxyFailed? && p.maxRetries >= 0 && p.retries == p.maxRetries)
  }

  ghost predicate GoesOn(p: Proxy) {
    Unaborted(p) && OverForCause(p)
  }

  lemma TurnKeepsGoing(p: Proxy, connected: bool)
    requires Inv(p) && GoesOn(p) && Controllable(p) && (Turning(p.control) || p.control.Await?)
    ensures GoesOn(ControlStep(p, connected))
  {
    assert p.control.Decide? && p.control.cause == Some(AtEnd) ==> p.terminal == Some(AtEnd);
    hide Numbered, Offered, EndsKept, ReaderHolds, PacketsKept, Ordered;
  }

  /** A step to a new, an opened or a refused connection. */
  lemma ConnectingKeepsGoing(p: Proxy, connected: bool)
    requires GoesOn(p) && Controllable(p) && (p.control.Create? || p.control.Open?)
    requires p.control.Create? ==> p.next !in p.connections
    requires p.control.Open? ==> p.connections[p.input.value].state.Opening?
    ensures GoesOn(ControlStep(p, connected))
  {
  }

  predicate Announcing(c: Control) {
    c.Announce? ==> c.follow.Open? || c.follow.Offer? || c.follow.Backoff? || c.follow.Over?
  }

  lemma MovingKeepsGoing(p: Proxy, connected: bool)
    requires GoesOn(p) && Controllable(p) && Announcing(p.control)
    requires p.control.Top? || p.control.Announce? || p.control.Offer? || p.control.Backoff? || p.control.Over?
    ensures GoesOn(ControlStep(p, connected))
  {
  }

  lemma SteerKeepsGoing(p: Proxy, connected: bool)
    requires Inv(p) && GoesOn(p) && Controllable(p)
    ensures GoesOn(ControlStep(p, connected))
  {
    hide ControlStep, GoesOn;
    if Turning(p.control) || p.control.Await? {
      TurnKeepsGoing(p, connected);
    } else if p.control.Create? || p.control.Open? {
      NextIsNew(p);
      if p.control.Open? {
        OpensOpening(p);
      }
      ConnectingKeepsGoing(p, connected);
    } else {
      AnnouncesFour(p);
      MovingKeepsGoing(p, connected);
    }
  }

  lemma NextIsNew(p: Proxy)
    requires Inv(p)
    ensures p.next !in p.connections
  {
    hide Offered, Justified, EndsKept, ReaderHolds, PacketsKept, Ordered;
  }

  lemma AnnouncesFour(p: Proxy)
    requires Inv(p)
    ensures Announcing(p.control)
  {
    hide Offered, Justified, EndsKept, ReaderHolds, PacketsKept, Ordered;
  }

  /** The control thread and its counters are left alone, and a reason already given is not changed. */
  ghost predicate LeavesControl(p: Proxy, v: Proxy) {
    && v.control == p.control && v.next == p.next && v.retries == p.retries
    && v.loops == p.loops && v.maxRetries == p.maxRetries
    && (p.stopping ==> v.stopping)
    && (!v.stopping && p.terminal.Some? ==> v.terminal == p.terminal)
  }

  lemma PopKeepsGoing(p: Proxy)
    requires p.reader.Inside? && p.reader.input in p.connections
    requires p.connections[p.reader.input].buffered != [] || QueueClosed(p.connections[p.reader.input])
    ensures GoesOn(p) ==> GoesOn(PopInput(p))
    ensures LeavesControl(p, PopInput(p))
  {
  }

  lemma AcknowledgeKeepsGoing(p: Proxy)
    requires p.reader.AtEof? && (!p.stopping ==> p.control.Await? && p.terminal.None?)
    ensures GoesOn(p) ==> GoesOn(AcknowledgeEof(p).0)
    ensures LeavesControl(p, AcknowledgeEof(p).0)
  {
  }

  lemma ReaderKeepsGoing(p: Proxy, a: Action)
    requires Inv(p) && Enabled(p, a) && (a.Read? || a.Pop? || a.GiveBack? || a.Acknowledge? || a.Retry?)
    ensures GoesOn(p) ==> GoesOn(Apply(p, a).0)
    ensures LeavesControl(p, Apply(p, a).0)
  {
    if a.Pop? {
      PopKeepsGoing(p);
    } else if a.Acknowledge? {
      AcknowledgedWhileAwaited(p, a);
      AcknowledgeKeepsGoing(p);
    }
    hide Inv, Enabled, PopInput, AcknowledgeEof;
  }

  lemma AcknowledgedWhileAwaited(p: Proxy, a: Action)
    requires Inv(p) && Enabled(p, a)
    ensures a.Acknowledge? && !p.stopping ==> p.control.Await? && p.terminal.None?
  {
    hide Numbered, Offered, Justified, EndsKept, PacketsKept, Ordered;
  }

  lemma ApplyKeepsGoing(p: Proxy, a: Action)
    requires Inv(p) && GoesOn(p) && Enabled(p, a)
    ensures GoesOn(Apply(p, a).0)
  {
    hide ControlStep;
    match a
    case Steer(connected) => SteerKeepsGoing(p, connected);
    case Source(k, e) => SourceKeepsGoing(p, k, e);
    case Inform(k) => InformKeepsGoing(p, k);
    case Stop =>
    case _ => ReaderKeepsGoing(p, a);
  }

  lemma SourceKeepsGoing(p: Proxy, k: Id, e: InputEvent)
    requires GoesOn(p) && InputMay(p, k, e)
    ensures GoesOn(InputStep(p, k, e))
  {
  }

  lemma InformKeepsGoing(p: Proxy, k: Id)
    requires Inv(p) && GoesOn(p) && k in p.connections
    ensures GoesOn(InputChanged(p, k, p.connections[k].state))
  {
    OverHasSpoken(p);
    hide Inv;
  }

  /** Once it is over without having been stopped, an end still counts as one. */
  lemma OverHasSpoken(p: Proxy)
    requires Inv(p) && OverForCause(p)
    ensures !p.stopping && Stage(p).Over? && p.phase.ProxyEnded? ==> p.terminal.Some?
  {
    hide Inv;
  }

  lemma {:induction false} PlayKeepsGoing(p: Proxy, actions: seq<Action>)
    requires Inv(p) && GoesOn(p)
    ensures GoesOn(Play(p, actions))
    decreases actions
  {
    hide Inv, GoesOn, Apply, Enabled;
    if actions != [] {
      if Enabled(p, actions[0]) {
        ApplyKeepsGoing(p, actions[0]);
      }
      PlayKeepsGoing(Step(p, actions[0]), actions[1..]);
    }
  }

  /**
   * In every interleaving in which nobody stops the proxy, its control thread is over only after the end of an input
   * that does not loop, which the reader has been given, or with every configured retry used up.
   */
  lemma OverOnlyForCause(loops: bool, maxRetries: int, actions: seq<Action>)
    requires var p := AnyRun(loops, maxRetries, actions); !p.stopping && p.control.Over?
    ensures var p := AnyRun(loops, maxRetries, actions);
            || (!loops && p.phase.ProxyEnded? && exists k :: EndReturned(p, k))
            || (maxRetries >= 0 && p.phase.ProxyFailed? && p.retries == maxRetries)
  {
    BeginHolds(loops, maxRetries);
    PlayKeeps(Begin(loops, maxRetries), actions);
    var p := AnyRun(loops, maxRetries, actions);
    assert p.terminal == Some(AtEnd) ==> EndReturned(p, p.info.value);
    hide Inv;
    PlayKeepsGoing(Begin(loops, maxRetries), actions);
  }

  // ----- how it goes on

  /** A looping input goes on after its end; one that broke goes on while retries are left. */
  predicate Reconnects(p: Proxy, cause: Terminal) {
    match cause
    case AtEnd => p.loops
    case Broken => p.maxRetries < 0 || p.retries < p.maxRetries
    case Aborted => false
  }

  /** How many of its own steps the control thread is away from another connection, if it is on its way to one. */
  function Way(p: Proxy): Option<nat> {
    match p.control
    case Create => Some(1)
    case Top => Some(2)
    case Backoff => Some(3)
    case Announce(follow) => if follow.Backoff? then Some(4) else None
    case Decide(cause) => if cause.Some? && Reconnects(p, cause.value) then Some(5) else None
    case Forget(cause) => if cause.Some? && Reconnects(p, cause.value) then Some(6) else None
    case Shut(cause) => if cause.Some? && Reconnects(p, cause.value) then Some(7) else None
    case Withdraw(cause) => if cause.Some? && Reconnects(p, cause.value) then Some(8) else None
    case Await => if p.terminal.Some? && Reconnects(p, p.terminal.value) then Some(9) else None
    case _ => None
  }

  /** The steps of a run that the control thread takes. */
  ghost function Steers(p: Proxy, actions: seq<Action>): nat
    requires Inv(p)
    decreases actions
  {
    if actions == [] then 0
    else (if actions[0].Steer? then 1 else 0) + Steers(Step(p, actions[0]), actions[1..])
  }

  ghost predicate Created(p: Proxy, v: Proxy) {
    v.next > p.next
  }

  lemma SourceLeavesControl(p: Proxy, k: Id, e: InputEvent)
    requires InputMay(p, k, e)
    ensures LeavesControl(p, InputStep(p, k, e))
  {
  }

  lemma OthersLeaveControl(p: Proxy, a: Action)
    requires Inv(p) && Enabled(p, a) && !a.Steer?
    ensures LeavesControl(p, Apply(p, a).0)
  {
    if a.Read? || a.Pop? || a.GiveBack? || a.Acknowledge? || a.Retry? {
      ReaderKeepsGoing(p, a);
    } else {
      if a.Source? {
        SourceLeavesControl(p, a.input, a.event);
      }
      hide Inv, ControlStep, PopInput, InputStep, ReturnPacket, AcknowledgeEof;
    }
  }

  lemma OthersLeaveTheWay(p: Proxy, a: Action)
    requires Inv(p) && Enabled(p, a) && !a.Steer?
    ensures var v := Apply(p, a).0;
            v.next == p.next && (p.stopping ==> v.stopping) && (Way(p).Some? && !v.stopping ==> Way(v) == Way(p))
  {
    OthersLeaveControl(p, a);
    hide Inv, Enabled, Apply;
  }

  lemma SameMeans(p: Proxy, v: Proxy)
    requires v.loops == p.loops && v.maxRetries == p.maxRetries && v.retries == p.retries
    ensures forall cause :: Reconnects(v, cause) == Reconnects(p, cause)
  {
  }

  lemma DecideShortensTheWay(p: Proxy, connected: bool)
    requires p.control.Decide?
    ensures var v := ControlStep(p, connected);
            && v.next == p.next && v.stopping == p.stopping
            && (Way(p).Some? && !p.stopping ==> Way(v).Some? && Way(v).value < Way(p).value)
  {
  }

  lemma TurnShortensTheWay(p: Proxy, connected: bool)
    requires Controllable(p) && (Turning(p.control) || p.control.Await?)
    ensures var v := ControlStep(p, connected);
            && v.next == p.next && v.stopping == p.stopping
            && (Way(p).Some? && !p.stopping ==> Way(v).Some? && Way(v).value < Way(p).value)
  {
    if p.control.Decide? {
      hide ControlStep, Way;
      DecideShortensTheWay(p, connected);
    } else {
      SameMeans(p, ControlStep(p, connected));
      hide Reconnects;
    }
  }

  lemma SteerShortensTheWay(p: Proxy, connected: bool)
    requires Controllable(p)
    ensures var v := ControlStep(p, connected);
            && v.next >= p.next && v.stopping == p.stopping
            && (Way(p).Some? && !p.stopping ==>
                  Created(p, v) || (Way(v).Some? && Way(v).value < Way(p).value))
  {
    if Turning(p.control) || p.control.Await? {
      hide ControlStep, Way;
      TurnShortensTheWay(p, connected);
    }
  }

  lemma StepShortensTheWay(p: Proxy, a: Action)
    requires Inv(p)
    ensures var v := Step(p, a);
            && v.next >= p.next && (p.stopping ==> v.stopping)
            && (Way(p).Some? && !v.stopping ==>
                  || Created(p, v)
                  || (Way(v).Some? && (if a.Steer? then Way(v).value < Way(p).value else Way(v) == Way(p))))
  {
    if a.Steer? {
      WayIsControllable(p);
      if Controllable(p) {
        SteerShortensTheWay(p, a.connected);
      }
    } else if Enabled(p, a) {
      OthersLeaveTheWay(p, a);
    }
    hide Inv, ControlStep, Way;
  }

  lemma WayIsControllable(p: Proxy)
    requires Inv(p)
    ensures Way(p).Some? ==> Controllable(p)
  {
    hide Offered, Justified, EndsKept, ReaderHolds, PacketsKept, Ordered;
  }

  /**
   * However other threads interleave, a control thread that is awaiting the end just acknowledged of a looping input,
   * or the failure of one with retries left, or is anywhere beyond that, has created another connection once it has
   * taken as many steps of its own as it was away from one, nine at most, unless the proxy is stopping.
   */
  lemma {:induction false} AnotherConnectionComes(p: Proxy, actions: seq<Action>)
    requires Inv(p) && Way(p).Some? && Steers(p, actions) >= Way(p).value
    ensures Way(p).value <= 9 && (Play(p, actions).stopping || Created(p, Play(p, actions)))
    decreases actions
  {
    hide Inv, Step, Way;
    WayIsShort(p);
    var v := Step(p, actions[0]);
    StepShortensTheWay(p, actions[0]);
    if v.stopping || Created(p, v) {
      NothingIsUndone(v, actions[1..]);
    } else {
      AnotherConnectionComes(v, actions[1..]);
    }
  }

  lemma WayIsShort(p: Proxy)
    requires Way(p).Some?
    ensures 1 <= Way(p).value <= 9
  {
  }

  lemma {:induction false} NothingIsUndone(p: Proxy, actions: seq<Action>)
    requires Inv(p)
    ensures var v := Play(p, actions); v.next >= p.next && (p.stopping ==> v.stopping)
    decreases actions
  {
    hide Inv, Step, Way;
    if actions != [] {
      StepShortensTheWay(p, actions[0]);
      NothingIsUndone(Step(p, actions[0]), actions[1..]);
    }
  }

  /** An end that the reader of a looping input acknowledges puts the control thread on its way. */
  lemma AcknowledgedEndIsOnTheWay(p: Proxy)
    requires Inv(p) && p.reader.AtEof? && p.loops && !p.stopping
    ensures Way(AcknowledgeEof(p).0) == Some(9)
  {
    hide Numbered, Offered, Justified, EndsKept, PacketsKept, Ordered;
  }

  /**
   * So does a connection that cannot be opened, and the news that the current one has broken, while retries are left.
   */
  lemma BrokenInputIsOnTheWay(p: Proxy)
    requires Inv(p) && !p.stopping && (p.maxRetries < 0 || p.retries < p.maxRetries)
    ensures p.control.Open? && Controllable(p) ==> Way(ControlStep(p, false)) == Some(8)
    ensures p.control.Await? && p.terminal.None? && p.input.Some? ==>
              Way(InputChanged(p, p.input.value, Failed)) == Some(9)
  {
    hide Inv;
  }

  // ----- what a read comes back with

  /** A reader outside, with news read and an input offered, nothing being over. */
  ghost predicate Offering(p: Proxy) {
    && p.reader.Outside? && p.available && p.input.Some?
    && !p.stateChanged && !p.stopping && !TerminalPhase(p.phase) && !EndKnown(p)
    && p.input.value in p.connections && !p.connections[p.input.value].cancelled
  }

  lemma ReadEnters(p: Proxy)
    requires Inv(p) && Offering(p)
    ensures Step(p, Read) == p.(reader := Inside(p.input.value, p.input.value))
  {
    hide Ordered, PacketsKept;
  }

  lemma PopTakes(p: Proxy)
    requires Inv(p) && p.reader.Inside? && p.reader.input in p.connections
    requires !p.connections[p.reader.input].cancelled && p.connections[p.reader.input].buffered != []
    ensures var (k, c, v) := (p.reader.input, p.connections[p.reader.input], Step(p, Pop));
            && v.reader == Popped(k, p.reader.info, c.buffered[0]) && v.returned == p.returned
            && k in v.connections && v.connections[k].state == c.state && !v.connections[k].cancelled
  {
    hide Inv;
  }

  lemma GiveBackReturns(p: Proxy)
    requires Inv(p) && p.reader.Popped? && p.reader.input in p.connections
    requires var c := p.connections[p.reader.input]; !c.cancelled && !c.state.Closed? && !c.state.Cancelled?
    ensures Step(p, GiveBack).returned == p.returned + [Packet(p.reader.info, p.reader.content)]
  {
    hide Inv;
  }

  /** A packet that waits in an offered input is what the next read returns, with the description of that input. */
  lemma WaitingPacketIsReturned(p: Proxy)
    requires Inv(p) && Offering(p) && p.connections[p.input.value].buffered != []
    ensures var k := p.input.value;
            Play(p, [Read, Pop, GiveBack]).returned == p.returned + [Packet(k, p.connections[k].buffered[0])]
  {
    ReadEnters(p);
    assert ConnectionKept(p, p.input.value);
    hide Inv, Step;
    PopTakes(Step(p, Read));
    GiveBackReturns(Step(Step(p, Read), Pop));
    ThreeSteps(p, Read, Pop, GiveBack);
  }

  lemma PopComesToTheEnd(p: Proxy)
    requires Inv(p) && p.reader.Inside? && p.reader.input in p.connections
    requires var c := p.connections[p.reader.input]; !c.cancelled && c.buffered == [] && c.state.Ended?
    ensures Step(p, Pop) == p.(reader := AtEof(p.reader.input, p.reader.info))
  {
    hide Inv;
  }

  lemma AcknowledgeReturns(p: Proxy)
    requires Inv(p) && p.reader.AtEof?
    ensures Step(p, Acknowledge).returned == p.returned + [Eof(p.reader.info)]
  {
    hide Inv;
  }

  /** An end that waits there is what the next read returns, once nothing is left before it. */
  lemma WaitingEndIsReturned(p: Proxy)
    requires Inv(p) && Offering(p)
    requires p.connections[p.input.value].buffered == [] && p.connections[p.input.value].state.Ended?
    ensures Play(p, [Read, Pop, Acknowledge]).returned == p.returned + [Eof(p.input.value)]
  {
    ReadEnters(p);
    hide Inv, Step;
    PopComesToTheEnd(Step(p, Read));
    AcknowledgeReturns(Step(Step(p, Read), Pop));
    ThreeSteps(p, Read, Pop, Acknowledge);
  }

  lemma ThreeSteps(p: Proxy, a: Action, b: Action, d: Action)
    requires Inv(p)
    ensures Play(p, [a, b, d]) == Step(Step(Step(p, a), b), d)
  {
    hide Inv, Step;
    var q := Step(Step(p, a), b);
    assert [a, b, d][1..] == [b, d] && [b, d][1..] == [d] && [d][1..] == [];
    assert Play(q, [d]) == Play(Step(q, d), []);
  }
}
