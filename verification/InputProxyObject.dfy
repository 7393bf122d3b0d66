/** The reconnecting input as an object: its control loop and its reader, one critical section at a time. */
module InputProxyObject {
  import opened Results
  import P = InputProxy

  class AvInputProxy {
    const loops: bool
    const maxRetries: int
    var stopping: bool
    var available: bool
    var stateChanged: bool
    var phase: P.Phase
    var info: Option<P.Id>
    var terminal: Option<P.Terminal>
    var input: Option<P.Id>
    var retries: nat
    var connections: map<P.Id, P.Connection>
    var next: P.Id
    // Where the two threads are.
    var control: P.Control
    var reader: P.Reader
    ghost var returned: seq<P.Item>

    ghost function View(): P.Proxy
      reads this
    {
      P.Proxy(loops, maxRetries, stopping, available, stateChanged, phase, info, terminal, input, control, retries,
              connections, next, reader, returned)
    }

    constructor (loops: bool, maxRetries: int)
      ensures View() == P.Begin(loops, maxRetries)
    {
      this.loops, this.maxRetries := loops, maxRetries;
      stopping, available, stateChanged, phase := false, false, false, P.Connecting;
      info, terminal, input, retries := None, None, None, 0;
      connections, next, control, reader, returned := map[], 0, P.Top, P.Outside, [];
    }

    // ----- the control loop

    method Publish(state: P.Phase, follow: P.Control)
      modifies this`phase, this`control
      ensures View() == P.Published(old(View()), state, follow)
    {
      phase, control := state, P.Announce(follow);
    }

    /** Replaces the input before a new attempt. */
    method Connect()
      requires control.Create?
      modifies this
      ensures View() == P.ControlStep(old(View()), false) == P.ControlStep(old(View()), true)
    {
      connections := connections[next := P.Connection(P.Opening, false, [], [])];
      input, info, terminal := Some(next), None, None;
      next := next + 1;
      Publish(P.Connecting, P.Open);
    }

    method Open(connected: bool)
      requires control.Open? && P.Controllable(View())
      modifies this
      ensures View() == P.ControlStep(old(View()), connected)
    {
      var k := input.value;
      if stopping {
        control := P.Withdraw(None);
      } else if !connected {
        connections := connections[k := connections[k].(state := P.Failed)];
        control := P.Withdraw(Some(P.Broken));
      } else {
        connections := connections[k := connections[k].(state := P.Opened)];
        info, retries := Some(k), 0;
        Publish(P.Connected, P.Offer);
      }
    }

    /** Closes the old input: it stops being offered, is closed, and is let go. */
    method Retire()
      requires (control.Withdraw? || control.Shut? || control.Forget?) && P.Controllable(View())
      modifies this
      ensures View() == P.ControlStep(old(View()), false) == P.ControlStep(old(View()), true)
    {
      match control
      case Withdraw(cause) => available, control := false, P.Shut(cause);
      case Shut(cause) =>
        var k := input.value;
        connections := connections[k := connections[k].(state := P.Closed, cancelled := true, buffered := [])];
        control := P.Forget(cause);
      case Forget(cause) => input, control := None, P.Decide(cause);
    }

    /** After a connection: loop, end, give up, or back off and try again. */
    method DecideNext()
      requires control.Decide?
      modifies this
      ensures View() == P.ControlStep(old(View()), false) == P.ControlStep(old(View()), true)
    {
      var cause := control.cause;
      if stopping || cause.None? || cause.value.Aborted? {
        Publish(P.Stopped, P.Over);
      } else if cause.value.AtEnd? {
        if loops {
          control := P.Top;
        } else {
          Publish(P.ProxyEnded, P.Over);
        }
      } else if maxRetries >= 0 && retries >= maxRetries {
        Publish(P.ProxyFailed, P.Over);
      } else {
        retries := retries + 1;
        Publish(P.WaitingRetry, P.Backoff);
      }
    }

    /** One step of the control loop. */
    method Advance(connected: bool)
      requires P.Controllable(View())
      modifies this
      ensures View() == P.ControlStep(old(View()), connected)
    {
      match control
      case Top =>
        if stopping {
          Publish(P.Stopped, P.Over);
        } else {
          control := P.Create;
        }
      case Create => Connect();
      case Announce(follow) => stateChanged, control := true, follow;
      case Open => Open(connected);
      case Offer => available, control := !stopping, P.Await;
      case Await => control := P.Withdraw(if stopping then None else terminal);
      case Withdraw(_) => Retire();
      case Shut(_) => Retire();
      case Forget(_) => Retire();
      case Decide(_) => DecideNext();
      case Backoff =>
        if stopping {
          Publish(P.Stopped, P.Over);
        } else {
          control := P.Top;
        }
      case Over =>
    }

    method InputChanged(k: P.Id, state: P.InputState)
      modifies this`terminal
      ensures View() == P.InputChanged(old(View()), k, state)
    {
      if input != Some(k) {
        return;
      }
      if terminal.None? && (state.Failed? || state.Cancelled?) {
        terminal := Some(if state.Failed? then P.Broken else P.Aborted);
      }
    }

    // ----- the reader

    /** The beginning of a read: captures the input and its description together. */
    method EnterRead() returns (answer: P.Answer)
      requires reader.Outside? && P.Readable(View())
      requires available || P.EndKnown(View()) ==> info.Some?
      requires available ==> input.Some?
      modifies this
      ensures (View(), answer) == P.Enter(old(View()))
    {
      if stateChanged {
        stateChanged := false;
        return P.Nothing;
      }
      if stopping || phase.Stopped? || phase.ProxyFailed? {
        return P.Nothing;
      }
      if phase.ProxyEnded? || (!loops && terminal == Some(P.AtEnd)) {
        returned := returned + [P.Eof(info.value)];
        return P.Answered(P.Eof(info.value));
      }
      if !available {
        return P.Nothing;
      }
      reader := P.Inside(input.value, info.value);
      return P.Pending;
    }

    method PopInput()
      requires reader.Inside? && reader.input in connections
      requires connections[reader.input].buffered != [] || P.QueueClosed(connections[reader.input])
      modifies this`connections, this`reader
      ensures View() == P.PopInput(old(View()))
    {
      var k, c := reader.input, connections[reader.input];
      if c.cancelled {
        reader := P.Missed(k);
      } else if c.buffered != [] {
        connections := connections[k := c.(buffered := c.buffered[1..])];
        reader := P.Popped(k, reader.info, c.buffered[0]);
      } else if c.state.Ended? {
        reader := P.AtEof(k, reader.info);
      } else {
        reader := P.Missed(k);
      }
    }

    /** The end is acknowledged only by the reader of the current input, and only once. */
    method AcknowledgeEof() returns (answer: P.Answer)
      requires reader.AtEof?
      modifies this
      ensures (View(), answer) == P.AcknowledgeEof(old(View()))
    {
      var item := P.Eof(reader.info);
      if !stopping && input == Some(reader.input) && terminal.None? {
        terminal := Some(P.AtEnd);
        if loops {
          available := false;
        }
      }
      reader := P.Outside;
      returned := returned + [item];
      return P.Answered(item);
    }
  }
}
