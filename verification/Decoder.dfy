/** One decoder: who may submit what, and the worker that drives a codec with it. */
module Decoder {
  import opened Results
  import opened InputProxy

  /** What a decoder accepts: an item of some connection, or a reset. */
  datatype Entry = Feed(item: Item) | Reset

  datatype Admission = Accepted | Refused | Rejected

  datatype Received = Frame | Again | End | Error

  datatype Call = SendPacket | SendEof | Receive(answer: Received) | Flush

  datatype Output = FrameOut | EofOut

  /** The input side, the worker's variables, and the record of what was accepted, called and put out. */
  datatype State = State(
    stopping: bool, failed: bool, submittedEof: bool, accepted: seq<Entry>,
    consumed: nat, started: bool, drained: bool, hungry: bool,
    calls: seq<Call>, outputs: seq<Output>)

  const NEW := State(false, false, false, [], 0, false, false, false, [], [])

  // ----- admission

  function Push(d: State, e: Entry): (State, Admission) {
    if d.stopping || d.failed then (d, Refused)
    else if d.submittedEof && !e.Reset? then (d, Rejected)
    else (d.(accepted := d.accepted + [e], submittedEof := e.Feed? && e.item.Eof?), Accepted)
  }

  // ----- the order a decoder depends on

  /** Whether an end is waiting for a reset, and whose items came since the last one. */
  datatype Order = Order(ended: bool, connection: Option<Id>)

  function Scan(accepted: seq<Entry>): Order {
    if accepted == [] then Order(false, None)
    else
      match accepted[|accepted| - 1]
      case Reset => Order(false, None)
      case Feed(item) => Order(item.Eof?, Some(item.info))
  }

  /** The next item needs no reset before it. */
  predicate Follows(s: Order, item: Item) {
    !s.ended && (s.connection.None? || s.connection.value == item.info)
  }

  /**
   * Every item was allowed where it stands: a reset separates an end from what follows it, and one connection from the
   * next.
   */
  ghost predicate Abides(accepted: seq<Entry>) {
    forall i :: 0 <= i < |accepted| && accepted[i].Feed? ==> Follows(Scan(accepted[..i]), accepted[i].item)
  }

  // ----- the worker

  predicate WantsFrame(d: State) {
    d.started && !d.drained && !d.hungry
  }

  predicate Runnable(d: State, answer: Received) {
    && !d.stopping && !d.failed
    && (if WantsFrame(d) then answer.End? ==> Codec(d.calls) == Some(Draining)
        else d.consumed < |d.accepted|)
  }

  /**
   * One turn: take a frame while there are any, and input only when the codec asks for it. `sent` is whether the codec
   * takes what it is sent.
   */
  function Turn(d: State, answer: Received, sent: bool): (r: State)
    requires Runnable(d, answer)
    ensures r.accepted == d.accepted && r.stopping == d.stopping
  {
    if WantsFrame(d) then
      var called := d.(calls := d.calls + [Receive(answer)]);
      match answer
      case Frame => called.(outputs := d.outputs + [FrameOut])
      case Again => called.(hungry := true)
      case End => called.(outputs := d.outputs + [EofOut], drained := true)
      case Error => called.(failed := true)
    else
      var popped := d.(consumed := d.consumed + 1, hungry := false);
      match d.accepted[d.consumed]
      case Reset => popped.(calls := d.calls + [Flush], started := false, drained := false)
      case Feed(item) =>
        var called := popped.(calls := d.calls + [if item.Eof? then SendEof else SendPacket]);
        if sent then called.(started := true) else called.(failed := true)
  }

  // ----- the codec

  datatype CodecState = Fresh | Fed | Draining | Drained

  /**
   * What a codec allows: nothing is sent once it drains, and nothing is asked of it before it is fed or after it has
   * ended, until it is flushed. None is a misuse.
   */
  function CodecStep(s: CodecState, c: Call): Option<CodecState> {
    match c
    case Flush => Some(Fresh)
    case SendPacket => if s.Draining? || s.Drained? then None else Some(Fed)
    case SendEof => if s.Draining? || s.Drained? then None else Some(Draining)
    case Receive(answer) =>
      if s.Fresh? || s.Drained? then None
      else if answer.End? then (if s.Draining? then Some(Drained) else None)
      else Some(s)
  }

  function Codec(calls: seq<Call>): Option<CodecState> {
    if calls == [] then Some(Fresh)
    else
      var before := Codec(calls[..|calls| - 1]);
      if before.None? then None else CodecStep(before.value, calls[|calls| - 1])
  }

  // ----- what one decoder keeps

  ghost predicate WorkerHolds(d: State) {
    && d.consumed <= |d.accepted|
    && Codec(d.calls).Some?
    && var s := Codec(d.calls).value;
    && (!d.failed ==> (Scan(d.accepted[..d.consumed]).ended <==> s.Draining? || s.Drained?))
    && (!d.failed ==> (d.drained <==> s.Drained?) && (d.started <==> !s.Fresh?))
    && (d.hungry ==> d.started && !d.drained)
  }

  ghost predicate Holds(d: State) {
    Abides(d.accepted) && d.submittedEof == Scan(d.accepted).ended && WorkerHolds(d)
  }

  // ----- the codec is told what was accepted

  /** What an accepted entry makes the worker tell the codec. */
  function Told(e: Entry): Call {
    match e
    case Reset => Flush
    case Feed(item) => if item.Eof? then SendEof else SendPacket
  }

  function AllTold(entries: seq<Entry>): seq<Call> {
    seq(|entries|, i requires 0 <= i < |entries| => Told(entries[i]))
  }

  /** The calls that are not questions for a frame. */
  function Commands(calls: seq<Call>): seq<Call> {
    if calls == [] then []
    else
      var last := calls[|calls| - 1];
      Commands(calls[..|calls| - 1]) + if last.Receive? then [] else [last]
  }

  /** The frames and ends that the codec has answered with. */
  function Answers(calls: seq<Call>): seq<Output> {
    if calls == [] then []
    else
      Answers(calls[..|calls| - 1]) +
      match calls[|calls| - 1]
      case Receive(Frame) => [FrameOut]
      case Receive(End) => [EofOut]
      case _ => []
  }

  /** The codec has been told exactly the entries consumed, in order, and what it answered was put out. */
  ghost predicate Mirrors(d: State) {
    && d.consumed <= |d.accepted|
    && Commands(d.calls) == AllTold(d.accepted[..d.consumed])
    && d.outputs == Answers(d.calls)
  }

  lemma CallAdded(calls: seq<Call>, c: Call)
    ensures Commands(calls + [c]) == Commands(calls) + if c.Receive? then [] else [c]
    ensures Answers(calls + [c]) == Answers(calls) + match c
                                                    case Receive(Frame) => [FrameOut]
                                                    case Receive(End) => [EofOut]
                                                    case _ => []
  {
    assert (calls + [c])[..|calls|] == calls;
  }

  lemma TurnMirrors(d: State, answer: Received, sent: bool)
    requires Mirrors(d) && Runnable(d, answer)
    ensures Mirrors(Turn(d, answer, sent))
  {
    hide Commands, Answers, Codec;
    if WantsFrame(d) {
      CallAdded(d.calls, Receive(answer));
      assert d.outputs + [] == d.outputs;
    } else {
      CallAdded(d.calls, Told(d.accepted[d.consumed]));
      assert d.accepted[..d.consumed + 1] == d.accepted[..d.consumed] + [d.accepted[d.consumed]];
      assert Answers(d.calls) + [] == Answers(d.calls);
    }
  }

  lemma PushMirrors(d: State, e: Entry)
    requires Mirrors(d)
    ensures Mirrors(Push(d, e).0)
  {
    assert (d.accepted + [e])[..d.consumed] == d.accepted[..d.consumed];
  }

  lemma ScanSnoc(accepted: seq<Entry>, e: Entry)
    ensures Scan(accepted + [e]) ==
      match e case Reset => Order(false, None) case Feed(item) => Order(item.Eof?, Some(item.info))
  {
  }

  lemma AbidesSnoc(accepted: seq<Entry>, e: Entry)
    requires Abides(accepted) && (e.Feed? ==> Follows(Scan(accepted), e.item))
    ensures Abides(accepted + [e])
  {
    hide Scan, Follows;
    var grown := accepted + [e];
    forall i | 0 <= i < |grown| && grown[i].Feed?
      ensures Follows(Scan(grown[..i]), grown[i].item)
    {
      assert i <= |accepted| && grown[..i] == accepted[..i];
      if i == |accepted| {
        assert accepted[..i] == accepted && grown[i] == e;
      } else {
        assert grown[i] == accepted[i];
      }
    }
  }

  /** What waits in the queue does not concern the worker. */
  lemma WorkerIgnoresAdmission(d: State, after: State)
    requires WorkerHolds(d) && d.consumed <= |d.accepted| <= |after.accepted|
    requires after == d.(accepted := after.accepted, submittedEof := after.submittedEof)
    requires after.accepted[..|d.accepted|] == d.accepted
    ensures WorkerHolds(after)
  {
    hide Codec, Scan;
    assert after.accepted[..d.consumed] == after.accepted[..|d.accepted|][..d.consumed];
  }

  /**
   * Admission agrees with the order of what was accepted: a well-placed item is never rejected, and keeps the order.
   */
  lemma PushKeeps(d: State, e: Entry)
    requires Holds(d)
    requires e.Feed? ==> Follows(Scan(d.accepted), e.item)
    ensures var (after, admission) := Push(d, e);
            && Holds(after) && !admission.Rejected?
            && (admission.Refused? <==> d.stopping || d.failed)
            && (admission.Refused? ==> after == d)
            && (admission.Accepted? ==> after.accepted == d.accepted + [e])
            && after.stopping == d.stopping && after.failed == d.failed
  {
    hide Abides, WorkerHolds;
    var (after, admission) := Push(d, e);
    if admission.Accepted? {
      assert after.accepted[..|d.accepted|] == d.accepted;
      AbidesSnoc(d.accepted, e);
      ScanSnoc(d.accepted, e);
      assert d.consumed <= |d.accepted| by {
        ConsumedIsAccepted(d);
      }
      WorkerIgnoresAdmission(d, after);
    }
  }

  lemma ConsumedIsAccepted(d: State)
    requires WorkerHolds(d)
    ensures d.consumed <= |d.accepted|
  {
  }

  lemma CodecSnoc(calls: seq<Call>, c: Call)
    ensures Codec(calls + [c]) == if Codec(calls).None? then None else CodecStep(Codec(calls).value, c)
  {
    assert (calls + [c])[..|calls|] == calls;
  }

  /** A worker fed in order never misuses its codec. */
  lemma TurnKeeps(d: State, answer: Received, sent: bool)
    requires Holds(d) && Runnable(d, answer)
    ensures Holds(Turn(d, answer, sent))
  {
    hide Abides, Codec;
    var after := Turn(d, answer, sent);
    var c := after.calls[|d.calls|];
    CodecSnoc(d.calls, c);
    assert after.calls == d.calls + [c];
    if !WantsFrame(d) {
      InputFollows(d);
    }
  }

  lemma InputFollows(d: State)
    requires Abides(d.accepted) && d.consumed < |d.accepted|
    ensures var e := d.accepted[d.consumed];
            && (e.Feed? ==> !Scan(d.accepted[..d.consumed]).ended)
            && Scan(d.accepted[..d.consumed + 1]).ended == (e.Feed? && e.item.Eof?)
  {
    ScanSnoc(d.accepted[..d.consumed], d.accepted[d.consumed]);
    assert d.accepted[..d.consumed + 1] == d.accepted[..d.consumed] + [d.accepted[d.consumed]];
  }

  // ----- the object

  class AvDecoder {
    var stopping: bool
    var failed: bool
    var submittedEof: bool
    var packets: seq<Entry>
    ghost var taken: seq<Entry>
    // The worker's variables.
    var started: bool
    var drained: bool
    var hungry: bool
    ghost var calls: seq<Call>
    ghost var outputs: seq<Output>

    ghost function View(): State
      reads this
    {
      State(stopping, failed, submittedEof, taken + packets, |taken|, started, drained, hungry, calls, outputs)
    }

    constructor ()
      ensures View() == NEW
    {
      stopping, failed, submittedEof, packets := false, false, false, [];
      started, drained, hungry := false, false, false;
      taken, calls, outputs := [], [], [];
    }

    method Submit(e: Entry) returns (admission: Admission)
      modifies this
      ensures (View(), admission) == Push(old(View()), e)
    {
      if stopping || failed {
        return Refused;
      }
      if submittedEof && !e.Reset? {
        return Rejected;
      }
      assert taken + (packets + [e]) == taken + packets + [e];
      packets := packets + [e];
      submittedEof := e.Feed? && e.item.Eof?;
      return Accepted;
    }

    /** The worker takes what the codec answered. */
    method TakeFrame(answer: Received)
      requires WantsFrame(View()) && Runnable(View(), answer)
      modifies this
      ensures forall sent :: View() == Turn(old(View()), answer, sent)
    {
      calls := calls + [Receive(answer)];
      match answer
      case Frame => outputs := outputs + [FrameOut];
      case Again => hungry := true;
      case End =>
        outputs := outputs + [EofOut];
        drained := true;
      case Error => failed := true;
    }

    /** The worker hands the next input to the codec, or flushes it. */
    method TakeInput(sent: bool)
      requires !WantsFrame(View()) && packets != [] && !stopping && !failed
      modifies this
      ensures forall answer :: Runnable(old(View()), answer) ==> View() == Turn(old(View()), answer, sent)
    {
      var input := packets[0];
      assert (taken + packets)[|taken|] == input;
      assert taken + [input] + packets[1..] == taken + packets;
      packets := packets[1..];
      taken := taken + [input];
      hungry := false;
      match input
      case Reset =>
        calls := calls + [Flush];
        started, drained := false, false;
      case Feed(item) =>
        calls := calls + [if item.Eof? then SendEof else SendPacket];
        if sent {
          started := true;
        } else {
          failed := true;
        }
    }
  }
}
