/** What each decoder accepts, exactly: the items sent to it, with one reset at every change of connection. */
module MediaOrder {
  import opened Results
  import InputProxy
  import opened MediaSource
  import D = Decoder

  // ----- what the returned items owe a decoder

  /** The connection has changed before the last item. */
  predicate Turns(items: seq<InputProxy.Item>) {
    |items| > 1 && items[|items| - 2].info != items[|items| - 1].info
  }

  /** The last item's reset, if it needs one. */
  ghost function Base(items: seq<InputProxy.Item>, routes: seq<bool>, audio: bool): seq<D.Entry>
    requires |routes| == |items| > 0
    decreases |items|, 0
  {
    Owed(items[..|items| - 1], routes[..|items| - 1], audio) + if Turns(items) then [D.Reset] else []
  }

  /**
   * A reset at every change of connection, every end, and the packets of one's own track; `routes` says of each packet
   * whether it is audio.
   */
  ghost function Owed(items: seq<InputProxy.Item>, routes: seq<bool>, audio: bool): seq<D.Entry>
    requires |routes| == |items|
    decreases |items|, 1
  {
    if items == [] then []
    else
      var last := items[|items| - 1];
      Base(items, routes, audio) + if last.Eof? || routes[|items| - 1] == audio then [D.Feed(last)] else []
  }

  /** At how many places the connection changes. */
  function Changes(items: seq<InputProxy.Item>): nat {
    if items == [] then 0 else Changes(items[..|items| - 1]) + if Turns(items) then 1 else 0
  }

  function Resets(accepted: seq<D.Entry>): nat {
    multiset(accepted)[D.Reset]
  }

  lemma {:induction false} OwedResets(items: seq<InputProxy.Item>, routes: seq<bool>, audio: bool)
    requires |routes| == |items|
    ensures Resets(Owed(items, routes, audio)) == Changes(items)
    decreases |items|
  {
    if items != [] {
      OwedResets(items[..|items| - 1], routes[..|items| - 1], audio);
    }
  }

  lemma PrefixResets(accepted: seq<D.Entry>, owed: seq<D.Entry>)
    requires accepted <= owed
    ensures Resets(accepted) <= Resets(owed)
  {
    assert owed == accepted + owed[|accepted|..];
  }

  lemma OwedSnoc(items: seq<InputProxy.Item>, routes: seq<bool>, x: InputProxy.Item, route: bool, audio: bool)
    requires |routes| == |items|
    ensures Owed(items, routes, audio) <= Base(items + [x], routes + [route], audio)
    ensures Base(items + [x], routes + [route], audio) <= Owed(items + [x], routes + [route], audio)
  {
    assert (items + [x])[..|items|] == items && (routes + [route])[..|items|] == routes;
  }

  // ----- the invariant

  ghost predicate Has(d: Option<D.State>, entries: seq<D.Entry>) {
    d.Some? ==> d.value.accepted == entries
  }

  ghost predicate Within(d: Option<D.State>, entries: seq<D.Entry>) {
    d.Some? ==> d.value.accepted <= entries
  }

  ghost predicate AtEnd(items: seq<InputProxy.Item>) {
    items != [] && items[|items| - 1].Eof?
  }

  /** Everything owed for these items has been accepted. */
  ghost predicate UpToDate(s: Media, items: seq<InputProxy.Item>, routes: seq<bool>)
    requires |routes| == |items|
  {
    && Has(s.video, Owed(items, routes, false)) && Has(s.audio, Owed(items, routes, true))
    && (s.session || items == [])
    && (s.dispatched == if items == [] then None else Some(items[|items| - 1].info))
    && (s.finalEof <==> !s.proxy.loops && AtEnd(items))
  }

  ghost predicate InPlace(s: Media, routes: seq<bool>)
    requires |routes| == |s.proxy.returned|
  {
    var (items, n) := (s.proxy.returned, |s.proxy.returned|);
    match s.dispatcher
    case AtTop => s.Halted() || UpToDate(s, items, routes)
    case Reading => !s.finalEof && (s.Halted() || UpToDate(s, items, routes))
    case Holding(_) => n > 0 && !s.finalEof && (s.Halted() || UpToDate(s, items[..n - 1], routes[..n - 1]))
    case Resetting(item, audio) =>
      && n > 0 && !s.finalEof && Turns(items)
      && Has(s.video, if audio then Base(items, routes, false) else Owed(items[..n - 1], routes[..n - 1], false))
      && Has(s.audio, Owed(items[..n - 1], routes[..n - 1], true))
    case Feeding(item, audio) =>
      && n > 0 && !s.finalEof
      && Has(s.video, Base(items, routes, false) + if audio then [D.Feed(item)] else [])
      && Has(s.audio, Base(items, routes, true))
    case Finished => true
  }

  ghost predicate Exact(s: Media, routes: seq<bool>) {
    && |routes| == |s.proxy.returned|
    && Within(s.video, Owed(s.proxy.returned, routes, false))
    && Within(s.audio, Owed(s.proxy.returned, routes, true))
    && InPlace(s, routes)
  }

  // ----- every step keeps it

  /** Nothing accepted, nothing returned. */
  ghost predicate SameRecord(s: Media, v: Media) {
    && v.proxy.returned == s.proxy.returned && v.session == s.session && v.dispatched == s.dispatched
    && v.finalEof == s.finalEof && v.proxy.loops == s.proxy.loops
    && v.video.Some? == s.video.Some? && (v.video.Some? ==> v.video.value.accepted == s.video.value.accepted)
    && v.audio.Some? == s.audio.Some? && (v.audio.Some? ==> v.audio.value.accepted == s.audio.value.accepted)
  }

  lemma SameRecordKeeps(s: Media, v: Media, routes: seq<bool>)
    requires Exact(s, routes) && SameRecord(s, v) && (s.Halted() ==> v.Halted())
    requires v.dispatcher == s.dispatcher || v.dispatcher.Finished? || (s.dispatcher.AtTop? && v.dispatcher.Reading?)
          || (s.dispatcher.Reading? && v.dispatcher.AtTop?)
    requires v.dispatcher.Reading? ==> s.dispatcher.Reading? || !v.finalEof
    ensures Exact(v, routes)
  {
    hide Owed, Base;
  }

  lemma RelayExact(s: Media, step: InputProxy.Action, routes: seq<bool>) returns (r: seq<bool>)
    requires Inv(s) && Exact(s, routes) && Enabled(s, Proxied(step))
    ensures Exact(Relayed(s, step), r)
  {
    InputProxy.ApplyReturns(s.proxy, step);
    ReaderLeavesWithAnswer(s.proxy, step);
    var (proxy, answer) := InputProxy.Apply(s.proxy, step);
    hide Inv, InputProxy.Apply, Exact, InputProxy.Enabled;
    if answer.Answered? {
      r := routes + [false];
      ArrivalExact(s, Relayed(s, step), answer.item, routes);
    } else {
      r := routes;
      SameRecordKeeps(s, Relayed(s, step), routes);
    }
  }

  lemma ArrivalExact(s: Media, v: Media, x: InputProxy.Item, routes: seq<bool>)
    requires Exact(s, routes) && s.dispatcher.Reading? && v.dispatcher == Holding(x)
    requires SameRecord(s.(proxy := s.proxy.(returned := s.proxy.returned + [x])), v) && (s.Halted() ==> v.Halted())
    ensures Exact(v, routes + [false])
  {
    var items := s.proxy.returned;
    OwedSnoc(items, routes, x, false, false);
    OwedSnoc(items, routes, x, false, true);
    assert (items + [x])[..|items|] == items && (routes + [false])[..|items|] == routes;
    hide Owed, Base;
  }

  lemma InitializedExact(s: Media, video: bool, audio: bool, routes: seq<bool>)
    requires Exact(s, routes) && (s.dispatcher.AtTop? || s.dispatcher.Holding?)
    requires !s.session ==> s.video.None? && s.audio.None?
    ensures Exact(Initialized(s, video, audio), routes)
  {
    var items, n := s.proxy.returned, |s.proxy.returned|;
    if s.dispatcher.Holding? && n > 0 && items[..n - 1] == [] {
      assert Owed(items[..n - 1], routes[..n - 1], true) == [] && Owed(items[..n - 1], routes[..n - 1], false) == [];
    }
    if items == [] {
      assert Owed(items, routes, true) == [] && Owed(items, routes, false) == [];
    }
    hide Owed, Base;
  }

  lemma RoutedExact(s: Media, routes: seq<bool>)
    requires Exact(s, routes) && s.dispatcher.Holding? && LastIs(s, s.dispatcher.item)
    ensures Exact(Routed(s, s.dispatcher.item), routes)
  {
    var items, n := s.proxy.returned, |s.proxy.returned|;
    assert n > 1 ==> items[..n - 1][n - 2] == items[n - 2];
    if !Turns(items) {
      assert Base(items, routes, false) == Owed(items[..n - 1], routes[..n - 1], false);
      assert Base(items, routes, true) == Owed(items[..n - 1], routes[..n - 1], true);
    }
    hide Owed, Base;
  }

  lemma TakeExact(s: Media, video: bool, audio: bool, routes: seq<bool>)
    requires Inv(s) && Exact(s, routes) && s.dispatcher.Holding?
    ensures Exact(Taken(s, video, audio), routes)
  {
    NoDecodersYet(s);
    InitializedExact(s, video, audio, routes);
    assert LastIs(s, s.dispatcher.item);
    hide Inv, Exact, Routed;
    var t := Initialized(s, video, audio);
    if !t.dispatcher.Finished? {
      RoutedExact(t, routes);
    }
  }

  lemma AbortExact(s: Media, v: Media, routes: seq<bool>)
    requires Exact(s, routes) && SameRecord(s, v) && (v.dispatcher.Finished? || (v.dispatcher.AtTop? && v.Halted()))
    ensures Exact(v, routes)
  {
    hide Owed, Base;
  }

  /** The decoder with one more entry. */
  ghost predicate Grown(before: Option<D.State>, after: Option<D.State>, e: D.Entry) {
    before.Some? && after.Some? && after.value.accepted == before.value.accepted + [e]
  }

  /** A submission adds its entry and goes on, or ends the dispatch; only an absent track is passed over. */
  ghost predicate Outcome(s: Media, audio: bool, e: D.Entry, follow: Media, v: Media) {
    if s.Of(audio).None? then v == follow
    else
      || (SameRecord(s, v) && (v.dispatcher.Finished? || (v.dispatcher.AtTop? && v.Halted())))
      || (&& Grown(s.Of(audio), v.Of(audio), e) && v.Of(!audio) == s.Of(!audio)
          && v == follow.With(audio, v.Of(audio).value))
  }

  lemma PushCases(d: D.State, e: D.Entry)
    ensures var (after, admission) := D.Push(d, e);
            match admission
            case Accepted => after.accepted == d.accepted + [e]
            case Refused => after == d && (d.stopping || d.failed)
            case Rejected => after == d
  {
  }

  lemma SubmissionOutcome(s: Media, audio: bool, e: D.Entry, follow: Media)
    requires Dispatching(s) && follow.video == s.video && follow.audio == s.audio
    ensures Outcome(s, audio, e, follow, ControlSubmitted(s, e, audio, follow))
  {
    hide LastIs;
    if s.Of(audio).Some? {
      PushCases(s.Of(audio).value, e);
      hide D.Push;
      match D.Push(s.Of(audio).value, e).1
      case Accepted =>
        var v := follow.With(audio, D.Push(s.Of(audio).value, e).0);
        assert Grown(s.Of(audio), v.Of(audio), e);
      case Refused =>
        assert SameRecord(s, GivenUp(s, s.Of(audio).value));
      case Rejected =>
    }
  }

  lemma ResetExact(s: Media, toAudio: bool, routes: seq<bool>)
    requires Dispatching(s) && Exact(s, routes) && s.dispatcher.Resetting?
    ensures Exact(Dispatched(s, toAudio), routes)
  {
    var items, n := s.proxy.returned, |s.proxy.returned|;
    var audio := s.dispatcher.audio;
    var follow := if audio
      then s.(dispatched := Some(s.dispatcher.item.info), dispatcher := Feeding(s.dispatcher.item, false))
      else s.(dispatcher := Resetting(s.dispatcher.item, true));
    SubmissionOutcome(s, audio, D.Reset, follow);
    forall which
      ensures Owed(items[..n - 1], routes[..n - 1], which) + [D.Reset] == Base(items, routes, which)
      ensures Base(items, routes, which) <= Owed(items, routes, which)
      ensures Base(items, routes, which) + [] == Base(items, routes, which)
    {
    }
    ResetLands(s, follow, Dispatched(s, toAudio), routes);
  }

  lemma ResetLands(s: Media, follow: Media, v: Media, routes: seq<bool>)
    requires Exact(s, routes) && s.dispatcher.Resetting? && s.proxy.returned != []
    requires Outcome(s, s.dispatcher.audio, D.Reset, follow, v)
    requires follow == if s.dispatcher.audio
      then s.(dispatched := Some(s.dispatcher.item.info), dispatcher := Feeding(s.dispatcher.item, false))
      else s.(dispatcher := Resetting(s.dispatcher.item, true))
    requires forall which ::
      var items, n := s.proxy.returned, |s.proxy.returned|;
      && Owed(items[..n - 1], routes[..n - 1], which) + [D.Reset] == Base(items, routes, which)
      && Base(items, routes, which) <= Owed(items, routes, which)
    ensures Exact(v, routes)
  {
    hide Owed, Base;
    if SameRecord(s, v) && (v.dispatcher.Finished? || (v.dispatcher.AtTop? && v.Halted())) {
      AbortExact(s, v, routes);
    }
  }

  /** Choosing the track of the last packet changes nothing of what came before. */
  lemma Rerouted(items: seq<InputProxy.Item>, routes: seq<bool>, toAudio: bool, audio: bool)
    requires |routes| == |items| > 0 && items[|items| - 1].Packet?
    ensures var r := routes[..|items| - 1] + [toAudio];
            && |r| == |items| && r[..|items| - 1] == routes[..|items| - 1]
            && Base(items, r, audio) == Base(items, routes, audio)
            && Owed(items, r, audio) ==
               Base(items, routes, audio) + if toAudio == audio then [D.Feed(items[|items| - 1])] else []
  {
    assert (routes[..|items| - 1] + [toAudio])[..|items| - 1] == routes[..|items| - 1];
  }

  lemma PacketExact(s: Media, toAudio: bool, routes: seq<bool>) returns (r: seq<bool>)
    requires Dispatching(s) && Exact(s, routes) && s.dispatcher.Feeding? && s.dispatcher.item.Packet?
    requires s.dispatched == Some(s.dispatcher.item.info)
    ensures Exact(Dispatched(s, toAudio), r)
  {
    var items, n := s.proxy.returned, |s.proxy.returned|;
    var entry, follow := D.Feed(s.dispatcher.item), s.(dispatcher := AtTop);
    r := routes[..n - 1] + [toAudio];
    Rerouted(items, routes, toAudio, false);
    Rerouted(items, routes, toAudio, true);
    SubmissionOutcome(s, toAudio, entry, follow);
    assert InPlace(s, r) && Exact(s, r) by {
      hide Owed, Base;
    }
    var v := Dispatched(s, toAudio);
    if SameRecord(s, v) && (v.dispatcher.Finished? || (v.dispatcher.AtTop? && v.Halted())) {
      AbortExact(s, v, r);
    } else {
      PacketLands(s, v, toAudio, r);
    }
  }

  lemma PacketLands(s: Media, v: Media, toAudio: bool, routes: seq<bool>)
    requires Exact(s, routes) && Dispatching(s) && s.dispatcher.Feeding? && s.dispatcher.item.Packet?
    requires s.dispatched == Some(s.dispatcher.item.info)
    requires Grown(s.Of(toAudio), v.Of(toAudio), D.Feed(s.dispatcher.item))
    requires v == s.(dispatcher := AtTop).With(toAudio, v.Of(toAudio).value)
    requires forall audio ::
      Owed(s.proxy.returned, routes, audio) ==
      Base(s.proxy.returned, routes, audio) + if toAudio == audio then [D.Feed(s.dispatcher.item)] else []
    ensures Exact(v, routes)
  {
    hide Owed, Base;
  }

  lemma EofExact(s: Media, toAudio: bool, routes: seq<bool>)
    requires Dispatching(s) && Exact(s, routes) && s.dispatcher.Feeding? && s.dispatcher.item.Eof?
    requires s.dispatched == Some(s.dispatcher.item.info)
    ensures Exact(Dispatched(s, toAudio), routes)
  {
    var audio, item := s.dispatcher.audio, s.dispatcher.item;
    var follow := if audio then s.(finalEof := s.finalEof || !s.proxy.loops, dispatcher := AtTop)
      else s.(dispatcher := Feeding(item, true));
    SubmissionOutcome(s, audio, D.Feed(item), follow);
    forall which
      ensures Base(s.proxy.returned, routes, which) + [D.Feed(item)] == Owed(s.proxy.returned, routes, which)
    {
    }
    EofLands(s, follow, Dispatched(s, toAudio), routes);
  }

  lemma EofLands(s: Media, follow: Media, v: Media, routes: seq<bool>)
    requires Exact(s, routes) && Dispatching(s) && s.dispatcher.Feeding?
    requires s.dispatched == Some(s.dispatcher.item.info)
    requires Outcome(s, s.dispatcher.audio, D.Feed(s.dispatcher.item), follow, v)
    requires follow == if s.dispatcher.audio
      then s.(finalEof := s.finalEof || !s.proxy.loops, dispatcher := AtTop)
      else s.(dispatcher := Feeding(s.dispatcher.item, true))
    requires forall which ::
      Base(s.proxy.returned, routes, which) + [D.Feed(s.dispatcher.item)] == Owed(s.proxy.returned, routes, which)
    ensures Exact(v, routes)
  {
    hide Owed, Base;
    if SameRecord(s, v) && (v.dispatcher.Finished? || (v.dispatcher.AtTop? && v.Halted())) {
      AbortExact(s, v, routes);
    }
  }

  lemma SubmitExact(s: Media, toAudio: bool, routes: seq<bool>) returns (r: seq<bool>)
    requires Inv(s) && Exact(s, routes) && (s.dispatcher.Resetting? || s.dispatcher.Feeding?)
    ensures Exact(Dispatched(s, toAudio), r)
  {
    hide Inv, Dispatched, Exact, Dispatching;
    r := routes;
    InvDispatching(s);
    if s.dispatcher.Resetting? {
      ResetExact(s, toAudio, routes);
    } else {
      FeedingIsNoted(s);
      if s.dispatcher.item.Packet? {
        r := PacketExact(s, toAudio, routes);
      } else {
        EofExact(s, toAudio, routes);
      }
    }
  }

  lemma ApplyExact(s: Media, a: Action, routes: seq<bool>) returns (r: seq<bool>)
    requires Inv(s) && Exact(s, routes) && Enabled(s, a)
    ensures Exact(Apply(s, a), r)
  {
    hide Inv, Relayed, Connected, Taken, Dispatched, Exact, Looped;
    r := routes;
    match a
    case Proxied(step) => r := RelayExact(s, step, routes);
    case Connect(video, audio) =>
      NoDecodersYet(s);
      ConnectExact(s, video, audio, routes);
    case Take(video, audio) => TakeExact(s, video, audio, routes);
    case SubmitNext(toAudio) =>
      r := SubmitExact(s, toAudio, routes);
    case _ => QuietExact(s, a, routes);
  }

  lemma FeedingIsNoted(s: Media)
    requires Inv(s) && s.dispatcher.Feeding?
    ensures s.dispatched == Some(s.dispatcher.item.info)
  {
    hide InputProxy.Inv, D.Holds, D.Scan;
  }

  /** The other steps neither return an item nor submit one. */
  lemma QuietExact(s: Media, a: Action, routes: seq<bool>)
    requires Inv(s) && Exact(s, routes) && Enabled(s, a)
    requires !a.Proxied? && !a.Connect? && !a.Take? && !a.SubmitNext?
    ensures Exact(Apply(s, a), routes)
  {
    hide Exact, InputProxy.Inv, DispatchHolds, D.Holds, D.WantsFrame;
    SameRecordKeeps(s, Apply(s, a), routes);
  }

  lemma ConnectExact(s: Media, video: bool, audio: bool, routes: seq<bool>)
    requires Exact(s, routes) && s.dispatcher.AtTop?
    requires !s.session ==> s.video.None? && s.audio.None?
    ensures Exact(Connected(s, video, audio), routes)
  {
    hide Exact, Initialized;
    if !s.Halted() {
      InitializedExact(s, video, audio, routes);
    }
  }

  // ----- every interleaving

  lemma {:induction false} PlayExact(s: Media, actions: seq<Action>, routes: seq<bool>)
    returns (r: seq<bool>)
    requires Inv(s) && Exact(s, routes)
    ensures Exact(Play(s, actions), r)
    decreases actions
  {
    hide Inv, Apply, Enabled, Exact;
    r := routes;
    if actions != [] {
      if Enabled(s, actions[0]) {
        r := ApplyExact(s, actions[0], routes);
      }
      r := PlayExact(Step(s, actions[0]), actions[1..], r);
    }
  }

  lemma RunIsExact(loops: bool, maxRetries: int, actions: seq<Action>) returns (routes: seq<bool>)
    ensures Exact(AnyRun(loops, maxRetries, actions), routes)
  {
    BeginHolds(loops, maxRetries);
    hide Inv;
    routes := PlayExact(Begin(loops, maxRetries), actions, []);
  }

  /**
   * In every interleaving there is an assignment of packets to tracks such that each decoder has accepted, in order,
   * a part from the front of the returned items: its own packets, every end, and one reset wherever the connection
   * changes. While nothing halts and the dispatcher is at its top, it has accepted all of that.
   */
  lemma DecodersAcceptWhatIsOwed(loops: bool, maxRetries: int, actions: seq<Action>)
    ensures var s := AnyRun(loops, maxRetries, actions);
            exists routes: seq<bool> :: |routes| == |s.proxy.returned| &&
              forall audio :: s.Of(audio).Some? ==>
                var accepted, owed := s.Of(audio).value.accepted, Owed(s.proxy.returned, routes, audio);
                && accepted <= owed
                && (s.dispatcher.AtTop? && !s.Halted() ==> accepted == owed)
  {
    hide AnyRun, Owed;
    var routes := RunIsExact(loops, maxRetries, actions);
  }

  /**
   * A decoder is reset as often as the connection has changed, while nothing halts and the dispatcher is at its top,
   * and never more often.
   */
  lemma ResetsAreConnectionChanges(loops: bool, maxRetries: int, actions: seq<Action>, audio: bool)
    requires AnyRun(loops, maxRetries, actions).Of(audio).Some?
    ensures var s := AnyRun(loops, maxRetries, actions);
            var resets := Resets(s.Of(audio).value.accepted);
            && resets <= Changes(s.proxy.returned)
            && (s.dispatcher.AtTop? && !s.Halted() ==> resets == Changes(s.proxy.returned))
  {
    hide AnyRun, Owed, Resets, Changes;
    var s := AnyRun(loops, maxRetries, actions);
    var routes := RunIsExact(loops, maxRetries, actions);
    var owed := Owed(s.proxy.returned, routes, audio);
    OwedResets(s.proxy.returned, routes, audio);
    PrefixResets(s.Of(audio).value.accepted, owed);
  }

  /**
   * The dispatcher goes on reading until the last item returned is the end of a source that does not loop, and is done
   * once the decoders have drained after it.
   */
  lemma ReadingGoesOnUntilTheEnd(loops: bool, maxRetries: int, actions: seq<Action>, drained: bool)
    requires var s := AnyRun(loops, maxRetries, actions); s.dispatcher.AtTop? && !s.Halted()
    ensures var s := AnyRun(loops, maxRetries, actions);
            var next := Looped(s, drained).dispatcher;
            if s.proxy.loops || !AtEnd(s.proxy.returned) then next.Reading?
            else if drained then next.Finished? else next.AtTop?
  {
    hide Owed, Play;
    var routes := RunIsExact(loops, maxRetries, actions);
  }

  /** What may make the source fail: an exception, a failed proxy or decoder, or a track that is not there. */
  ghost predicate Cause(s: Media, a: Action) {
    match a
    case Throw => true
    case Report(_) => true
    case Proxied(step) => step.Steer? && s.proxy.control.Announce? && s.proxy.phase.ProxyFailed?
    case Connect(video, audio) => !s.session && !video && !audio
    case Take(video, audio) => !s.session && !video && !audio
    case SubmitNext(toAudio) =>
      || (s.video.Some? && s.video.value.failed) || (s.audio.Some? && s.audio.value.failed)
      || (s.dispatcher.Feeding? && s.dispatcher.item.Packet? && s.Of(toAudio).None?)
    case _ => false
  }

  lemma SubmissionFailsForCause(s: Media, audio: bool, e: D.Entry, follow: Media)
    requires s.Of(audio).Some? && follow.failure == s.failure && follow.stopping == s.stopping
    requires !Submitted(s, audio, e, follow).rejected
    ensures var v := Submitted(s, audio, e, follow);
            v.stopping == s.stopping && (v.failure ==> s.failure || s.Of(audio).value.failed)
  {
  }

  lemma DispatchFailsForCause(s: Media, toAudio: bool)
    requires s.dispatcher.Resetting? || s.dispatcher.Feeding?
    requires !s.rejected && !Dispatched(s, toAudio).rejected
    ensures var v := Dispatched(s, toAudio);
            && (v.failure && !s.failure ==> Cause(s, SubmitNext(toAudio)))
            && v.stopping == s.stopping
  {
    hide Submitted;
    forall audio, e, follow: Media | s.Of(audio).Some? && !Submitted(s, audio, e, follow).rejected
      ensures follow.failure == s.failure && follow.stopping == s.stopping ==>
        var v := Submitted(s, audio, e, follow);
        v.stopping == s.stopping && (v.failure ==> s.failure || s.Of(audio).value.failed)
    {
      if follow.failure == s.failure && follow.stopping == s.stopping {
        SubmissionFailsForCause(s, audio, e, follow);
      }
    }
  }

  /** The source fails only for such a cause, and stops only when asked to. */
  lemma HaltsOnlyForCause(s: Media, a: Action)
    requires Inv(s) && Enabled(s, a)
    ensures var v := Apply(s, a);
            && (v.failure && !s.failure ==> Cause(s, a))
            && (v.stopping <==> s.stopping || a.RequestStop?)
  {
    ApplyKeeps(s, a);
    assert !s.rejected && !Apply(s, a).rejected;
    assert a.SubmitNext? ==> s.dispatcher.Resetting? || s.dispatcher.Feeding?;
    hide Inv, InputProxy.Apply, Enabled, Dispatched;
    if a.SubmitNext? {
      DispatchFailsForCause(s, a.toAudio);
    }
  }

  /**
   * The first description that is seen, while nothing halts, creates the decoders of exactly the selected tracks, new
   * ones; later ones change nothing. Without a selected track the source fails.
   */
  lemma SelectedTracksHaveDecoders(s: Media, video: bool, audio: bool)
    requires Inv(s) && s.dispatcher.AtTop? && !s.Halted()
    ensures var v := Apply(s, Connect(video, audio));
            if s.session then v == s
            else if !video && !audio then v.failure && v.dispatcher.Finished? && v.video.None? && v.audio.None?
            else
              && v.session && !v.failure && v.dispatcher.AtTop?
              && (v.video.Some? <==> video) && (v.audio.Some? <==> audio)
              && (v.video.Some? ==> v.video == Some(D.NEW)) && (v.audio.Some? ==> v.audio == Some(D.NEW))
  {
    NoDecodersYet(s);
    hide Inv;
  }

  // ----- what the codecs are told

  ghost predicate Mirrored(d: Option<D.State>) {
    d.Some? ==> D.Mirrors(d.value)
  }

  ghost predicate BothMirrored(s: Media) {
    Mirrored(s.video) && Mirrored(s.audio)
  }

  lemma SubmittedMirrors(s: Media, audio: bool, e: D.Entry, follow: Media)
    requires BothMirrored(s) && follow.video == s.video && follow.audio == s.audio
    ensures BothMirrored(ControlSubmitted(s, e, audio, follow))
  {
    hide D.Mirrors;
    if s.Of(audio).Some? {
      var (after, admission) := D.Push(s.Of(audio).value, e);
      PushCases(s.Of(audio).value, e);
      D.PushMirrors(s.Of(audio).value, e);
      hide D.Push;
      match admission
      case Accepted => assert BothMirrored(follow.With(audio, after));
      case Refused => assert GivenUp(s, after).video == s.video && GivenUp(s, after).audio == s.audio;
      case Rejected =>
    }
  }

  lemma SubmissionMirrors(s: Media, toAudio: bool)
    requires BothMirrored(s) && (s.dispatcher.Resetting? || s.dispatcher.Feeding?)
    ensures BothMirrored(Dispatched(s, toAudio))
  {
    var item, audio := s.dispatcher.item, s.dispatcher.audio;
    var follow :=
      if s.dispatcher.Resetting? then
        if audio then s.(dispatched := Some(item.info), dispatcher := Feeding(item, false))
        else s.(dispatcher := Resetting(item, true))
      else if item.Packet? then s.(dispatcher := AtTop)
      else if audio then s.(finalEof := s.finalEof || !s.proxy.loops, dispatcher := AtTop)
      else s.(dispatcher := Feeding(item, true));
    var entry := if s.dispatcher.Resetting? then D.Reset else D.Feed(item);
    SubmittedMirrors(s, if s.dispatcher.Feeding? && item.Packet? then toAudio else audio, entry, follow);
    hide Submitted, D.Mirrors;
  }

  lemma ApplyMirrors(s: Media, a: Action)
    requires Inv(s) && BothMirrored(s) && Enabled(s, a)
    ensures BothMirrored(Apply(s, a))
  {
    NewMirrors();
    hide Inv, InputProxy.Apply, D.Mirrors, Dispatched, D.Turn, D.NEW;
    match a
    case Work(audio, answer, sent) => D.TurnMirrors(s.Of(audio).value, answer, sent);
    case StopDecoder(audio) => StoppedMirrors(s.Of(audio).value);
    case SubmitNext(toAudio) => SubmissionMirrors(s, toAudio);
    case _ =>
  }

  lemma StoppedMirrors(d: D.State)
    requires D.Mirrors(d)
    ensures D.Mirrors(d.(stopping := true))
  {
  }

  lemma NewMirrors()
    ensures forall stopping :: D.Mirrors(D.NEW.(stopping := stopping))
  {
  }

  lemma {:induction false} PlayMirrors(s: Media, actions: seq<Action>)
    requires Inv(s) && BothMirrored(s)
    ensures BothMirrored(Play(s, actions))
    decreases actions
  {
    hide Inv, Apply, Enabled, BothMirrored;
    if actions != [] {
      if Enabled(s, actions[0]) {
        ApplyMirrors(s, actions[0]);
      }
      PlayMirrors(Step(s, actions[0]), actions[1..]);
    }
  }

  /**
   * In every interleaving each codec has been told exactly the entries its worker took, in order: packets and ends
   * sent, resets flushed. What the decoder has put out is every frame and every end the codec has answered with, in
   * order.
   */
  lemma CodecsAreToldWhatIsAccepted(loops: bool, maxRetries: int, actions: seq<Action>, audio: bool)
    requires AnyRun(loops, maxRetries, actions).Of(audio).Some?
    ensures var d := AnyRun(loops, maxRetries, actions).Of(audio).value;
            && d.consumed <= |d.accepted|
            && D.Commands(d.calls) == D.AllTold(d.accepted[..d.consumed])
            && d.outputs == D.Answers(d.calls)
  {
    BeginHolds(loops, maxRetries);
    hide Inv;
    PlayMirrors(Begin(loops, maxRetries), actions);
    assert Mirrored(AnyRun(loops, maxRetries, actions).Of(audio));
  }
}
