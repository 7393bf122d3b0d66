/** The dispatcher: it reads the proxy, and keeps each decoder's input in order across loops and reconnections. */
module MediaSource {
  import opened Results
  import opened InputProxy
  import D = Decoder

  datatype Dispatcher =
    | AtTop
    | Reading
    | Holding(item: Item)
    | Resetting(item: Item, audio: bool)
    | Feeding(item: Item, audio: bool)
    | Finished

  datatype Media = Media(
    proxy: Proxy, stopping: bool, failure: bool,
    session: bool, video: Option<D.State>, audio: Option<D.State>,
    dispatched: Option<Id>, finalEof: bool, dispatcher: Dispatcher, rejected: bool)
  {
    function Of(isAudio: bool): Option<D.State> {
      if isAudio then audio else video
    }

    function With(isAudio: bool, d: D.State): Media {
      if isAudio then this.(audio := Some(d)) else this.(video := Some(d))
    }

    predicate Halted() {
      stopping || failure
    }
  }

  datatype Action =
    | Proxied(step: InputProxy.Action)
    | RequestStop
    | StopDecoder(audio: bool)
    | Report(audio: bool)
    | Work(audio: bool, answer: D.Received, sent: bool)
    | Throw
    | Connect(video: bool, audio: bool)
    | Top(drained: bool)
    | Take(video: bool, audio: bool)
    | SubmitNext(toAudio: bool)

  function Begin(loops: bool, maxRetries: int): Media {
    Media(InputProxy.Begin(loops, maxRetries), false, false, false, None, None, None, false, AtTop, false)
  }

  // ----- steps

  predicate ReaderStep(a: InputProxy.Action) {
    a.Read? || a.Pop? || a.GiveBack? || a.Acknowledge? || a.Retry?
  }

  ghost predicate Enabled(s: Media, a: Action)
  {
    match a
    case Proxied(step) =>
      && InputProxy.Enabled(s.proxy, step)
      && (ReaderStep(step) ==> s.dispatcher.Reading?)
      && (step.Stop? ==> s.Halted() || s.dispatcher.Finished?)
    case RequestStop => true
    case StopDecoder(audio) => s.Of(audio).Some? && (s.Halted() || s.dispatcher.Finished?)
    case Report(audio) => s.Of(audio).Some? && s.Of(audio).value.failed
    case Work(audio, answer, _) => s.Of(audio).Some? && D.Runnable(s.Of(audio).value, answer)
    case Throw => s.dispatcher.AtTop? || s.dispatcher.Holding?
    case Connect(_, _) => s.dispatcher.AtTop?
    case Top(_) => s.dispatcher.AtTop?
    case Take(_, _) => s.dispatcher.Holding?
    case SubmitNext(_) => s.dispatcher.Resetting? || s.dispatcher.Feeding?
  }

  /** The proxy's failure notification is taken note of before its readers are woken. */
  ghost function Relayed(s: Media, step: InputProxy.Action): Media
    requires InputProxy.Inv(s.proxy) && InputProxy.Enabled(s.proxy, step)
  {
    var (proxy, answer) := InputProxy.Apply(s.proxy, step);
    var failed := step.Steer? && s.proxy.control.Announce? && s.proxy.phase.ProxyFailed?;
    s.(proxy := proxy, failure := s.failure || failed,
       dispatcher := match answer
                     case Nothing => AtTop
                     case Answered(item) => Holding(item)
                     case Pending => s.dispatcher)
  }

  function Looped(s: Media, drained: bool): Media {
    if s.stopping || s.failure then s.(dispatcher := Finished)
    else if s.finalEof then (if drained then s.(dispatcher := Finished) else s)
    else s.(dispatcher := Reading)
  }

  /** The first description seen creates the decoders of the selected tracks; there must be one. */
  function Initialized(s: Media, video: bool, audio: bool): Media {
    if s.session then s
    else if !video && !audio then s.(failure := true, dispatcher := Finished)
    else
      var made := D.NEW.(stopping := s.Halted());
      s.(session := true, video := if video then Some(made) else None, audio := if audio then Some(made) else None)
  }

  /** A Connected event, handled at the top of the loop unless the source halts. */
  function Connected(s: Media, video: bool, audio: bool): Media {
    if s.Halted() then s else Initialized(s, video, audio)
  }

  /** An item creates the decoders if no event has; then it is dispatched unless the source halts. */
  function Taken(s: Media, video: bool, audio: bool): Media
    requires s.dispatcher.Holding?
  {
    var t := Initialized(s, video, audio);
    if t.dispatcher.Finished? then t else Routed(t, s.dispatcher.item)
  }

  /** An item of another connection needs resets first. */
  function Routed(s: Media, item: Item): Media {
    if s.failure then s.(dispatcher := Finished)
    else if s.stopping then s.(dispatcher := AtTop)
    else if s.dispatched.Some? && s.dispatched.value != item.info then s.(dispatcher := Resetting(item, false))
    else s.(dispatched := Some(item.info), dispatcher := Feeding(item, false))
  }

  /** A refused submission ends the dispatch: by the failure behind it, or quietly when the source is stopping. */
  function GivenUp(s: Media, d: D.State): Media {
    if s.failure || d.failed then s.(failure := true, dispatcher := Finished) else s.(dispatcher := AtTop)
  }

  function Submitted(s: Media, toAudio: bool, e: D.Entry, follow: Media): Media
    requires s.Of(toAudio).Some?
  {
    var (d, admission) := D.Push(s.Of(toAudio).value, e);
    match admission
    case Accepted => follow.With(toAudio, d)
    case Refused => GivenUp(s, d)
    case Rejected => s.(rejected := true, failure := true, dispatcher := Finished)
  }

  /** Controls go to the video decoder, then to the audio decoder, passing over an absent track. */
  function ControlSubmitted(s: Media, e: D.Entry, audio: bool, follow: Media): Media {
    if s.Of(audio).None? then follow else Submitted(s, audio, e, follow)
  }

  function Dispatched(s: Media, toAudio: bool): Media
    requires s.dispatcher.Resetting? || s.dispatcher.Feeding?
  {
    match s.dispatcher
    case Resetting(item, audio) =>
      ControlSubmitted(s, D.Reset, audio,
        if audio then s.(dispatched := Some(item.info), dispatcher := Feeding(item, false))
        else s.(dispatcher := Resetting(item, true)))
    case Feeding(item, audio) =>
      if item.Eof? then
        ControlSubmitted(s, D.Feed(item), audio,
          if audio then s.(finalEof := s.finalEof || !s.proxy.loops, dispatcher := AtTop)
          else s.(dispatcher := Feeding(item, true)))
      else if s.Of(toAudio).None? then s.(failure := true, dispatcher := Finished)
      else Submitted(s, toAudio, D.Feed(item), s.(dispatcher := AtTop))
  }

  ghost function Apply(s: Media, a: Action): Media
    requires Inv(s) && Enabled(s, a)
  {
    match a
    case Proxied(step) => Relayed(s, step)
    case RequestStop => s.(stopping := true)
    case StopDecoder(audio) => s.With(audio, s.Of(audio).value.(stopping := true))
    case Report(_) => s.(failure := true)
    case Work(audio, answer, sent) => s.With(audio, D.Turn(s.Of(audio).value, answer, sent))
    case Throw => s.(failure := true, dispatcher := Finished)
    case Connect(video, audio) => Connected(s, video, audio)
    case Top(drained) => Looped(s, drained)
    case Take(video, audio) => Taken(s, video, audio)
    case SubmitNext(toAudio) => Dispatched(s, toAudio)
  }

  // ----- the joint invariant

  /**
   * A decoder continues the connection last dispatched; an end it holds was returned before, and was the last word when
   * nothing loops.
   */
  ghost predicate Continues(s: Media, d: D.State, earlier: seq<Item>) {
    var order := D.Scan(d.accepted);
    && (order.connection.Some? ==> order.connection == s.dispatched)
    && (order.ended ==> s.dispatched.Some? && Eof(s.dispatched.value) in earlier && (s.proxy.loops || s.finalEof))
  }

  ghost predicate Both(s: Media, earlier: seq<Item>) {
    && (s.video.Some? ==> Continues(s, s.video.value, earlier))
    && (s.audio.Some? ==> Continues(s, s.audio.value, earlier))
  }

  ghost predicate Clean(d: Option<D.State>) {
    d.Some? ==> D.Scan(d.value.accepted) == D.Order(false, None)
  }

  ghost predicate Fit(d: Option<D.State>, item: Item) {
    d.Some? ==> D.Follows(D.Scan(d.value.accepted), item)
  }

  ghost predicate Ended(d: Option<D.State>, item: Item) {
    d.Some? ==> D.Scan(d.value.accepted) == D.Order(true, Some(item.info))
  }

  ghost predicate LastIs(s: Media, item: Item) {
    s.proxy.returned != [] && s.proxy.returned[|s.proxy.returned| - 1] == item
  }

  ghost predicate DispatchHolds(s: Media) {
    var items := s.proxy.returned;
    match s.dispatcher
    case AtTop => s.Halted() || Both(s, items)
    case Reading => !s.finalEof && (s.Halted() || Both(s, items))
    case Holding(item) => LastIs(s, item) && !s.finalEof && (s.Halted() || Both(s, items[..|items| - 1]))
    case Resetting(item, audio) => LastIs(s, item) && s.session && !s.finalEof && (audio ==> Clean(s.video))
    case Feeding(item, audio) =>
      && LastIs(s, item) && !s.finalEof && s.dispatched == Some(item.info)
      && (if audio then item.Eof? && Ended(s.video, item) else Fit(s.video, item))
      && Fit(s.audio, item)
    case Finished => true
  }

  function Count(d: Option<D.State>, x: Item): nat {
    if d.None? then 0 else multiset(d.value.accepted)[D.Feed(x)]
  }

  /** One track has received an item as often as it should after these items were returned. */
  ghost predicate Delivered(video: Option<D.State>, audio: Option<D.State>, items: seq<Item>, x: Item) {
    match x
    case Packet(_, _) => Count(video, x) + Count(audio, x) == multiset(items)[x]
    case Eof(_) =>
      && (video.Some? ==> Count(video, x) == multiset(items)[x])
      && (audio.Some? ==> Count(audio, x) == multiset(items)[x])
  }

  ghost predicate AllDelivered(video: Option<D.State>, audio: Option<D.State>, items: seq<Item>) {
    forall x :: Delivered(video, audio, items, x)
  }

  /** What the decoders have accepted is what was returned, up to the item being dispatched. */
  ghost predicate DeliveryHolds(s: Media) {
    var items := s.proxy.returned;
    match s.dispatcher
    case AtTop => s.Halted() || (AllDelivered(s.video, s.audio, items) && (s.session || items == []))
    case Reading => s.Halted() || (AllDelivered(s.video, s.audio, items) && (s.session || items == []))
    case Holding(_) =>
      s.Halted() || (items != [] && AllDelivered(s.video, s.audio, items[..|items| - 1]) && (s.session || |items| == 1))
    case Resetting(_, _) => items != [] && AllDelivered(s.video, s.audio, items[..|items| - 1])
    case Feeding(item, audio) =>
      items != [] &&
      if audio then forall x :: HalfDelivered(s.video, s.audio, items, x)
      else AllDelivered(s.video, s.audio, items[..|items| - 1])
    case Finished => true
  }

  /** The video track has its end already, the audio track not yet. */
  ghost predicate HalfDelivered(video: Option<D.State>, audio: Option<D.State>, items: seq<Item>, x: Item)
    requires items != []
  {
    match x
    case Packet(_, _) => Count(video, x) + Count(audio, x) == multiset(items[..|items| - 1])[x]
    case Eof(_) =>
      && (video.Some? ==> Count(video, x) == multiset(items)[x])
      && (audio.Some? ==> Count(audio, x) == multiset(items[..|items| - 1])[x])
  }

  ghost predicate DecoderHolds(s: Media, d: Option<D.State>) {
    d.Some? ==> D.Holds(d.value) && s.session && (d.value.stopping ==> s.Halted() || s.dispatcher.Finished?)
  }

  ghost predicate Inv(s: Media) {
    && InputProxy.Inv(s.proxy)
    && DecoderHolds(s, s.video) && DecoderHolds(s, s.audio)
    && (!s.session ==> s.dispatched.None?)
    && (s.proxy.reader.Outside? || s.dispatcher.Reading?)
    && DispatchHolds(s)
    && !s.rejected
  }

  // ----- every step keeps it

  /** What the order of the returned items says about the one just returned. */
  lemma EarlierEnd(items: seq<Item>, loops: bool)
    requires items != [] && Ordered(items, loops)
    requires Eof(items[|items| - 1].info) in items[..|items| - 1]
    ensures items[|items| - 1].Eof? && !loops
  {
    var last := items[|items| - 1];
    var i :| 0 <= i < |items| - 1 && items[i] == Eof(last.info);
    assert Precedes(items[i], last, loops);
  }

  lemma RelayKeeps(s: Media, step: InputProxy.Action)
    requires Inv(s) && Enabled(s, Proxied(step))
    ensures Inv(Relayed(s, step))
  {
    hide InputProxy.Inv, InputProxy.Apply, D.Holds, D.Scan, InputProxy.Enabled;
    InputProxy.ApplyKeeps(s.proxy, step);
    ApplyReturns(s.proxy, step);
    ReaderLeavesWithAnswer(s.proxy, step);
    var (proxy, answer) := InputProxy.Apply(s.proxy, step);
    if answer.Answered? {
      assert proxy.returned[..|proxy.returned| - 1] == s.proxy.returned;
    }
  }

  /** The reader is outside exactly when a read has answered; other threads do not move it. */
  lemma ReaderLeavesWithAnswer(p: Proxy, step: InputProxy.Action)
    requires InputProxy.Inv(p) && InputProxy.Enabled(p, step)
    ensures var (v, answer) := InputProxy.Apply(p, step);
            && (!answer.Pending? ==> v.reader.Outside? && ReaderStep(step))
            && (!ReaderStep(step) ==> v.reader == p.reader)
  {
    hide InputProxy.Inv;
    InputProxy.ApplyKeeps(p, step);
  }

  /** A decoder may change in anything but what it accepted. */
  lemma DecoderMayWork(s: Media, audio: bool, d: D.State)
    requires Inv(s) && s.Of(audio).Some? && D.Holds(d)
    requires d.accepted == s.Of(audio).value.accepted
    requires d.stopping ==> s.Of(audio).value.stopping || s.Halted() || s.dispatcher.Finished?
    ensures Inv(s.With(audio, d))
  {
    hide InputProxy.Inv, D.Holds, D.Scan;
  }

  lemma FlagKeeps(s: Media, a: Action)
    requires Inv(s) && Enabled(s, a)
    requires a.RequestStop? || a.Report? || a.Throw?
    ensures Inv(Apply(s, a))
  {
    hide InputProxy.Inv, D.Holds, D.Scan;
  }

  lemma StopDecoderKeeps(s: Media, audio: bool)
    requires Inv(s) && Enabled(s, StopDecoder(audio))
    ensures Inv(Apply(s, StopDecoder(audio)))
  {
    hide InputProxy.Inv, D.Scan, DispatchHolds;
    DecoderMayWork(s, audio, s.Of(audio).value.(stopping := true));
  }

  lemma WorkKeeps(s: Media, audio: bool, answer: D.Received, sent: bool)
    requires Inv(s) && Enabled(s, Work(audio, answer, sent))
    ensures Inv(Apply(s, Work(audio, answer, sent)))
  {
    hide InputProxy.Inv, D.Holds, D.Turn, DispatchHolds;
    D.TurnKeeps(s.Of(audio).value, answer, sent);
    DecoderMayWork(s, audio, D.Turn(s.Of(audio).value, answer, sent));
  }

  lemma TopKeeps(s: Media, drained: bool)
    requires Inv(s) && s.dispatcher.AtTop?
    ensures Inv(Looped(s, drained))
  {
    hide InputProxy.Inv, D.Holds;
  }

  lemma InitializedKeeps(s: Media, video: bool, audio: bool)
    requires Inv(s) && (s.dispatcher.AtTop? || s.dispatcher.Holding?)
    ensures Inv(Initialized(s, video, audio))
  {
    hide D.Abides, D.WorkerHolds, InputProxy.Inv;
    NewHolds(s.Halted());
  }

  lemma RoutedKeeps(s: Media)
    requires Inv(s) && s.dispatcher.Holding? && s.session
    ensures Inv(Routed(s, s.dispatcher.item))
  {
    hide D.Holds;
    assert Ordered(s.proxy.returned, s.proxy.loops);
    hide InputProxy.Inv, Ordered;
    var items := s.proxy.returned;
    if Eof(s.dispatcher.item.info) in items[..|items| - 1] {
      EarlierEnd(items, s.proxy.loops);
    }
  }

  lemma TakeKeeps(s: Media, video: bool, audio: bool)
    requires Inv(s) && s.dispatcher.Holding?
    ensures Inv(Taken(s, video, audio))
  {
    hide Inv, Routed;
    InitializedKeeps(s, video, audio);
    var t := Initialized(s, video, audio);
    if !t.dispatcher.Finished? {
      RoutedKeeps(t);
    }
  }

  lemma NewHolds(stopping: bool)
    ensures D.Holds(D.NEW.(stopping := stopping))
    ensures D.Scan(D.NEW.accepted) == D.Order(false, None)
  {
  }

  /** One submission: what the decoder holds afterwards, or why the dispatch ends. */
  lemma SubmissionKeeps(s: Media, toAudio: bool, e: D.Entry, follow: Media)
    requires Inv(s) && s.Of(toAudio).Some? && (s.dispatcher.Resetting? || s.dispatcher.Feeding?)
    requires e.Feed? ==> D.Follows(D.Scan(s.Of(toAudio).value.accepted), e.item)
    requires D.Push(s.Of(toAudio).value, e).1.Accepted? ==>
               Inv(follow.With(toAudio, D.Push(s.Of(toAudio).value, e).0))
    ensures Inv(Submitted(s, toAudio, e, follow))
  {
    hide D.Abides, D.WorkerHolds, D.Scan, InputProxy.Inv;
    D.PushKeeps(s.Of(toAudio).value, e);
  }

  lemma ResetKeeps(s: Media, toAudio: bool)
    requires Inv(s) && s.dispatcher.Resetting?
    ensures Inv(Dispatched(s, toAudio))
  {
    hide D.Abides, D.WorkerHolds, InputProxy.Inv, D.Holds;
    var audio := s.dispatcher.audio;
    if s.Of(audio).Some? {
      D.PushKeeps(s.Of(audio).value, D.Reset);
      D.ScanSnoc(s.Of(audio).value.accepted, D.Reset);
      var follow :=
        if audio then s.(dispatched := Some(s.dispatcher.item.info), dispatcher := Feeding(s.dispatcher.item, false))
        else s.(dispatcher := Resetting(s.dispatcher.item, true));
      SubmissionKeeps(s, audio, D.Reset, follow);
    }
  }

  lemma FeedKeeps(s: Media, toAudio: bool)
    requires Inv(s) && s.dispatcher.Feeding?
    ensures Inv(Dispatched(s, toAudio))
  {
    hide D.Abides, D.WorkerHolds, InputProxy.Inv, D.Holds;
    var item, audio := s.dispatcher.item, s.dispatcher.audio;
    var target := if item.Eof? then audio else toAudio;
    if s.Of(target).Some? {
      D.PushKeeps(s.Of(target).value, D.Feed(item));
      D.ScanSnoc(s.Of(target).value.accepted, D.Feed(item));
      SubmissionKeeps(s, target, D.Feed(item),
        if item.Packet? then s.(dispatcher := AtTop)
        else if audio then s.(finalEof := s.finalEof || !s.proxy.loops, dispatcher := AtTop)
        else s.(dispatcher := Feeding(item, true)));
    }
  }

  lemma ApplyKeeps(s: Media, a: Action)
    requires Inv(s) && Enabled(s, a)
    ensures Inv(Apply(s, a))
  {
    hide Inv, Relayed, Initialized, Taken, Dispatched, Looped;
    match a
    case Proxied(step) => RelayKeeps(s, step);
    case StopDecoder(audio) => StopDecoderKeeps(s, audio);
    case Work(audio, answer, sent) => WorkKeeps(s, audio, answer, sent);
    case Connect(video, audio) => InitializedKeeps(s, video, audio);
    case Top(drained) => TopKeeps(s, drained);
    case Take(video, audio) => TakeKeeps(s, video, audio);
    case SubmitNext(toAudio) =>
      if s.dispatcher.Resetting? {
        ResetKeeps(s, toAudio);
      } else {
        FeedKeeps(s, toAudio);
      }
    case _ => FlagKeeps(s, a);
  }

  // ----- nothing is dispatched twice or skipped

  lemma CountSnoc(accepted: seq<D.Entry>, e: D.Entry, x: Item)
    ensures multiset(accepted + [e])[D.Feed(x)] == multiset(accepted)[D.Feed(x)] + if e == D.Feed(x) then 1 else 0
  {
  }

  lemma ItemsSnoc(items: seq<Item>, x: Item)
    requires items != []
    ensures multiset(items)[x] == multiset(items[..|items| - 1])[x] + if items[|items| - 1] == x then 1 else 0
  {
    assert items == items[..|items| - 1] + [items[|items| - 1]];
  }

  lemma RelayDelivers(s: Media, step: InputProxy.Action)
    requires Inv(s) && DeliveryHolds(s) && Enabled(s, Proxied(step))
    ensures DeliveryHolds(Relayed(s, step))
  {
    ApplyReturns(s.proxy, step);
    ReaderLeavesWithAnswer(s.proxy, step);
    var (proxy, answer) := InputProxy.Apply(s.proxy, step);
    hide Inv, InputProxy.Apply, DeliveryHolds, InputProxy.Enabled;
    match answer
    case Answered(x) => ArrivalDelivers(s, Relayed(s, step), x);
    case _ => SameAccepted(s, Relayed(s, step));
  }

  lemma ArrivalDelivers(s: Media, v: Media, x: Item)
    requires DeliveryHolds(s) && s.dispatcher.Reading? && v.dispatcher == Holding(x)
    requires v.session == s.session && (s.Halted() ==> v.Halted()) && v.video == s.video && v.audio == s.audio
    requires v.proxy.returned == s.proxy.returned + [x]
    ensures DeliveryHolds(v)
  {
    hide AllDelivered;
    Arrived(s.proxy.returned, x);
  }

  lemma Arrived(items: seq<Item>, x: Item)
    ensures (items + [x])[..|items + [x]| - 1] == items
    ensures items == [] ==> |items + [x]| == 1
  {
  }

  lemma NoDecodersYet(s: Media)
    requires Inv(s)
    ensures !s.session ==> s.video.None? && s.audio.None?
  {
    hide InputProxy.Inv, D.Holds, DispatchHolds;
  }

  lemma ConnectDelivers(s: Media, video: bool, audio: bool)
    requires DeliveryHolds(s) && s.dispatcher.AtTop?
    requires !s.session ==> s.video.None? && s.audio.None?
    ensures DeliveryHolds(Connected(s, video, audio))
  {
    var v := Connected(s, video, audio);
    if !s.Halted() && !s.session && !v.dispatcher.Finished? {
      forall x
        ensures Delivered(v.video, v.audio, [], x)
      {
      }
    }
  }

  lemma TakeDelivers(s: Media, video: bool, audio: bool)
    requires Inv(s) && DeliveryHolds(s) && s.dispatcher.Holding?
    ensures DeliveryHolds(Taken(s, video, audio))
  {
    hide InputProxy.Inv, D.Holds, D.Scan;
    if !s.Halted() && !s.session {
      assert s.proxy.returned[..|s.proxy.returned| - 1] == [];
    }
  }

  /** A decoder stops only when the source halts; the item being dispatched is the last one returned. */
  ghost predicate Dispatching(s: Media) {
    && (s.dispatcher.Resetting? || s.dispatcher.Feeding?)
    && LastIs(s, s.dispatcher.item) && s.session &&
         (s.dispatcher.audio && s.dispatcher.Feeding? ==> s.dispatcher.item.Eof?)
    && (s.video.Some? && s.video.value.stopping ==> s.Halted())
    && (s.audio.Some? && s.audio.value.stopping ==> s.Halted())
  }

  lemma InvDispatching(s: Media)
    requires Inv(s) && (s.dispatcher.Resetting? || s.dispatcher.Feeding?)
    ensures Dispatching(s)
  {
    hide InputProxy.Inv, D.Holds;
  }

  lemma ResetDelivers(s: Media, toAudio: bool)
    requires Dispatching(s) && DeliveryHolds(s) && s.dispatcher.Resetting?
    ensures DeliveryHolds(Dispatched(s, toAudio))
  {
    hide Count, Delivered;
    var audio := s.dispatcher.audio;
    if s.Of(audio).Some? {
      var v := s.With(audio, D.Push(s.Of(audio).value, D.Reset).0);
      forall x
        ensures Count(v.video, x) == Count(s.video, x) && Count(v.audio, x) == Count(s.audio, x)
      {
        PushCounts(s.Of(audio).value, D.Reset, x);
      }
      SameCounts(s, v, s.proxy.returned[..|s.proxy.returned| - 1]);
    }
  }

  lemma SameCounts(s: Media, v: Media, items: seq<Item>)
    requires AllDelivered(s.video, s.audio, items)
    requires forall x :: Count(v.video, x) == Count(s.video, x) && Count(v.audio, x) == Count(s.audio, x)
    requires v.video.Some? == s.video.Some? && v.audio.Some? == s.audio.Some?
    ensures AllDelivered(v.video, v.audio, items)
  {
    hide Count;
    forall x
      ensures Delivered(v.video, v.audio, items, x)
    {
      assert Delivered(s.video, s.audio, items, x);
    }
  }

  lemma PushCounts(d: D.State, e: D.Entry, x: Item)
    ensures var (after, admission) := D.Push(d, e);
            Count(Some(after), x) == Count(Some(d), x) + if admission.Accepted? && e == D.Feed(x) then 1 else 0
  {
    CountSnoc(d.accepted, e, x);
  }

  lemma PacketDelivers(s: Media, toAudio: bool)
    requires Dispatching(s) && DeliveryHolds(s) && s.dispatcher.Feeding? && s.dispatcher.item.Packet?
    ensures DeliveryHolds(Dispatched(s, toAudio))
  {
    hide Count;
    var item, items := s.dispatcher.item, s.proxy.returned;
    if s.Of(toAudio).Some? && D.Push(s.Of(toAudio).value, D.Feed(item)).1.Accepted? {
      var v := s.With(toAudio, D.Push(s.Of(toAudio).value, D.Feed(item)).0);
      forall x
        ensures Delivered(v.video, v.audio, items, x)
      {
        assert Delivered(s.video, s.audio, items[..|items| - 1], x);
        PushCounts(s.Of(toAudio).value, D.Feed(item), x);
        ItemsSnoc(items, x);
      }
    }
  }

  lemma EofReaches(s: Media, audio: bool, x: Item)
    requires s.dispatcher.Feeding? && LastIs(s, s.dispatcher.item) && s.dispatcher.item.Eof? &&
      s.dispatcher.audio == audio
    requires s.Of(audio).Some? ==> D.Push(s.Of(audio).value, D.Feed(s.dispatcher.item)).1.Accepted?
    requires var items := s.proxy.returned;
             if audio then HalfDelivered(s.video, s.audio, items, x)
               else Delivered(s.video, s.audio, items[..|items| - 1], x)
    ensures var items := s.proxy.returned;
            var v := if s.Of(audio).None? then s
              else s.With(audio, D.Push(s.Of(audio).value, D.Feed(s.dispatcher.item)).0);
            if audio then Delivered(v.video, v.audio, items, x) else HalfDelivered(v.video, v.audio, items, x)
  {
    hide Count, D.Push;
    if s.Of(audio).Some? {
      PushCounts(s.Of(audio).value, D.Feed(s.dispatcher.item), x);
    }
    ItemsSnoc(s.proxy.returned, x);
  }

  lemma EofDelivers(s: Media, toAudio: bool)
    requires Dispatching(s) && DeliveryHolds(s) && s.dispatcher.Feeding? && s.dispatcher.item.Eof?
    ensures DeliveryHolds(Dispatched(s, toAudio))
  {
    hide Count, Delivered, HalfDelivered;
    var item, items, audio := s.dispatcher.item, s.proxy.returned, s.dispatcher.audio;
    if s.Of(audio).None? || D.Push(s.Of(audio).value, D.Feed(item)).1.Accepted? {
      var v := if s.Of(audio).None? then s else s.With(audio, D.Push(s.Of(audio).value, D.Feed(item)).0);
      forall x
        ensures if audio then Delivered(v.video, v.audio, items, x) else HalfDelivered(v.video, v.audio, items, x)
      {
        EofReaches(s, audio, x);
      }
    }
  }

  lemma ApplyDelivers(s: Media, a: Action)
    requires Inv(s) && DeliveryHolds(s) && Enabled(s, a)
    ensures DeliveryHolds(Apply(s, a))
  {
    hide Inv, Relayed, Connected, Taken, Dispatched, Delivered, HalfDelivered;
    match a
    case Proxied(step) => RelayDelivers(s, step);
    case Connect(video, audio) =>
      NoDecodersYet(s);
      ConnectDelivers(s, video, audio);
    case Take(video, audio) => TakeDelivers(s, video, audio);
    case SubmitNext(toAudio) =>
      InvDispatching(s);
      if s.dispatcher.Resetting? {
        ResetDelivers(s, toAudio);
      } else if s.dispatcher.item.Packet? {
        PacketDelivers(s, toAudio);
      } else {
        EofDelivers(s, toAudio);
      }
    case Work(audio, answer, sent) => SameAccepted(s, Apply(s, a));
    case StopDecoder(audio) => SameAccepted(s, Apply(s, a));
    case _ => SameAccepted(s, Apply(s, a));
  }

  lemma SameAccepted(s: Media, v: Media)
    requires DeliveryHolds(s)
    requires v.proxy.returned == s.proxy.returned && v.session == s.session && (s.Halted() ==> v.Halted())
    requires v.dispatcher == s.dispatcher || v.dispatcher.Finished? || (s.dispatcher.AtTop? && v.dispatcher.Reading?)
          || (s.dispatcher.Reading? && v.dispatcher.AtTop?)
    requires v.video.Some? == s.video.Some? && (v.video.Some? ==> v.video.value.accepted == s.video.value.accepted)
    requires v.audio.Some? == s.audio.Some? && (v.audio.Some? ==> v.audio.value.accepted == s.audio.value.accepted)
    ensures DeliveryHolds(v)
  {
    forall x
      ensures Count(v.video, x) == Count(s.video, x) && Count(v.audio, x) == Count(s.audio, x)
    {
    }
    hide Count;
    var items := s.proxy.returned;
    forall x, n: nat | n <= |items|
      ensures Delivered(s.video, s.audio, items[..n], x) ==> Delivered(v.video, v.audio, items[..n], x)
    {
    }
    assert items[..|items|] == items;
    if items != [] {
      forall x
        ensures HalfDelivered(s.video, s.audio, items, x) ==> HalfDelivered(v.video, v.audio, items, x)
      {
      }
    }
  }

  // ----- every interleaving

  ghost function Step(s: Media, a: Action): (r: Media)
    requires Inv(s)
    ensures Inv(r)
  {
    if Enabled(s, a) then ApplyKeeps(s, a); Apply(s, a) else s
  }

  ghost function Play(s: Media, actions: seq<Action>): Media
    requires Inv(s)
    decreases actions
  {
    if actions == [] then s else Play(Step(s, actions[0]), actions[1..])
  }

  lemma {:induction false} PlayKeeps(s: Media, actions: seq<Action>)
    requires Inv(s)
    ensures Inv(Play(s, actions))
    decreases actions
  {
    hide Inv, Apply, Enabled;
    if actions != [] {
      PlayKeeps(Step(s, actions[0]), actions[1..]);
    }
  }

  lemma BeginHolds(loops: bool, maxRetries: int)
    ensures Inv(Begin(loops, maxRetries))
  {
    InputProxy.BeginHolds(loops, maxRetries);
  }

  ghost function AnyRun(loops: bool, maxRetries: int, actions: seq<Action>): Media {
    BeginHolds(loops, maxRetries);
    Play(Begin(loops, maxRetries), actions)
  }

  /**
   * In every interleaving of loops, reconnections, failures, stops and decoding, each decoder accepts its items in
   * order: a reset stands between an end and whatever follows, and between the items of different connections.
   */
  lemma DecodersAreFedInOrder(loops: bool, maxRetries: int, actions: seq<Action>, audio: bool, i: nat)
    requires AnyRun(loops, maxRetries, actions).Of(audio).Some?
    requires i < |AnyRun(loops, maxRetries, actions).Of(audio).value.accepted|
    ensures var accepted := AnyRun(loops, maxRetries, actions).Of(audio).value.accepted;
            i > 0 && accepted[i - 1].Feed? && accepted[i].Feed? ==>
              accepted[i - 1].item.Packet? && accepted[i - 1].item.info == accepted[i].item.info
  {
    hide InputProxy.Inv, D.WorkerHolds, DispatchHolds, Play;
    BeginHolds(loops, maxRetries);
    PlayKeeps(Begin(loops, maxRetries), actions);
    var accepted := AnyRun(loops, maxRetries, actions).Of(audio).value.accepted;
    if i > 0 && accepted[i].Feed? {
      assert D.Follows(D.Scan(accepted[..i]), accepted[i].item);
    }
  }

  /** The decoders' demand for a reset after an end never strikes the dispatcher. */
  lemma EndRejectionIsUnreachable(loops: bool, maxRetries: int, actions: seq<Action>)
    ensures !AnyRun(loops, maxRetries, actions).rejected
  {
    BeginHolds(loops, maxRetries);
    PlayKeeps(Begin(loops, maxRetries), actions);
  }

  /**
   * No codec is ever misused: nothing is sent to a draining one, and nothing asked of a drained one, until it is
   * flushed.
   */
  lemma CodecsAreUsedProperly(loops: bool, maxRetries: int, actions: seq<Action>, audio: bool)
    requires AnyRun(loops, maxRetries, actions).Of(audio).Some?
    ensures D.Codec(AnyRun(loops, maxRetries, actions).Of(audio).value.calls).Some?
  {
    BeginHolds(loops, maxRetries);
    PlayKeeps(Begin(loops, maxRetries), actions);
  }

  lemma {:induction false} PlayDelivers(s: Media, actions: seq<Action>)
    requires Inv(s) && DeliveryHolds(s)
    ensures DeliveryHolds(Play(s, actions))
    decreases actions
  {
    hide Inv, Apply, Enabled, DeliveryHolds;
    if actions != [] {
      if Enabled(s, actions[0]) {
        ApplyDelivers(s, actions[0]);
      }
      PlayDelivers(Step(s, actions[0]), actions[1..]);
    }
  }

  /**
   * While nothing fails or stops, the decoders together have accepted exactly what the proxy returned: each packet by
   * one of them, each end by both.
   */
  lemma NothingLostOrRepeated(loops: bool, maxRetries: int, actions: seq<Action>, x: Item)
    requires !AnyRun(loops, maxRetries, actions).Halted()
    requires AnyRun(loops, maxRetries, actions).dispatcher.AtTop?
    ensures var s := AnyRun(loops, maxRetries, actions);
            match x
            case Packet(_, _) => Count(s.video, x) + Count(s.audio, x) == multiset(s.proxy.returned)[x]
            case Eof(_) =>
              && (s.video.Some? ==> Count(s.video, x) == multiset(s.proxy.returned)[x])
              && (s.audio.Some? ==> Count(s.audio, x) == multiset(s.proxy.returned)[x])
  {
    hide Inv;
    BeginHolds(loops, maxRetries);
    PlayDelivers(Begin(loops, maxRetries), actions);
    var s := AnyRun(loops, maxRetries, actions);
    assert Delivered(s.video, s.audio, s.proxy.returned, x);
  }
}
