/** The dispatcher as an object over its decoders. */
module MediaSourceObject {
  import opened Results
  import P = InputProxy
  import D = Decoder
  import M = MediaSource

  class AvMediaSource {
    const loops: bool
    var stopping: bool
    var failure: bool
    var session: bool
    var video: Option<D.AvDecoder>
    var audio: Option<D.AvDecoder>
    var dispatched: Option<P.Id>
    var finalEof: bool
    var dispatcher: M.Dispatcher
    ghost var rejected: bool

    ghost function Decoders(): set<object>
      reads this
    {
      (if video.Some? then {video.value} else {}) + (if audio.Some? then {audio.value} else {})
    }

    /** The two tracks have decoders of their own. */
    ghost predicate Separate()
      reads this
    {
      video.Some? && audio.Some? ==> video.value != audio.value
    }

    ghost function View(proxy: P.Proxy): M.Media
      reads this, Decoders()
    {
      M.Media(proxy, stopping, failure, session,
              if video.Some? then Some(video.value.View()) else None,
              if audio.Some? then Some(audio.value.View()) else None,
              dispatched, finalEof, dispatcher, rejected)
    }

    constructor (loops: bool)
      ensures this.loops == loops && Separate()
      ensures forall maxRetries :: View(P.Begin(loops, maxRetries)) == M.Begin(loops, maxRetries)
    {
      this.loops := loops;
      stopping, failure, session, finalEof, rejected := false, false, false, false, false;
      video, audio, dispatched, dispatcher := None, None, None, M.AtTop;
    }

    /** The top of the controller loop. */
    method LoopTop(drained: bool, ghost proxy: P.Proxy)
      requires dispatcher.AtTop?
      modifies this`dispatcher
      ensures View(proxy) == M.Looped(old(View(proxy)), drained)
    {
      if stopping || failure {
        dispatcher := M.Finished;
      } else if finalEof {
        if drained {
          dispatcher := M.Finished;
        }
      } else {
        dispatcher := M.Reading;
      }
    }

    /** Creates the decoders on the first description seen; false when there is no track to decode. */
    method Initialize(hasVideo: bool, hasAudio: bool, ghost proxy: P.Proxy) returns (ready: bool)
      requires Separate() && !dispatcher.Finished?
      modifies this
      ensures Separate() && fresh(Decoders() - old(Decoders()))
      ensures View(proxy) == M.Initialized(old(View(proxy)), hasVideo, hasAudio)
      ensures ready <==> !dispatcher.Finished?
    {
      if session {
        return true;
      }
      if !hasVideo && !hasAudio {
        failure, dispatcher := true, M.Finished;
        return false;
      }
      CreateDecoders(hasVideo, hasAudio);
      return true;
    }

    /** Handles a Connected event at the top of the loop. */
    method Connect(hasVideo: bool, hasAudio: bool, ghost proxy: P.Proxy)
      requires dispatcher.AtTop? && Separate()
      modifies this
      ensures Separate() && fresh(Decoders() - old(Decoders()))
      ensures View(proxy) == M.Connected(old(View(proxy)), hasVideo, hasAudio)
    {
      if !stopping && !failure {
        var _ := Initialize(hasVideo, hasAudio, proxy);
      }
    }

    /** Makes sure of the decoders, and decides whether the item's connection needs resets first. */
    method Take(hasVideo: bool, hasAudio: bool, ghost proxy: P.Proxy)
      requires dispatcher.Holding? && Separate()
      modifies this
      ensures Separate() && fresh(Decoders() - old(Decoders()))
      ensures View(proxy) == M.Taken(old(View(proxy)), hasVideo, hasAudio)
    {
      hide M.Initialized, M.Routed;
      var item := dispatcher.item;
      var ready := Initialize(hasVideo, hasAudio, proxy);
      if ready {
        Route(item, proxy);
      }
    }

    /** An item of another connection needs resets first. */
    method Route(item: P.Item, ghost proxy: P.Proxy)
      modifies this`dispatched, this`dispatcher
      ensures View(proxy) == M.Routed(old(View(proxy)), item)
    {
      if failure {
        dispatcher := M.Finished;
      } else if stopping {
        dispatcher := M.AtTop;
      } else if dispatched.Some? && dispatched.value != item.info {
        dispatcher := M.Resetting(item, false);
      } else {
        dispatched, dispatcher := Some(item.info), M.Feeding(item, false);
      }
    }

    method CreateDecoders(hasVideo: bool, hasAudio: bool)
      modifies this`video, this`audio, this`session
      ensures session && Separate() && fresh(Decoders())
      ensures video.Some? == hasVideo && (hasVideo ==> video.value.View() == D.NEW.(stopping := stopping || failure))
      ensures audio.Some? == hasAudio && (hasAudio ==> audio.value.View() == D.NEW.(stopping := stopping || failure))
    {
      video, audio, session := None, None, true;
      if hasVideo {
        var d := new D.AvDecoder();
        d.stopping := stopping || failure;
        video := Some(d);
      }
      if hasAudio {
        var d := new D.AvDecoder();
        d.stopping := stopping || failure;
        audio := Some(d);
      }
    }

    /** Hands one entry to one decoder; false when the decoder refuses or rejects it, which ends the dispatch. */
    method Submit(d: D.AvDecoder, e: D.Entry) returns (moveOn: bool)
      modifies this`failure, this`dispatcher, this`rejected, d
      ensures var (after, admission) := D.Push(old(d.View()), e);
              && d.View() == after && moveOn == admission.Accepted? && (moveOn || after == old(d.View()))
              && match admission
                 case Accepted => failure == old(failure) && dispatcher == old(dispatcher) && rejected == old(rejected)
                 case Refused =>
                   && rejected == old(rejected) && failure == (old(failure) || after.failed)
                   && dispatcher == if failure then M.Finished else M.AtTop
                 case Rejected => rejected && failure && dispatcher == M.Finished
    {
      var admission := d.Submit(e);
      match admission
      case Accepted => return true;
      case Refused =>
        if failure || d.failed {
          failure, dispatcher := true, M.Finished;
        } else {
          dispatcher := M.AtTop;
        }
        return false;
      case Rejected =>
        rejected, failure, dispatcher := true, true, M.Finished;
        return false;
    }

    method SubmitPacket(toAudio: bool, ghost proxy: P.Proxy)
      requires Separate() && dispatcher.Feeding? && dispatcher.item.Packet?
      modifies this`failure, this`dispatcher, this`rejected, Decoders()
      ensures View(proxy) == M.Dispatched(old(View(proxy)), toAudio)
    {
      hide D.Push;
      var track := if toAudio then audio else video;
      if track.None? {
        failure, dispatcher := true, M.Finished;
        return;
      }
      var sent := Submit(track.value, D.Feed(dispatcher.item));
      if sent {
        dispatcher := M.AtTop;
      }
    }

    /** One control entry for one track, passing over an absent one. */
    method SubmitControl(e: D.Entry, toAudio: bool, ghost proxy: P.Proxy) returns (moveOn: bool)
      requires Separate()
      modifies this`failure, this`dispatcher, this`rejected, Decoders()
      ensures var s := old(View(proxy));
              if moveOn then View(proxy) == Entered(s, e, toAudio)
              else s.Of(toAudio).Some? && !Admits(s, e, toAudio) && View(proxy) == M.Submitted(s, toAudio, e, s)
      ensures moveOn ==> Admits(old(View(proxy)), e, toAudio)
    {
      hide D.Push;
      var track := if toAudio then audio else video;
      if track.None? {
        return true;
      }
      moveOn := Submit(track.value, e);
    }

    method MoveOn(connection: Option<P.Id>, ended: bool, at: M.Dispatcher, ghost proxy: P.Proxy)
      modifies this`dispatched, this`finalEof, this`dispatcher
      ensures View(proxy) == old(View(proxy)).(dispatched := connection, finalEof := ended, dispatcher := at)
    {
      dispatched, finalEof, dispatcher := connection, ended, at;
    }

    method SubmitReset(ghost toAudio: bool, ghost proxy: P.Proxy)
      requires Separate() && dispatcher.Resetting?
      modifies this`failure, this`dispatcher, this`rejected, this`dispatched, this`finalEof, Decoders()
      ensures View(proxy) == M.Dispatched(old(View(proxy)), toAudio)
    {
      hide D.Push, M.GivenUp, M.Dispatched, M.Submitted;
      var item, second := dispatcher.item, dispatcher.audio;
      ResetDispatched(View(proxy), toAudio);
      var sent := SubmitControl(D.Reset, second, proxy);
      if !sent {
        return;
      }
      if second {
        MoveOn(Some(item.info), finalEof, M.Feeding(item, false), proxy);
      } else {
        MoveOn(dispatched, finalEof, M.Resetting(item, true), proxy);
      }
    }

    method SubmitEof(ghost toAudio: bool, ghost proxy: P.Proxy)
      requires Separate() && dispatcher.Feeding? && dispatcher.item.Eof? && proxy.loops == loops
      modifies this`failure, this`dispatcher, this`rejected, this`dispatched, this`finalEof, Decoders()
      ensures View(proxy) == M.Dispatched(old(View(proxy)), toAudio)
    {
      hide D.Push, M.GivenUp, M.Dispatched, M.Submitted;
      var item, second := dispatcher.item, dispatcher.audio;
      EofDispatched(View(proxy), toAudio);
      var sent := SubmitControl(D.Feed(item), second, proxy);
      if !sent {
        return;
      }
      if second {
        MoveOn(dispatched, finalEof || !loops, M.AtTop, proxy);
      } else {
        MoveOn(dispatched, finalEof, M.Feeding(item, true), proxy);
      }
    }
  }

  ghost predicate Admits(s: M.Media, e: D.Entry, toAudio: bool) {
    s.Of(toAudio).Some? ==> D.Push(s.Of(toAudio).value, e).1.Accepted?
  }

  /** The entry has been accepted, or there is no such track. */
  ghost function Entered(s: M.Media, e: D.Entry, toAudio: bool): M.Media {
    if s.Of(toAudio).None? then s else s.With(toAudio, D.Push(s.Of(toAudio).value, e).0)
  }

  lemma ResetDispatched(s: M.Media, toAudio: bool)
    requires s.dispatcher.Resetting?
    ensures var item, second := s.dispatcher.item, s.dispatcher.audio;
            M.Dispatched(s, toAudio)
            == if !Admits(s, D.Reset, second) then M.Submitted(s, second, D.Reset, s)
               else if second then
                 Entered(s, D.Reset, second).(dispatched := Some(item.info), dispatcher := M.Feeding(item, false))
               else Entered(s, D.Reset, second).(dispatcher := M.Resetting(item, true))
  {
    hide D.Push;
  }

  lemma EofDispatched(s: M.Media, toAudio: bool)
    requires s.dispatcher.Feeding? && s.dispatcher.item.Eof?
    ensures var item, second := s.dispatcher.item, s.dispatcher.audio;
            M.Dispatched(s, toAudio)
            == if !Admits(s, D.Feed(item), second) then M.Submitted(s, second, D.Feed(item), s)
               else if second then
                 Entered(s, D.Feed(item), second).(finalEof := s.finalEof || !s.proxy.loops, dispatcher := M.AtTop)
               else Entered(s, D.Feed(item), second).(dispatcher := M.Feeding(item, true))
  {
    hide D.Push;
  }
}
