/**
 * What a frame-rate converter must output: a grid of ticks filled from timed pictures, and the incremental rule that
 * produces it.
 */
module FrameGrid {
  import opened Results

  /** An input placed on the grid. */
  datatype Item<P> = Image(picture: P, tick: int) | End(stream: int, endTick: Option<int>)

  /** `captions` is false on a repeated copy, whose closed captions are removed. */
  datatype Output<P> = Picture(source: P, tick: int, captions: bool) | Ended(stream: int, endTick: Option<int>)

  /** A tick that goes back, or further ahead than `limit`, starts a new segment. */
  predicate Jump(previous: int, tick: int, limit: int) {
    tick < previous || tick - previous > limit
  }

  // ----- the reference: every slot of a segment, picture by picture

  ghost predicate Continuous<P>(seg: seq<Item<P>>, limit: int) {
    && (forall i :: 0 <= i < |seg| ==> seg[i].Image?)
    && (forall i :: 0 < i < |seg| ==> !Jump(seg[i - 1].tick, seg[i].tick, limit))
  }

  /** How many images of a continuous segment lie before a tick. */
  ghost function Before<P>(seg: seq<Item<P>>, tick: int, limit: int): (n: nat)
    requires Continuous(seg, limit)
    ensures n <= |seg|
  {
    if seg == [] then 0
    else if seg[|seg| - 1].tick < tick then |seg|
    else Before(seg[..|seg| - 1], tick, limit)
  }

  /** The image a slot shows: the first one on that tick, else the latest one before it. */
  ghost function SourceAt<P>(seg: seq<Item<P>>, tick: int, limit: int): int
    requires Continuous(seg, limit)
  {
    var n := Before(seg, tick, limit);
    if n < |seg| && seg[n].tick == tick then n else n - 1
  }

  /** Slot k of a segment. Captions appear only with the first copy of an image. */
  ghost function Slot<P>(seg: seq<Item<P>>, k: nat, limit: int): Output<P>
    requires Continuous(seg, limit) && seg != []
  {
    var tick := seg[0].tick + k;
    var source := SourceAt(seg, tick, limit);
    Picture(
      if 0 <= source < |seg| then seg[source].picture else seg[0].picture,
      tick,
      k == 0 || SourceAt(seg, tick - 1, limit) != source)
  }

  /** One output per tick, from the first image's to the last image's. */
  ghost function Grid<P>(seg: seq<Item<P>>, limit: int): seq<Output<P>>
    requires Continuous(seg, limit) && seg != []
  {
    var span := seg[|seg| - 1].tick - seg[0].tick + 1;
    seq(if span < 0 then 0 else span, k requires 0 <= k => Slot(seg, k, limit))
  }

  /** Length of the longest continuous prefix. */
  ghost function SegmentLength<P>(items: seq<Item<P>>, limit: int): (n: nat)
    ensures n <= |items| && Continuous(items[..n], limit)
    ensures n == 0 <==> items == [] || items[0].End?
    ensures 0 < n < |items| ==> items[n].End? || Jump(items[n - 1].tick, items[n].tick, limit)
  {
    if items == [] || items[0].End? then 0
    else if |items| == 1 || items[1].End? || Jump(items[0].tick, items[1].tick, limit) then 1
    else
      var n := SegmentLength(items[1..], limit);
      assert items[..n + 1] == [items[0]] + items[1..][..n];
      n + 1
  }

  /** The output of a whole input sequence: segment by segment, ends of stream in place. */
  ghost function Reference<P>(items: seq<Item<P>>, limit: int): seq<Output<P>>
    decreases |items|
  {
    if items == [] then []
    else if items[0].End? then [Ended(items[0].stream, items[0].endTick)] + Reference(items[1..], limit)
    else
      var n := SegmentLength(items, limit);
      Grid(items[..n], limit) + Reference(items[n..], limit)
  }

  // ----- the incremental rule

  /** What is remembered between outputs. */
  datatype History<P> = Empty | Kept(last: P, used: bool, lastTick: int, next: int)

  ghost predicate Late<P>(h: History<P>, tick: int, limit: int) {
    h.Kept? && !Jump(h.lastTick, tick, limit) && tick < h.next
  }

  ghost predicate Early<P>(h: History<P>, tick: int, limit: int) {
    h.Kept? && !Jump(h.lastTick, tick, limit) && tick > h.next
  }

  /** Outputs produced on account of one input. */
  ghost function OutputsOf<P>(h: History<P>, x: Item<P>, limit: int): seq<Output<P>> {
    if x.End? then [Ended(x.stream, x.endTick)]
    else if Late(h, x.tick, limit) then []
    else if Early(h, x.tick, limit) then Fillers(h, x.tick - h.next) + [Picture(x.picture, x.tick, true)]
    else [Picture(x.picture, x.tick, true)]
  }

  ghost function Fillers<P>(h: History<P>, count: nat): seq<Output<P>>
    requires h.Kept?
  {
    seq(count, k => Picture(h.last, h.next + k, k == 0 && !h.used))
  }

  ghost function HistoryAfter<P>(h: History<P>, x: Item<P>, limit: int): History<P> {
    if x.End? then Empty
    else if Late(h, x.tick, limit) then h.(last := x.picture, used := false)
    else Kept(x.picture, true, x.tick, x.tick + 1)
  }

  ghost function Expand<P>(h: History<P>, items: seq<Item<P>>, limit: int): seq<Output<P>>
    decreases items
  {
    if items == [] then []
    else OutputsOf(h, items[0], limit) + Expand(HistoryAfter(h, items[0], limit), items[1..], limit)
  }

  ghost function FinalHistory<P>(h: History<P>, items: seq<Item<P>>, limit: int): History<P>
    decreases items
  {
    if items == [] then h else FinalHistory(HistoryAfter(h, items[0], limit), items[1..], limit)
  }

  lemma Associate<T>(a: seq<T>, b: seq<T>, c: seq<T>)
    ensures a + (b + c) == (a + b) + c
  {
  }

  lemma {:induction false} ExpandConcat<P>(h: History<P>, a: seq<Item<P>>, b: seq<Item<P>>, limit: int)
    ensures Expand(h, a + b, limit) == Expand(h, a, limit) + Expand(FinalHistory(h, a, limit), b, limit)
    ensures FinalHistory(h, a + b, limit) == FinalHistory(FinalHistory(h, a, limit), b, limit)
    decreases a
  {
    hide OutputsOf, HistoryAfter;
    if a == [] {
      assert a + b == b;
    } else {
      assert (a + b)[0] == a[0] && (a + b)[1..] == a[1..] + b;
      var next := HistoryAfter(h, a[0], limit);
      ExpandConcat(next, a[1..], b, limit);
      var rest := Expand(FinalHistory(next, a[1..], limit), b, limit);
      Associate(OutputsOf(h, a[0], limit), Expand(next, a[1..], limit), rest);
    }
  }

  lemma ExpandOne<P>(h: History<P>, x: Item<P>, limit: int)
    ensures Expand(h, [x], limit) == OutputsOf(h, x, limit)
    ensures FinalHistory(h, [x], limit) == HistoryAfter(h, x, limit)
  {
    assert [x][1..] == [];
  }

  // ----- the incremental rule produces the reference

  /** From no history, consuming inputs one by one outputs exactly the segment grids and the ends of stream. */
  lemma {:induction false} ExpandIsReference<P>(items: seq<Item<P>>, limit: int)
    requires limit >= 1
    ensures Expand(Empty, items, limit) == Reference(items, limit)
    decreases |items|
  {
    if items != [] {
      if items[0].End? {
        ExpandIsReference(items[1..], limit);
      } else {
        var n := SegmentLength(items, limit);
        var seg, rest := items[..n], items[n..];
        assert items == seg + rest;
        ExpandConcat(Empty, seg, rest, limit);
        SegmentGrid(seg, limit);
        if rest != [] {
          assert rest[0] == items[n];
        }
        ExpandIsReference(rest, limit);
      }
    }
  }

  /** The last image of a segment has been shown unless it shares its tick with the one before. */
  ghost predicate LastShown<P>(seg: seq<Item<P>>, limit: int)
    requires Continuous(seg, limit) && seg != []
  {
    |seg| == 1 || seg[|seg| - 2].tick < seg[|seg| - 1].tick
  }

  ghost function SegmentHistory<P>(seg: seq<Item<P>>, limit: int): History<P>
    requires Continuous(seg, limit) && seg != []
  {
    var last := seg[|seg| - 1];
    Kept(last.picture, LastShown(seg, limit), last.tick, last.tick + 1)
  }

  lemma {:induction false} SegmentGrid<P>(seg: seq<Item<P>>, limit: int)
    requires Continuous(seg, limit) && seg != [] && limit >= 1
    ensures Expand(Empty, seg, limit) == Grid(seg, limit)
    ensures FinalHistory(Empty, seg, limit) == SegmentHistory(seg, limit)
    decreases |seg|
  {
    var pre, x := seg[..|seg| - 1], seg[|seg| - 1];
    assert seg == pre + [x];
    if pre == [] {
      ExpandOne(Empty, x, limit);
      assert seg == [x] && seg[..0] == [];
      assert Before(seg, x.tick, limit) == 0;
      assert Grid(seg, limit) == [Slot(seg, 0, limit)];
    } else {
      SegmentGrid(pre, limit);
      ExpandConcat(Empty, pre, [x], limit);
      ExpandOne(SegmentHistory(pre, limit), x, limit);
      GridSnoc(pre, x, limit);
    }
  }

  lemma {:induction false} TicksInOrder<P>(seg: seq<Item<P>>, i: nat, j: nat, limit: int)
    requires Continuous(seg, limit) && i <= j < |seg|
    ensures seg[i].tick <= seg[j].tick
    decreases j
  {
    if i < j {
      TicksInOrder(seg, i, j - 1, limit);
    }
  }

  /** Before splits the segment into the images under a tick and the others. */
  lemma {:induction false} BeforeSplits<P>(seg: seq<Item<P>>, tick: int, i: nat, limit: int)
    requires Continuous(seg, limit) && i < |seg|
    ensures seg[i].tick < tick <==> i < Before(seg, tick, limit)
    decreases |seg|
  {
    TicksInOrder(seg, i, |seg| - 1, limit);
    if seg[|seg| - 1].tick >= tick && i < |seg| - 1 {
      BeforeSplits(seg[..|seg| - 1], tick, i, limit);
    }
  }

  lemma BeforeSnoc<P>(pre: seq<Item<P>>, x: Item<P>, tick: int, limit: int)
    requires Continuous(pre + [x], limit) && Continuous(pre, limit) && x.Image?
    ensures Before(pre + [x], tick, limit) == if x.tick < tick then |pre| + 1 else Before(pre, tick, limit)
  {
    assert (pre + [x])[..|pre|] == pre;
  }

  /** Adding an image does not change what earlier slots show. */
  lemma EarlierSlotKept<P>(pre: seq<Item<P>>, x: Item<P>, tick: int, limit: int)
    requires pre != [] && Continuous(pre + [x], limit) && Continuous(pre, limit) && x.Image?
    requires tick <= pre[|pre| - 1].tick
    ensures SourceAt(pre + [x], tick, limit) == SourceAt(pre, tick, limit) < |pre|
  {
    TicksInOrder(pre + [x], |pre| - 1, |pre|, limit);
    BeforeSnoc(pre, x, tick, limit);
    BeforeSplits(pre, tick, |pre| - 1, limit);
  }

  lemma LastSlotSource<P>(seg: seq<Item<P>>, limit: int)
    requires Continuous(seg, limit) && seg != []
    ensures SourceAt(seg, seg[|seg| - 1].tick, limit) == |seg| - 1 <==> LastShown(seg, limit)
  {
    var last := |seg| - 1;
    var tick := seg[last].tick;
    var n := Before(seg, tick, limit);
    BeforeSplits(seg, tick, last, limit);
    BeforeSplits(seg, tick, n, limit);
    TicksInOrder(seg, n, last, limit);
    if last > 0 {
      BeforeSplits(seg, tick, last - 1, limit);
      TicksInOrder(seg, last - 1, last, limit);
    }
  }

  lemma OldSlotKept<P>(pre: seq<Item<P>>, x: Item<P>, k: nat, limit: int)
    requires pre != [] && Continuous(pre + [x], limit) && Continuous(pre, limit) && x.Image?
    requires pre[0].tick + k <= pre[|pre| - 1].tick
    ensures Slot(pre + [x], k, limit) == Slot(pre, k, limit)
  {
    EarlierSlotKept(pre, x, pre[0].tick + k, limit);
    EarlierSlotKept(pre, x, pre[0].tick + k - 1, limit);
  }

  /** Slots between the last two images repeat the first of them; the new image's own slot shows it. */
  lemma NewSlot<P>(pre: seq<Item<P>>, x: Item<P>, k: nat, limit: int)
    requires pre != [] && Continuous(pre + [x], limit) && Continuous(pre, limit) && x.Image?
    requires pre[|pre| - 1].tick < pre[0].tick + k <= x.tick
    ensures var (last, tick) := (pre[|pre| - 1], pre[0].tick + k);
              Slot(pre + [x], k, limit)
              == if tick == x.tick then Picture(x.picture, tick, true)
                 else Picture(last.picture, tick, tick == last.tick + 1 && !LastShown(pre, limit))
  {
    var tick, last := pre[0].tick + k, pre[|pre| - 1].tick;
    TicksInOrder(pre, 0, |pre| - 1, limit);
    BeforeSnoc(pre, x, tick, limit);
    BeforeSnoc(pre, x, tick - 1, limit);
    if tick == last + 1 {
      EarlierSlotKept(pre, x, last, limit);
      LastSlotSource(pre, limit);
    }
  }

  lemma GridSnoc<P>(pre: seq<Item<P>>, x: Item<P>, limit: int)
    requires pre != [] && Continuous(pre + [x], limit) && Continuous(pre, limit) && x.Image?
    requires limit >= 1
    ensures Grid(pre + [x], limit) == Grid(pre, limit) + OutputsOf(SegmentHistory(pre, limit), x, limit)
  {
    var seg := pre + [x];
    TicksInOrder(pre, 0, |pre| - 1, limit);
    TicksInOrder(seg, |pre| - 1, |pre|, limit);
    var whole, kept, added := Grid(seg, limit), Grid(pre, limit), OutputsOf(SegmentHistory(pre, limit), x, limit);
    assert |added| == x.tick - pre[|pre| - 1].tick;
    forall k | 0 <= k < |kept|
      ensures whole[k] == kept[k]
    {
      OldSlotKept(pre, x, k, limit);
    }
    forall k | |kept| <= k < |whole|
      ensures whole[k] == added[k - |kept|]
    {
      NewSlot(pre, x, k, limit);
    }
    assert whole == kept + added;
  }

  // ----- what the reference says

  /** Slot k of a segment carries tick k and shows the first image on that tick, or else the latest one before it. */
  lemma SlotShowsFirstOrLatestEarlier<P>(seg: seq<Item<P>>, k: nat, limit: int)
    requires Continuous(seg, limit) && seg != []
    requires seg[0].tick + k <= seg[|seg| - 1].tick
    ensures |Grid(seg, limit)| == seg[|seg| - 1].tick - seg[0].tick + 1
    ensures Grid(seg, limit)[k].tick == seg[0].tick + k
    ensures exists i ::
              && 0 <= i < |seg|
              && Grid(seg, limit)[k].source == seg[i].picture
              && ShowsAt(seg, i, seg[0].tick + k)
  {
    var tick := seg[0].tick + k;
    SourceShows(seg, tick, limit);
    assert Grid(seg, limit)[k].source == seg[SourceAt(seg, tick, limit)].picture;
  }

  /** Image i is the first one on the tick, or the last of all images up to a tick that has none. */
  ghost predicate ShowsAt<P>(seg: seq<Item<P>>, i: int, tick: int)
    requires 0 <= i < |seg| && forall j :: 0 <= j < |seg| ==> seg[j].Image?
  {
    if seg[i].tick == tick then forall j :: 0 <= j < i ==> seg[j].tick < tick
    else seg[i].tick < tick && forall j :: i < j < |seg| ==> seg[j].tick > tick
  }

  lemma SourceShows<P>(seg: seq<Item<P>>, tick: int, limit: int)
    requires Continuous(seg, limit) && seg != []
    requires seg[0].tick <= tick <= seg[|seg| - 1].tick
    ensures var i := SourceAt(seg, tick, limit); 0 <= i < |seg| && ShowsAt(seg, i, tick)
  {
    var n := Before(seg, tick, limit);
    BeforeSplits(seg, tick, |seg| - 1, limit);
    forall j | 0 <= j < |seg|
      ensures seg[j].tick < tick <==> j < n
    {
      BeforeSplits(seg, tick, j, limit);
    }
    if seg[n].tick != tick {
      forall j | n <= j < |seg|
        ensures seg[j].tick > tick
      {
        TicksInOrder(seg, n, j, limit);
      }
    }
  }

  lemma {:induction false} SourcesInOrder<P>(seg: seq<Item<P>>, tick: int, later: int, limit: int)
    requires Continuous(seg, limit) && seg != []
    requires seg[0].tick <= tick <= later <= seg[|seg| - 1].tick
    ensures SourceAt(seg, tick, limit) <= SourceAt(seg, later, limit)
  {
    SourceShows(seg, tick, limit);
    SourceShows(seg, later, limit);
    var i, j := SourceAt(seg, tick, limit), SourceAt(seg, later, limit);
    if j < i {
      TicksInOrder(seg, j, i, limit);
    }
  }

  /** A slot keeps its captions exactly when no earlier slot of the segment shows the same image. */
  lemma CaptionsShownOnce<P>(seg: seq<Item<P>>, k: nat, limit: int)
    requires Continuous(seg, limit) && seg != []
    requires seg[0].tick + k <= seg[|seg| - 1].tick
    ensures k < |Grid(seg, limit)|
    ensures Grid(seg, limit)[k].captions
            <==> forall t :: seg[0].tick <= t < seg[0].tick + k ==>
              SourceAt(seg, t, limit) != SourceAt(seg, seg[0].tick + k, limit)
  {
    var tick := seg[0].tick + k;
    forall t | seg[0].tick <= t < tick
      ensures SourceAt(seg, t, limit) <= SourceAt(seg, tick - 1, limit) <= SourceAt(seg, tick, limit)
    {
      SourcesInOrder(seg, t, tick - 1, limit);
      SourcesInOrder(seg, tick - 1, tick, limit);
    }
  }
}
