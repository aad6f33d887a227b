/** What pinning is for: marks the next request can read, near enough, and no change the second time. */
module Recurrence {
  import opened Basics
  import opened Wire
  import opened Marks
  import opened Pinning

  // ----- what only depends on the content -----

  lemma SameKinds(a: seq<Block>, b: seq<Block>, k: nat)
    requires SameBlocks(a, b) && k < |a|
    ensures Cacheable(a[k]) == Cacheable(b[k]) && Uncacheable(a[k]) == Uncacheable(b[k])
    ensures a[k].ToolResult? == b[k].ToolResult? && Droppable(a[k]) == Droppable(b[k])
  {
    assert Plain(a[k]) == Plain(b[k]);
  }

  lemma SameTurns(a: seq<Message>, b: seq<Message>, i: nat)
    requires SamePlain(a, b) && i < |a|
    ensures OpensTurn(a[i]) <==> OpensTurn(b[i])
    ensures Thinks(a[i]) <==> Thinks(b[i])
  {
    SamePlainAt(a, b, i);
    var x, y := BlocksOf(a[i]), BlocksOf(b[i]);
    forall k | 0 <= k < |x|
      ensures Uncacheable(x[k]) == Uncacheable(y[k]) && x[k].ToolResult? == y[k].ToolResult?
    {
      SameKinds(x, y, k);
    }
  }

  lemma {:induction false} SameLastCacheable(a: seq<Block>, b: seq<Block>, n: nat)
    requires SameBlocks(a, b) && n <= |a|
    ensures LastCacheable(a, n) == LastCacheable(b, n)
  {
    if n > 0 {
      SameKinds(a, b, n - 1);
      SameLastCacheable(a, b, n - 1);
    }
  }

  lemma {:induction false} SameLastIn(a: seq<Message>, b: seq<Message>, n: nat)
    requires SamePlain(a, b) && n <= |a|
    ensures LastCacheableIn(a, n) == LastCacheableIn(b, n)
  {
    if n > 0 {
      SameLastOf(a, b, n - 1);
      SameLastIn(a, b, n - 1);
    }
  }

  lemma SameLastOf(a: seq<Message>, b: seq<Message>, i: nat)
    requires SamePlain(a, b) && i < |a|
    ensures |BlocksOf(a[i])| == |BlocksOf(b[i])|
    ensures LastCacheable(BlocksOf(a[i]), |BlocksOf(a[i])|) == LastCacheable(BlocksOf(b[i]), |BlocksOf(b[i])|)
  {
    SamePlainAt(a, b, i);
    SameLastCacheable(BlocksOf(a[i]), BlocksOf(b[i]), |BlocksOf(a[i])|);
  }

  lemma {:induction false} SameLast(a: seq<Message>, b: seq<Message>, n: nat)
    requires SamePlain(a, b) && n <= |a|
    ensures LastAssistantTo(a, n) == LastAssistantTo(b, n)
  {
    if n > 0 {
      SamePlainAt(a, b, n - 1);
      SameLast(a, b, n - 1);
    }
  }

  lemma {:induction false} SameFirstUser(a: seq<Message>, b: seq<Message>, i: nat)
    requires SamePlain(a, b) && i <= |a|
    ensures FirstUser(a, i) == FirstUser(b, i)
    decreases |a| - i
  {
    if i < |a| {
      SamePlainAt(a, b, i);
      SameFirstUser(a, b, i + 1);
    }
  }

  lemma {:induction false} SameOpening(a: seq<Message>, b: seq<Message>, end: nat)
    requires SamePlain(a, b) && end <= |a|
    ensures Opening(a, end) == Opening(b, end)
  {
    if end > 0 {
      SameTurns(a, b, end - 1);
      SameOpening(a, b, end - 1);
    }
  }

  lemma {:induction false} SameThought(a: seq<Message>, b: seq<Message>, from: nat, end: nat)
    requires SamePlain(a, b) && from <= end <= |a|
    ensures FirstThought(a, from, end) == FirstThought(b, from, end)
    decreases end - from
  {
    if from < end {
      SameTurns(a, b, from);
      SameThought(a, b, from + 1, end);
    }
  }

  lemma {:induction false} SameUser(a: seq<Message>, b: seq<Message>, from: nat, end: nat)
    requires SamePlain(a, b) && from < end <= |a|
    ensures LastUser(a, from, end) == LastUser(b, from, end)
    decreases end
  {
    if end > from + 1 {
      SamePlainAt(a, b, end - 1);
      SameUser(a, b, from, end - 1);
    }
  }

  lemma SameFrame(a: seq<Message>, b: seq<Message>, last: nat)
    requires SamePlain(a, b) && last < |a|
    ensures TurnFrame(a, last) == TurnFrame(b, last)
  {
    SameOpening(a, b, last);
    var opening := Opening(a, last);
    if opening != -1 {
      SameThought(a, b, opening + 1, last + 1);
      var thought := FirstThought(a, opening + 1, last + 1);
      if thought != last + 1 {
        SameUser(a, b, opening, thought);
      }
    }
  }

  /** The open turn starts at the same block, whatever the marks. */
  lemma SameTurnStart(a: seq<Message>, b: seq<Message>)
    requires SamePlain(a, b)
    ensures TurnStart(a) == TurnStart(b)
  {
    SameLast(a, b, |a|);
    var last := LastAssistant(a);
    if last != -1 {
      SameFrame(a, b, last);
      match TurnFrame(a, last)
      case None =>
      case Some(frame) =>
        SameLastOf(a, b, frame);
    }
  }

  lemma {:induction false} SamePrefix(a: seq<Block>, b: seq<Block>, q: seq<Block>, i: nat)
    requires SameBlocks(a, b) && i <= |a| && i <= |q|
    ensures SharedPrefix(a, q, i) == SharedPrefix(b, q, i)
    decreases |a| - i
  {
    if i < |a| && i < |q| {
      assert Plain(a[i]) == Plain(b[i]);
      SamePrefix(a, b, q, i + 1);
    }
  }

  lemma SameStable(a: seq<Message>, b: seq<Message>, q: seq<Block>)
    requires SamePlain(a, b)
    ensures StableNewest(a, q) == StableNewest(b, q)
  {
    SameLast(a, b, |a|);
    var at := LastAssistant(a) + 1;
    if at < |a| {
      SamePlainAt(a, b, at);
      var x, y := BlocksOf(a[at]), BlocksOf(b[at]);
      SamePrefix(x, y, q, 0);
      var n := SharedPrefix(x, q, 0);
      if n < |x| {
        SameKinds(x, y, n);
      }
    }
  }

  lemma SameTarget(a: seq<Message>, b: seq<Message>, q: seq<Block>)
    requires SamePlain(a, b)
    ensures Target(a, q) == Target(b, q)
  {
    SameLast(a, b, |a|);
    SameStable(a, b, q);
    var last, n := LastAssistant(a), StableNewest(a, q);
    if n > 0 {
      SameLastNewest(a, b, last + 1, n);
    }
    SameLastIn(a, b, last + 1);
  }

  lemma SameLastNewest(a: seq<Message>, b: seq<Message>, at: nat, n: nat)
    requires SamePlain(a, b) && at < |a| && n <= |BlocksOf(a[at])|
    ensures n <= |BlocksOf(b[at])| && LastCacheable(BlocksOf(a[at]), n) == LastCacheable(BlocksOf(b[at]), n)
  {
    SamePlainAt(a, b, at);
    SameLastCacheable(BlocksOf(a[at]), BlocksOf(b[at]), n);
  }

  // ----- every mark is read again -----

  /** The next request: everything through the last assistant message, then the frame the host queried. */
  ghost predicate Replays(next: seq<Message>, ms: seq<Message>, q: seq<Block>) {
    var last := LastAssistant(ms);
    && last + 1 < |next|
    && (forall i :: 0 <= i <= last ==> SameMessage(next[i], ms[i]))
    && next[last + 1].role == User
    && |q| <= |BlocksOf(next[last + 1])|
    && forall k :: 0 <= k < |q| ==> Plain(BlocksOf(next[last + 1])[k]) == Plain(q[k])
  }

  /** Marks apart, the two requests are the same from the start through block `p`. */
  ghost predicate SameThrough(a: seq<Message>, b: seq<Message>, p: Pos) {
    && At(a, p) && At(b, p)
    && (forall i :: 0 <= i < p.i ==> SameMessage(a[i], b[i]))
    && a[p.i].role == b[p.i].role
    && forall k :: 0 <= k <= p.j ==> Plain(BlocksOf(a[p.i])[k]) == Plain(BlocksOf(b[p.i])[k])
  }

  /** Through the target, a request and any next request are the same. */
  lemma TargetRecurs(ms: seq<Message>, q: seq<Block>, next: seq<Message>, p: Pos)
    requires Target(ms, q).Some? && Replays(next, ms, q)
    requires At(ms, p) && !Before(Target(ms, q).value, p)
    ensures SameThrough(ms, next, p)
  {
    var last := LastAssistant(ms);
    forall i | 0 <= i <= last ensures SameMessage(ms[i], next[i]) {
      assert SameMessage(next[i], ms[i]);
    }
    if p.i <= last {
      assert SameMessage(ms[p.i], next[p.i]);
    }
  }

  lemma KeepNone(ms: seq<Message>, outside: nat, t: Pos)
    requires At(ms, t) && MarksAfter(ms, t) == Nil
    ensures At(Keep(ms, outside, t), t) && MarksAfter(Keep(ms, outside, t), t) == Nil
  {
    var out := Keep(ms, outside, t);
    KeepAt(ms, outside, t);
    SamePlainAt(out, ms, t.i);
    MarksAfterNone(ms, t);
    forall p | Before(t, p) ensures !MarkedAt(out, p) {
      if At(out, p) {
        SamePlainAt(out, ms, p.i);
        assert !MarkedAt(ms, p);
        KeepLater(ms, outside, t, p);
      }
    }
    MarksAfterNone(out, t);
  }

  lemma KeepLater(ms: seq<Message>, outside: nat, t: Pos, p: Pos)
    requires At(ms, t) && At(ms, p) && Before(t, p) && !MarkedAt(ms, p)
    ensures At(Keep(ms, outside, t), p) && !MarkedAt(Keep(ms, outside, t), p)
  {
    var f := TurnStart(ms);
    if f.Some? && OutOfReach(ms, f.value, t) && NextMark(ms, f.value).Some? {
      var s := NextMark(ms, f.value).value;
      PutElsewhere(ms, f.value, Get(ms, s).mark, p);
      PutElsewhere(ms, s, None, f.value);
      PutElsewhere(ms, s, None, p);
      PutElsewhere(Put(ms, s, None), f.value, Get(ms, s).mark, p);
    }
  }

  /** After pinning no mark is later than the target. */
  lemma PinnedMarks(ms: seq<Message>, outside: nat, q: seq<Block>)
    requires Target(ms, q).Some?
    ensures var out, t := PinMarks(ms, outside, q), Target(ms, q).value;
            At(out, t) && MarksAfter(out, t) == Nil && forall p :: MarkedAt(out, p) ==> !Before(t, p)
  {
    var t := Target(ms, q).value;
    FoldAt(ms, t);
    FoldMarks(ms, t);
    KeepNone(Fold(ms, t), outside, t);
    MarksAfterNone(PinMarks(ms, outside, q), t);
  }

  /** The messages after native's prepended context is dropped. */
  function Framed(ms: seq<Message>, q: seq<Block>): seq<Message> {
    match FrameFirst(ms, q)
    case Changed(first) => first
    case _ => ms
  }

  lemma SamePlainThrough(a: seq<Message>, b: seq<Message>, c: seq<Message>, p: Pos)
    requires SamePlain(a, b) && SameThrough(b, c, p)
    ensures SameThrough(a, c, p)
  {
    SamePlainAt(a, b, p.i);
    forall i | 0 <= i < p.i ensures SameMessage(a[i], c[i]) {
      assert SameMessage(b[i], c[i]);
      SamePlainAt(a, b, i);
    }
  }

  /**
    Cache recurrence: when the request has a target, every block mark pinning leaves is at it or before it, and any
    next request repeats, marks apart, everything from the start through that mark.
   */
  lemma PinRecurs(ms: seq<Message>, outside: nat, q: seq<Block>, next: seq<Message>, p: Pos)
    requires q != [] && !FrameFirst(ms, q).Raised? && Target(Framed(ms, q), q).Some?
    requires Replays(next, Framed(ms, q), q) && MarkedAt(Pin(ms, outside, q), p)
    ensures !Before(Target(Framed(ms, q), q).value, p)
    ensures SameThrough(Pin(ms, outside, q), next, p)
  {
    var first, out := Framed(ms, q), Pin(ms, outside, q);
    if AllMarks(ms) == Nil {
      NoMarksAtAll(ms);
    }
    PinnedMarks(first, outside, q);
    PinContent(first, outside, q);
    SamePlainAt(out, first, p.i);
    TargetRecurs(first, q, next, p);
    SamePlainThrough(out, first, next, p);
  }

  // ----- the lookback -----

  function MessageCells(i: nat, width: nat, j: nat): seq<Pos>
    decreases width - j
  {
    if j >= width then [] else [Pos(i, j)] + MessageCells(i, width, j + 1)
  }

  /** Every position of a request in document order. */
  function Cells(ms: seq<Message>, from: nat): seq<Pos>
    decreases |ms| - from
  {
    if from >= |ms| then [] else MessageCells(from, Width(ms[from]), 0) + Cells(ms, from + 1)
  }

  lemma {:induction false} MessageCellsAre(i: nat, width: nat, j: nat)
    requires j <= width
    ensures |MessageCells(i, width, j)| == width - j
    ensures forall k :: 0 <= k < width - j ==> MessageCells(i, width, j)[k] == Pos(i, j + k)
    decreases width - j
  {
    if j < width {
      MessageCellsAre(i, width, j + 1);
    }
  }

  lemma {:induction false} CellsOrdered(ms: seq<Message>, from: nat)
    ensures forall a :: 0 <= a < |Cells(ms, from)| ==> from <= Cells(ms, from)[a].i
    ensures forall a, b :: 0 <= a < b < |Cells(ms, from)| ==> Before(Cells(ms, from)[a], Cells(ms, from)[b])
    decreases |ms| - from
  {
    if from < |ms| {
      MessageCellsAre(from, Width(ms[from]), 0);
      CellsOrdered(ms, from + 1);
    }
  }

  lemma {:induction false} CellOf(ms: seq<Message>, from: nat, p: Pos)
    requires from <= p.i < |ms| && p.j < Width(ms[p.i])
    ensures var a := Span(ms, from, p.i) + p.j; a < |Cells(ms, from)| && Cells(ms, from)[a] == p
    decreases |ms| - from
  {
    MessageCellsAre(from, Width(ms[from]), 0);
    if from < p.i {
      CellOf(ms, from + 1, p);
    }
  }

  lemma {:induction false} SpanAdd(ms: seq<Message>, a: nat, b: nat, c: nat)
    requires a <= b <= c <= |ms|
    ensures Span(ms, a, c) == Span(ms, a, b) + Span(ms, b, c)
    decreases b - a
  {
    if a < b {
      SpanAdd(ms, a + 1, b, c);
    }
  }

  /** The arithmetic counts positions: both ends included, a message that is not a list once. */
  lemma DistanceCounts(ms: seq<Message>, f: Pos, t: Pos)
    requires At(ms, f) && At(ms, t) && !Before(t, f)
    ensures exists a, b :: 0 <= a <= b < |Cells(ms, 0)| && Cells(ms, 0)[a] == f && Cells(ms, 0)[b] == t
                           && Distance(ms, f, t) == b - a + 1
    ensures forall a, b :: 0 <= a < b < |Cells(ms, 0)| ==> Before(Cells(ms, 0)[a], Cells(ms, 0)[b])
  {
    CellOf(ms, 0, f);
    CellOf(ms, 0, t);
    SpanAdd(ms, 0, f.i, t.i);
    CellsOrdered(ms, 0);
  }

  /** A list's blocks are positions, and so is a message without any list; an empty list has none. */
  lemma CellsAre(ms: seq<Message>, p: Pos)
    ensures p in Cells(ms, 0) <==> p.i < |ms| && if ms[p.i].body.Blocks? then p.j < |ms[p.i].body.blocks| else p.j == 0
  {
    if p.i < |ms| && (if ms[p.i].body.Blocks? then p.j < |ms[p.i].body.blocks| else p.j == 0) {
      CellOf(ms, 0, p);
    }
    if p in Cells(ms, 0) {
      CellsInside(ms, 0, p);
    }
  }

  lemma {:induction false} CellsInside(ms: seq<Message>, from: nat, p: Pos)
    requires p in Cells(ms, from)
    ensures p.i < |ms| && p.j < Width(ms[p.i])
    decreases |ms| - from
  {
    MessageCellsAre(from, Width(ms[from]), 0);
    if p !in MessageCells(from, Width(ms[from]), 0) {
      CellsInside(ms, from + 1, p);
    }
  }

  /** Some block after `p` is marked. */
  ghost predicate MarkAfter(ms: seq<Message>, p: Pos) {
    exists x :: Before(p, x) && MarkedAt(ms, x)
  }

  /** Some block strictly between the two is marked. */
  ghost predicate MarkBetween(ms: seq<Message>, f: Pos, t: Pos) {
    exists x :: Before(f, x) && Before(x, t) && MarkedAt(ms, x)
  }

  /** Some block at `t` or after it is marked. */
  ghost predicate MarkFrom(ms: seq<Message>, t: Pos) {
    exists x :: !Before(x, t) && MarkedAt(ms, x)
  }

  /** The start of the turn has a mark, or the lookback of one on the target reaches it. */
  predicate Reached(ms: seq<Message>, f: Pos, t: Pos)
    requires At(ms, f) && At(ms, t)
  {
    MarkedAt(ms, f) || Distance(ms, f, t) <= LOOKBACK
  }

  /**
    When pinning reaches the start of the open turn, said of the request as it came: exactly when it is reached already,
    or a later block is marked and there is room for one more mark once those after the target are one, or there is
    none but one strictly between can move and the target keeps one.
   */
  lemma TurnStartReachable(ms: seq<Message>, outside: nat, q: seq<Block>, f: Pos)
    requires Target(ms, q).Some? && TurnStart(ms) == Some(f) && Before(f, Target(ms, q).value)
    ensures var out, t := PinMarks(ms, outside, q), Target(ms, q).value;
            && At(out, f) && At(out, t) && Distance(out, f, t) == Distance(ms, f, t)
            && (Reached(out, f, t)
                <==> Reached(ms, f, t)
                     || (&& MarkAfter(ms, f)
                         && (|| MessagesCount(Fold(ms, t), 0) + outside < MAX_BREAKPOINTS
                             || (MarkBetween(ms, f, t) && MarkFrom(ms, t)))))
            && MessagesCount(Fold(ms, t), 0) <= MessagesCount(ms, 0)
  {
    var t := Target(ms, q).value;
    var folded, out := Fold(ms, t), PinMarks(ms, outside, q);
    FoldAt(ms, t);
    FoldCount(ms, t);
    SameTurnStart(folded, ms);
    SamePlainAt(folded, ms, f.i);
    KeepAt(folded, outside, t);
    SamePlainAt(out, folded, f.i);
    SamePlainAt(out, folded, t.i);
    SameDistance(folded, ms, f, t);
    SameDistance(out, folded, f, t);
    FoldMarks(ms, t);
    FoldedMarks(ms, t, f);
    KeepReaches(folded, outside, t, f);
  }

  lemma SameDistance(a: seq<Message>, b: seq<Message>, f: Pos, t: Pos)
    requires SamePlain(a, b) && At(a, f) && At(a, t) && At(b, f) && At(b, t)
    ensures Distance(a, f, t) == Distance(b, f, t)
  {
    SameSpan(a, b, f.i, t.i);
  }

  lemma {:induction false} SameSpan(a: seq<Message>, b: seq<Message>, from: nat, to: nat)
    requires SamePlain(a, b) && to <= |a|
    ensures Span(a, from, to) == Span(b, from, to)
    decreases if from < to then to - from else 0
  {
    if from < to {
      SamePlainAt(a, b, from);
      SameSpan(a, b, from + 1, to);
    }
  }

  /** Folding keeps the marks before the target, and those from the target on as one on it. */
  lemma FoldedAt(ms: seq<Message>, t: Pos, p: Pos)
    requires At(ms, t) && Cacheable(Get(ms, t)) && Before(p, t)
    ensures MarkedAt(Fold(ms, t), p) <==> MarkedAt(ms, p)
  {
    if At(ms, p) && MarksAfter(ms, t) != Nil {
      var cleared := ClearAfter(ms, t);
      ClearAfterMarks(ms, t);
      assert At(cleared, p) && Get(cleared, p) == Get(ms, p);
      PutElsewhere(cleared, t, Some(MarksAfter(ms, t).head), p);
    }
  }

  lemma FoldedTarget(ms: seq<Message>, t: Pos)
    requires At(ms, t) && Cacheable(Get(ms, t))
    ensures MarkedAt(Fold(ms, t), t) <==> MarkFrom(ms, t)
  {
    MarksAfterNone(ms, t);
    if MarksAfter(ms, t) != Nil {
      var x :| Before(t, x) && MarkedAt(ms, x);
      assert !Before(x, t) && MarkedAt(ms, x);
      ClearAfterMarks(ms, t);
      PutMarks(ClearAfter(ms, t), t, Some(MarksAfter(ms, t).head));
    } else {
      assert Marked(Get(ms, t)) ==> !Before(t, t) && MarkedAt(ms, t);
      forall x | !Before(x, t) && MarkedAt(ms, x) ensures x == t {
      }
    }
  }

  lemma FoldedMarks(ms: seq<Message>, t: Pos, f: Pos)
    requires At(ms, t) && Cacheable(Get(ms, t)) && Before(f, t)
    ensures var folded := Fold(ms, t);
            && (MarkedAt(folded, f) <==> MarkedAt(ms, f)) && (MarkedAt(folded, t) <==> MarkFrom(ms, t))
            && (MarkBetween(folded, f, t) <==> MarkBetween(ms, f, t)) && (MarkAfter(folded, f) <==> MarkAfter(ms, f))
  {
    var folded := Fold(ms, t);
    FoldMarks(ms, t);
    MarksAfterNone(folded, t);
    FoldedTarget(ms, t);
    hide Fold;
    forall p | Before(p, t) ensures MarkedAt(folded, p) <==> MarkedAt(ms, p) {
      FoldedAt(ms, t, p);
    }
    if MarkAfter(ms, f) {
      var x :| Before(f, x) && MarkedAt(ms, x);
      assert Before(x, t) ==> MarkedAt(folded, x);
      assert !Before(x, t) ==> MarkedAt(folded, t);
    }
    if MarkAfter(folded, f) {
      var x :| Before(f, x) && MarkedAt(folded, x);
      assert Before(x, t) ==> MarkedAt(ms, x);
      if !Before(x, t) {
        var y :| !Before(y, t) && MarkedAt(ms, y);
        assert Before(f, y);
      }
    }
  }

  lemma KeepReaches(ms: seq<Message>, outside: nat, t: Pos, f: Pos)
    requires At(ms, t) && TurnStart(ms) == Some(f) && Before(f, t)
    ensures var out := Keep(ms, outside, t);
            && At(out, f) && At(out, t)
            && (MarkedAt(out, f) || Distance(ms, f, t) <= LOOKBACK
                <==> Reached(ms, f, t)
                     || (&& MarkAfter(ms, f)
                         && (|| MessagesCount(ms, 0) + outside < MAX_BREAKPOINTS
                             || (MarkBetween(ms, f, t) && MarkedAt(ms, t)))))
  {
    var next := NextMark(ms, f);
    KeepAt(ms, outside, t);
    SamePlainAt(Keep(ms, outside, t), ms, f.i);
    SamePlainAt(Keep(ms, outside, t), ms, t.i);
    forall x | Before(f, x) && MarkedAt(ms, x) ensures next.Some? && !Before(x, next.value) {
      NextMarkLeast(ms, f, x);
    }
    assert MarkAfter(ms, f) <==> next.Some?;
    assert MarkBetween(ms, f, t) <==> next.Some? && Before(next.value, t);
    if OutOfReach(ms, f, t) && next.Some?
       && (MessagesCount(ms, 0) + outside < MAX_BREAKPOINTS || (Before(next.value, t) && Marked(Get(ms, t)))) {
      KeepMarks(ms, outside, t, f);
    }
  }

  lemma KeepMarks(ms: seq<Message>, outside: nat, t: Pos, f: Pos)
    requires At(ms, t) && TurnStart(ms) == Some(f) && OutOfReach(ms, f, t) && NextMark(ms, f).Some?
    requires || MessagesCount(ms, 0) + outside < MAX_BREAKPOINTS
             || (Before(NextMark(ms, f).value, t) && Marked(Get(ms, t)))
    ensures MarkedAt(Keep(ms, outside, t), f)
  {
    var next := NextMark(ms, f).value;
    if MessagesCount(ms, 0) + outside < MAX_BREAKPOINTS {
      PutMarks(ms, f, Get(ms, next).mark);
    } else {
      PutElsewhere(ms, next, None, f);
      PutMarks(Put(ms, next, None), f, Get(ms, next).mark);
    }
  }

  /** Block `s` is the first marked one after `f`. */
  ghost predicate FirstMarkAfter(ms: seq<Message>, f: Pos, s: Pos) {
    Before(f, s) && MarkedAt(ms, s) && forall x :: Before(f, x) && Before(x, s) ==> !MarkedAt(ms, x)
  }

  /**
    The start of the open turn takes a mark only when it has none, is before the target and is more than twenty
    positions away. It takes that of the first marked block after it: a copy while the request has fewer than four
    marks, else the mark itself, if that block is before a marked target. Nothing else changes.
   */
  lemma KeepIs(ms: seq<Message>, outside: nat, t: Pos, f: Pos, s: Pos)
    requires At(ms, t) && TurnStart(ms) == Some(f) && FirstMarkAfter(ms, f, s)
    ensures var room := MessagesCount(ms, 0) + outside < 4;
            if MarkedAt(ms, f) || !Before(f, t) || Distance(ms, f, t) <= 20
               || !(room || (Before(s, t) && MarkedAt(ms, t)))
            then Keep(ms, outside, t) == ms
            else
              var out := Keep(ms, outside, t);
              && SamePlain(out, ms) && At(out, f) && Get(out, f) == Get(ms, f).(mark := Get(ms, s).mark)
              && (forall p :: At(ms, p) && p != f && p != s ==> At(out, p) && Get(out, p) == Get(ms, p))
              && At(out, s) && (if room then Get(out, s) == Get(ms, s) else !MarkedAt(out, s))
  {
    NextIsFirst(ms, f, s);
    KeepAt(ms, outside, t);
    hide SamePlain, FirstMarkAfter, TurnStart, Put, NextMark, MessagesCount, Span;
    if OutOfReach(ms, f, t) {
      PutMoves(ms, f, s, Get(ms, s).mark);
    }
  }

  lemma NextIsFirst(ms: seq<Message>, f: Pos, s: Pos)
    requires At(ms, f) && FirstMarkAfter(ms, f, s)
    ensures At(ms, s) && !Get(ms, s).Loose? && NextMark(ms, f) == Some(s)
  {
    NextMarkLeast(ms, f, s);
  }

  lemma PutMoves(ms: seq<Message>, f: Pos, s: Pos, m: Option<Mark>)
    requires At(ms, f) && At(ms, s) && f != s && !Get(ms, f).Loose?
    ensures var out := Put(ms, f, m);
            && At(out, f) && Get(out, f) == Get(ms, f).(mark := m) && At(out, s) && Get(out, s) == Get(ms, s)
            && forall p :: At(ms, p) && p != f ==> At(out, p) && Get(out, p) == Get(ms, p)
    ensures At(Put(ms, s, None), f)
    ensures var out := Put(Put(ms, s, None), f, m);
            && At(out, f) && Get(out, f) == Get(ms, f).(mark := m) && At(out, s) && !MarkedAt(out, s)
            && forall p :: At(ms, p) && p != f && p != s ==> At(out, p) && Get(out, p) == Get(ms, p)
  {
    var mid := Put(ms, s, None);
    PutElsewhere(ms, s, None, f);
    forall p | At(ms, p) && p != f ensures At(Put(ms, f, m), p) && Get(Put(ms, f, m), p) == Get(ms, p) {
      PutElsewhere(ms, f, m, p);
    }
    forall p | At(ms, p) && p != f && p != s ensures At(Put(mid, f, m), p) && Get(Put(mid, f, m), p) == Get(ms, p) {
      PutElsewhere(ms, s, None, p);
      PutElsewhere(mid, f, m, p);
    }
  }

  /** Without a start, or without a mark after it, nothing is marked. */
  lemma KeepNothing(ms: seq<Message>, outside: nat, t: Pos)
    requires At(ms, t)
    requires TurnStart(ms).None? || !MarkAfter(ms, TurnStart(ms).value)
    ensures Keep(ms, outside, t) == ms
  {
  }

  // ----- pinning twice -----

  lemma KeepTwice(ms: seq<Message>, outside: nat, t: Pos)
    requires At(ms, t)
    ensures At(Keep(ms, outside, t), t) && Keep(Keep(ms, outside, t), outside, t) == Keep(ms, outside, t)
  {
    var out := Keep(ms, outside, t);
    KeepAt(ms, outside, t);
    SamePlainAt(out, ms, t.i);
    SameTurnStart(out, ms);
    if out != ms {
      KeepMarks(ms, outside, t, TurnStart(ms).value);
    }
  }

  lemma PinMarksTwice(ms: seq<Message>, outside: nat, q: seq<Block>)
    ensures PinMarks(PinMarks(ms, outside, q), outside, q) == PinMarks(ms, outside, q)
  {
    var out := PinMarks(ms, outside, q);
    PinContent(ms, outside, q);
    SameTarget(out, ms, q);
    if Target(ms, q).Some? {
      var t := Target(ms, q).value;
      FoldAt(ms, t);
      PinnedMarks(ms, outside, q);
      assert Fold(out, t) == out;
      KeepTwice(Fold(ms, t), outside, t);
    }
  }

  lemma SameHit(a: seq<Block>, b: seq<Block>, q: seq<Block>, k: nat)
    requires SameBlocks(a, b)
    ensures HitAt(a, q, k) <==> HitAt(b, q, k)
  {
    if k + |q| <= |a| {
      SameStands(a, b, q, k, |q|);
    }
  }

  lemma {:induction false} SameStands(a: seq<Block>, b: seq<Block>, q: seq<Block>, k: nat, n: nat)
    requires SameBlocks(a, b) && n <= |q| && k + n <= |a|
    ensures Stands(a, q, k, n) <==> Stands(b, q, k, n)
  {
    if n > 0 {
      assert Plain(a[k + n - 1]) == Plain(b[k + n - 1]);
      SameStands(a, b, q, k, n - 1);
    }
  }

  lemma {:induction false} SameFirstHit(a: seq<Block>, b: seq<Block>, q: seq<Block>, k: nat, n: nat)
    requires SameBlocks(a, b) && k <= n
    ensures FirstHit(a, q, k, n) == FirstHit(b, q, k, n)
    decreases n - k
  {
    if k < n {
      SameHit(a, b, q, k);
      SameFirstHit(a, b, q, k + 1, n);
    }
  }

  lemma SameOnlyHit(a: seq<Block>, b: seq<Block>, q: seq<Block>)
    requires SameBlocks(a, b)
    ensures OnlyHit(a, q) == OnlyHit(b, q)
  {
    var n := |a| + 1;
    SameFirstHit(a, b, q, 0, n);
    var k := FirstHit(a, q, 0, n);
    if k < n {
      SameFirstHit(a, b, q, k + 1, n);
    }
  }

  /** Native's context is found, or not, whatever the marks. */
  lemma SameContext(a: seq<Message>, b: seq<Message>, q: seq<Block>)
    requires SamePlain(a, b)
    ensures ContextBefore(a, q) == ContextBefore(b, q)
  {
    SameLast(a, b, |a|);
    SameFirstUser(a, b, 0);
    var f := FirstUser(a, 0);
    if f < |a| {
      SamePlainAt(a, b, f);
      var x, y := BlocksOf(a[f]), BlocksOf(b[f]);
      SameOnlyHit(x, y, q);
      forall k | 0 <= k < |x| ensures Droppable(x[k]) == Droppable(y[k]) {
        SameKinds(x, y, k);
      }
    }
  }

  lemma {:induction false} SameRolesLast(a: seq<Message>, b: seq<Message>, n: nat)
    requires n <= |a| == |b| && forall i :: 0 <= i < |a| ==> a[i].role == b[i].role
    ensures LastAssistantTo(a, n) == LastAssistantTo(b, n)
  {
    if n > 0 {
      SameRolesLast(a, b, n - 1);
    }
  }

  lemma {:induction false} SameRolesFirst(a: seq<Message>, b: seq<Message>, i: nat)
    requires i <= |a| == |b| && forall k :: 0 <= k < |a| ==> a[k].role == b[k].role
    ensures FirstUser(a, i) == FirstUser(b, i)
    decreases |a| - i
  {
    if i < |a| {
      SameRolesFirst(a, b, i + 1);
    }
  }

  /** Once dropped, native's context is not found again. */
  lemma FramedOnce(ms: seq<Message>, q: seq<Block>)
    requires FrameFirst(ms, q).Changed?
    ensures ContextBefore(Framed(ms, q), q) == None
  {
    var f := FirstUser(ms, 0);
    var k := ContextBefore(ms, q).value;
    var first := Framed(ms, q);
    SameRolesLast(first, ms, |ms|);
    SameRolesFirst(first, ms, 0);
    FrameAtFront(BlocksOf(first[f]), BlocksOf(ms[f]), q, k);
  }

  lemma FrameAtFront(out: seq<Block>, c: seq<Block>, q: seq<Block>, k: nat)
    requires k < |c| && |out| == |c| - k && HitAt(c, q, k)
    requires forall x :: 0 <= x < |out| ==> Plain(out[x]) == Plain(c[k + x])
    ensures OnlyHit(out, q) == None || OnlyHit(out, q) == Some(0)
  {
    ShiftStands(out, c, q, k, |q|);
  }

  lemma {:induction false} ShiftStands(out: seq<Block>, c: seq<Block>, q: seq<Block>, k: nat, n: nat)
    requires k + |out| <= |c| && n <= |q| && n <= |out|
    requires forall x :: 0 <= x < |out| ==> Plain(out[x]) == Plain(c[k + x])
    ensures Stands(out, q, 0, n) <==> Stands(c, q, k, n)
  {
    if n > 0 {
      var m := n - 1;
      assert Plain(out[m]) == Plain(c[k + m]);
      ShiftStands(out, c, q, k, n - 1);
    }
  }

  /** Pinning a pinned body changes nothing. */
  lemma PinTwice(ms: seq<Message>, outside: nat, q: seq<Block>)
    ensures Pin(Pin(ms, outside, q), outside, q) == Pin(ms, outside, q)
  {
    if q != [] && !FrameFirst(ms, q).Raised? {
      var first, out := Framed(ms, q), Pin(ms, outside, q);
      if FrameFirst(ms, q).Changed? || AllMarks(ms) != Nil {
        PinContent(first, outside, q);
        SameContext(out, first, q);
        if FrameFirst(ms, q).Changed? {
          FramedOnce(ms, q);
        }
        assert FrameFirst(out, q).Kept?;
        PinMarksTwice(first, outside, q);
      }
    }
  }
}
