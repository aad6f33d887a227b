/** Positions in a request, the marks in document order, and what moving one mark does to that order. */
module Marks {
  import opened Basics
  import opened Wire

  /** Block `j` of message `i`. */
  datatype Pos = Pos(i: nat, j: nat)

  predicate Before(p: Pos, q: Pos) {
    p.i < q.i || (p.i == q.i && p.j < q.j)
  }

  predicate At(ms: seq<Message>, p: Pos) {
    p.i < |ms| && p.j < |BlocksOf(ms[p.i])|
  }

  function Get(ms: seq<Message>, p: Pos): Block
    requires At(ms, p)
  {
    BlocksOf(ms[p.i])[p.j]
  }

  function Put(ms: seq<Message>, p: Pos, m: Option<Mark>): (r: seq<Message>)
    requires At(ms, p)
    ensures |r| == |ms|
  {
    ms[p.i := ms[p.i].(body := Blocks(BlocksOf(ms[p.i])[p.j := WithMark(Get(ms, p), m)]))]
  }

  predicate MarkedAt(ms: seq<Message>, p: Pos) {
    At(ms, p) && Marked(Get(ms, p))
  }

  // ----- the marks in document order -----

  /** The block's own mark, then `rest`. */
  function OwnMark(b: Block, rest: List<Mark>): List<Mark> {
    if Marked(b) then Cons(b.mark.value, rest) else rest
  }

  /** The marks of the blocks from index `j` on, then `rest`. */
  function MarksFrom(bs: seq<Block>, j: nat, rest: List<Mark>): List<Mark>
    decreases |bs| - j
  {
    if j >= |bs| then rest else OwnMark(bs[j], MarksFrom(bs, j + 1, rest))
  }

  /** The marks of the blocks before index `j`, then `rest`. */
  function MarksTo(bs: seq<Block>, j: nat, rest: List<Mark>): List<Mark>
    requires j <= |bs|
  {
    if j == 0 then rest else MarksTo(bs, j - 1, OwnMark(bs[j - 1], rest))
  }

  function AllFrom(ms: seq<Message>, i: nat): List<Mark>
    decreases |ms| - i
  {
    if i >= |ms| then Nil else MarksFrom(BlocksOf(ms[i]), 0, AllFrom(ms, i + 1))
  }

  function AllTo(ms: seq<Message>, i: nat, rest: List<Mark>): List<Mark>
    requires i <= |ms|
  {
    if i == 0 then rest else AllTo(ms, i - 1, MarksFrom(BlocksOf(ms[i - 1]), 0, rest))
  }

  /** Every block mark of the request. */
  function AllMarks(ms: seq<Message>): List<Mark> {
    AllFrom(ms, 0)
  }

  /** The marks before a position, then `rest`. */
  function MarksThrough(ms: seq<Message>, p: Pos, rest: List<Mark>): List<Mark>
    requires At(ms, p)
  {
    AllTo(ms, p.i, MarksTo(BlocksOf(ms[p.i]), p.j, rest))
  }

  function MarksAfter(ms: seq<Message>, p: Pos): List<Mark>
    requires At(ms, p)
  {
    MarksFrom(BlocksOf(ms[p.i]), p.j + 1, AllFrom(ms, p.i + 1))
  }

  lemma {:induction false} MarksMeet(bs: seq<Block>, j: nat, rest: List<Mark>)
    requires j <= |bs|
    ensures MarksFrom(bs, 0, rest) == MarksTo(bs, j, MarksFrom(bs, j, rest))
  {
    if j > 0 {
      MarksMeet(bs, j - 1, rest);
    }
  }

  lemma {:induction false} AllMeet(ms: seq<Message>, i: nat)
    requires i <= |ms|
    ensures AllMarks(ms) == AllTo(ms, i, AllFrom(ms, i))
  {
    if i > 0 {
      AllMeet(ms, i - 1);
    }
  }

  /** Document order: what is before a position, the position, what is after it. */
  lemma MarksSplit(ms: seq<Message>, p: Pos)
    requires At(ms, p)
    ensures AllMarks(ms) == MarksThrough(ms, p, OwnMark(Get(ms, p), MarksAfter(ms, p)))
  {
    AllMeet(ms, p.i);
    MarksMeet(BlocksOf(ms[p.i]), p.j, AllFrom(ms, p.i + 1));
  }

  // ----- marks that do not change -----

  lemma {:induction false} SameMarksFrom(a: seq<Block>, b: seq<Block>, j: nat, rest: List<Mark>)
    requires |a| == |b| && forall k :: j <= k < |a| ==> a[k] == b[k]
    ensures MarksFrom(a, j, rest) == MarksFrom(b, j, rest)
    decreases |a| - j
  {
    if j < |a| {
      SameMarksFrom(a, b, j + 1, rest);
    }
  }

  lemma {:induction false} SameMarksTo(a: seq<Block>, b: seq<Block>, j: nat, rest: List<Mark>)
    requires j <= |a| == |b| && forall k :: 0 <= k < j ==> a[k] == b[k]
    ensures MarksTo(a, j, rest) == MarksTo(b, j, rest)
  {
    if j > 0 {
      SameMarksTo(a, b, j - 1, OwnMark(a[j - 1], rest));
    }
  }

  lemma {:induction false} SameAllFrom(a: seq<Message>, b: seq<Message>, i: nat)
    requires |a| == |b| && forall k :: i <= k < |a| ==> a[k] == b[k]
    ensures AllFrom(a, i) == AllFrom(b, i)
    decreases |a| - i
  {
    if i < |a| {
      SameAllFrom(a, b, i + 1);
    }
  }

  lemma {:induction false} SameAllTo(a: seq<Message>, b: seq<Message>, i: nat, rest: List<Mark>)
    requires i <= |a| && i <= |b| && forall k :: 0 <= k < i ==> a[k] == b[k]
    ensures AllTo(a, i, rest) == AllTo(b, i, rest)
  {
    if i > 0 {
      SameAllTo(a, b, i - 1, MarksFrom(BlocksOf(a[i - 1]), 0, rest));
    }
  }

  /** What is before a position does not depend on what is at it or after it. */
  lemma SameThroughMarks(a: seq<Message>, b: seq<Message>, p: Pos, rest: List<Mark>)
    requires |a| == |b| && At(a, p) && At(b, p) && |BlocksOf(a[p.i])| == |BlocksOf(b[p.i])|
    requires forall k :: 0 <= k < p.i ==> a[k] == b[k]
    requires forall k :: 0 <= k < p.j ==> BlocksOf(a[p.i])[k] == BlocksOf(b[p.i])[k]
    ensures MarksThrough(a, p, rest) == MarksThrough(b, p, rest)
  {
    SameMarksTo(BlocksOf(a[p.i]), BlocksOf(b[p.i]), p.j, rest);
    SameAllTo(a, b, p.i, MarksTo(BlocksOf(a[p.i]), p.j, rest));
  }

  /** Setting one mark leaves everything before and after it in place. */
  lemma PutMarks(ms: seq<Message>, p: Pos, m: Option<Mark>)
    requires At(ms, p) && !Get(ms, p).Loose?
    ensures At(Put(ms, p, m), p) && Get(Put(ms, p, m), p) == Get(ms, p).(mark := m)
    ensures MarksAfter(Put(ms, p, m), p) == MarksAfter(ms, p)
    ensures AllMarks(Put(ms, p, m))
         == MarksThrough(ms, p, if m.Some? then Cons(m.value, MarksAfter(ms, p)) else MarksAfter(ms, p))
  {
    var out := Put(ms, p, m);
    SameAllFrom(out, ms, p.i + 1);
    SameMarksFrom(BlocksOf(out[p.i]), BlocksOf(ms[p.i]), p.j + 1, AllFrom(ms, p.i + 1));
    MarksSplit(out, p);
    SameThroughMarks(out, ms, p, OwnMark(Get(out, p), MarksAfter(ms, p)));
  }

  lemma PutElsewhere(ms: seq<Message>, p: Pos, m: Option<Mark>, q: Pos)
    requires At(ms, p) && At(ms, q) && p != q
    ensures At(Put(ms, p, m), q) && Get(Put(ms, p, m), q) == Get(ms, q)
  {
  }

  // ----- the next mark after a position -----

  /** The first marked index from `from` on, or the length. */
  function NextIn(bs: seq<Block>, from: nat): (k: nat)
    requires from <= |bs|
    ensures from <= k <= |bs|
    ensures k < |bs| ==> Marked(bs[k])
    ensures forall x :: from <= x < k ==> !Marked(bs[x])
    decreases |bs| - from
  {
    if from == |bs| || Marked(bs[from]) then from else NextIn(bs, from + 1)
  }

  function NextFrom(ms: seq<Message>, i: nat): (r: Option<Pos>)
    requires i <= |ms|
    ensures r.Some? ==> i <= r.value.i && MarkedAt(ms, r.value)
    decreases |ms| - i
  {
    if i == |ms| then None
    else
      var k := NextIn(BlocksOf(ms[i]), 0);
      if k < |BlocksOf(ms[i])| then Some(Pos(i, k)) else NextFrom(ms, i + 1)
  }

  function NextMark(ms: seq<Message>, p: Pos): (r: Option<Pos>)
    requires At(ms, p)
    ensures r.Some? ==> Before(p, r.value) && MarkedAt(ms, r.value)
  {
    var k := NextIn(BlocksOf(ms[p.i]), p.j + 1);
    if k < |BlocksOf(ms[p.i])| then Some(Pos(p.i, k)) else NextFrom(ms, p.i + 1)
  }

  lemma {:induction false} SkipBlocks(bs: seq<Block>, j: nat, k: nat, rest: List<Mark>)
    requires j <= k <= |bs| && forall x :: j <= x < k ==> !Marked(bs[x])
    ensures MarksFrom(bs, j, rest) == MarksFrom(bs, k, rest)
    decreases k - j
  {
    if j < k {
      SkipBlocks(bs, j + 1, k, rest);
    }
  }

  lemma {:induction false} SkipMessages(ms: seq<Message>, i: nat, k: nat)
    requires i <= k <= |ms|
    requires forall x, y :: i <= x < k && 0 <= y < |BlocksOf(ms[x])| ==> !Marked(BlocksOf(ms[x])[y])
    ensures AllFrom(ms, i) == AllFrom(ms, k)
    decreases k - i
  {
    if i < k {
      SkipBlocks(BlocksOf(ms[i]), 0, |BlocksOf(ms[i])|, AllFrom(ms, i + 1));
      SkipMessages(ms, i + 1, k);
    }
  }

  /** Over unmarked blocks, what is after stays the same. */
  lemma SkipTo(ms: seq<Message>, p: Pos, q: Pos)
    requires At(ms, p) && At(ms, q) && Before(p, q)
    requires forall x :: Before(p, x) && Before(x, q) ==> !MarkedAt(ms, x)
    ensures MarksAfter(ms, p) == OwnMark(Get(ms, q), MarksAfter(ms, q))
  {
    if p.i == q.i {
      forall x | p.j + 1 <= x < q.j ensures !Marked(BlocksOf(ms[p.i])[x]) {
        assert !MarkedAt(ms, Pos(p.i, x));
      }
      SkipBlocks(BlocksOf(ms[p.i]), p.j + 1, q.j, AllFrom(ms, p.i + 1));
    } else {
      forall x | p.j + 1 <= x < |BlocksOf(ms[p.i])| ensures !Marked(BlocksOf(ms[p.i])[x]) {
        assert !MarkedAt(ms, Pos(p.i, x));
      }
      forall x, y | p.i + 1 <= x < q.i && 0 <= y < |BlocksOf(ms[x])| ensures !Marked(BlocksOf(ms[x])[y]) {
        assert !MarkedAt(ms, Pos(x, y));
      }
      forall y | 0 <= y < q.j ensures !Marked(BlocksOf(ms[q.i])[y]) {
        assert !MarkedAt(ms, Pos(q.i, y));
      }
      SkipBlocks(BlocksOf(ms[p.i]), p.j + 1, |BlocksOf(ms[p.i])|, AllFrom(ms, p.i + 1));
      SkipMessages(ms, p.i + 1, q.i);
      SkipBlocks(BlocksOf(ms[q.i]), 0, q.j, AllFrom(ms, q.i + 1));
    }
  }

  /** The next mark is the first of the marks after the position. */
  lemma NextMarkFirst(ms: seq<Message>, p: Pos)
    requires At(ms, p)
    ensures NextMark(ms, p).None? ==> MarksAfter(ms, p) == Nil
    ensures NextMark(ms, p).Some? ==>
              var s := NextMark(ms, p).value;
              MarksAfter(ms, p) == Cons(Get(ms, s).mark.value, MarksAfter(ms, s))
    ensures NextMark(ms, p).Some? ==> forall x :: Before(p, x) && Before(x, NextMark(ms, p).value) ==> !MarkedAt(ms, x)
  {
    forall x | Before(p, x) && MarkedAt(ms, x)
      ensures NextMark(ms, p).Some? && !Before(x, NextMark(ms, p).value)
    {
      NextMarkLeast(ms, p, x);
    }
    if NextMark(ms, p).Some? {
      SkipTo(ms, p, NextMark(ms, p).value);
    } else {
      forall x | p.j + 1 <= x < |BlocksOf(ms[p.i])| ensures !Marked(BlocksOf(ms[p.i])[x]) {
        assert !MarkedAt(ms, Pos(p.i, x));
      }
      forall x, y | p.i + 1 <= x < |ms| && 0 <= y < |BlocksOf(ms[x])| ensures !Marked(BlocksOf(ms[x])[y]) {
        assert !MarkedAt(ms, Pos(x, y));
      }
      SkipBlocks(BlocksOf(ms[p.i]), p.j + 1, |BlocksOf(ms[p.i])|, AllFrom(ms, p.i + 1));
      SkipMessages(ms, p.i + 1, |ms|);
    }
  }

  /** The next mark is the earliest one after the position. */
  lemma NextMarkLeast(ms: seq<Message>, f: Pos, p: Pos)
    requires At(ms, f) && MarkedAt(ms, p) && Before(f, p)
    ensures NextMark(ms, f).Some? && !Before(p, NextMark(ms, f).value)
  {
    if p.i > f.i {
      NextFromLeast(ms, f.i + 1, p);
    }
  }

  lemma {:induction false} NextFromLeast(ms: seq<Message>, i: nat, p: Pos)
    requires i <= p.i && MarkedAt(ms, p)
    ensures NextFrom(ms, i).Some? && !Before(p, NextFrom(ms, i).value)
    decreases |ms| - i
  {
    if i < p.i {
      NextFromLeast(ms, i + 1, p);
    }
  }

  /** No marks after a position: every mark is at it or before it. */
  lemma MarksAfterNone(ms: seq<Message>, t: Pos)
    requires At(ms, t)
    ensures MarksAfter(ms, t) == Nil <==> forall p :: Before(t, p) ==> !MarkedAt(ms, p)
  {
    NextMarkFirst(ms, t);
    forall p | Before(t, p) && MarkedAt(ms, p) ensures NextMark(ms, t).Some? {
      NextMarkLeast(ms, t, p);
    }
  }

  lemma NoMarksAtAll(ms: seq<Message>)
    requires AllMarks(ms) == Nil
    ensures forall p :: !MarkedAt(ms, p)
  {
    forall p | At(ms, p) ensures !MarkedAt(ms, p) {
      MarksSplit(ms, p);
      if Marked(Get(ms, p)) {
        ThroughLonger(ms, p, OwnMark(Get(ms, p), MarksAfter(ms, p)));
      }
    }
  }

  lemma {:induction false} ThroughLonger(ms: seq<Message>, p: Pos, rest: List<Mark>)
    requires At(ms, p)
    ensures Length(MarksThrough(ms, p, rest)) >= Length(rest)
  {
    LongerTo(BlocksOf(ms[p.i]), p.j, rest);
    LongerAll(ms, p.i, MarksTo(BlocksOf(ms[p.i]), p.j, rest));
  }

  lemma {:induction false} LongerTo(bs: seq<Block>, j: nat, rest: List<Mark>)
    requires j <= |bs|
    ensures Length(MarksTo(bs, j, rest)) >= Length(rest)
  {
    if j > 0 {
      LongerTo(bs, j - 1, OwnMark(bs[j - 1], rest));
    }
  }

  lemma {:induction false} LongerFrom(bs: seq<Block>, j: nat, rest: List<Mark>)
    ensures Length(MarksFrom(bs, j, rest)) >= Length(rest)
    decreases |bs| - j
  {
    if j < |bs| {
      LongerFrom(bs, j + 1, rest);
    }
  }

  lemma {:induction false} LongerAll(ms: seq<Message>, i: nat, rest: List<Mark>)
    requires i <= |ms|
    ensures Length(AllTo(ms, i, rest)) >= Length(rest)
  {
    if i > 0 {
      LongerFrom(BlocksOf(ms[i - 1]), 0, rest);
      LongerAll(ms, i - 1, MarksFrom(BlocksOf(ms[i - 1]), 0, rest));
    }
  }

  // ----- clearing -----

  /** The blocks with no mark from index `j` on. */
  function ClearBlocks(bs: seq<Block>, j: nat): (r: seq<Block>)
    ensures |r| == |bs|
  {
    seq(|bs|, k requires 0 <= k < |bs| => if k < j then bs[k] else Plain(bs[k]))
  }

  function ClearMessage(m: Message, j: nat): Message {
    if m.body.Blocks? then m.(body := Blocks(ClearBlocks(m.body.blocks, j))) else m
  }

  /** Every mark after the position removed. */
  function ClearAfter(ms: seq<Message>, p: Pos): (r: seq<Message>)
    requires At(ms, p)
    ensures |r| == |ms|
  {
    seq(|ms|, i requires 0 <= i < |ms| =>
      if i < p.i then ms[i] else ClearMessage(ms[i], if i == p.i then p.j + 1 else 0))
  }

  lemma ClearAfterMarks(ms: seq<Message>, p: Pos)
    requires At(ms, p)
    ensures var out := ClearAfter(ms, p);
            At(out, p) && Get(out, p) == Get(ms, p) && MarksAfter(out, p) == Nil
            && forall rest :: MarksThrough(out, p, rest) == MarksThrough(ms, p, rest)
  {
    var out := ClearAfter(ms, p);
    MarksAfterNone(out, p);
    forall rest ensures MarksThrough(out, p, rest) == MarksThrough(ms, p, rest) {
      SameThroughMarks(out, ms, p, rest);
    }
  }

  // ----- the same request apart from block marks -----

  ghost predicate SameMessage(a: Message, b: Message) {
    && a.role == b.role && a.rest == b.rest && a.mark == b.mark
    && (a.body == b.body || (a.body.Blocks? && b.body.Blocks? && SameBlocks(a.body.blocks, b.body.blocks)))
  }

  ghost predicate SameUpTo(a: seq<Message>, b: seq<Message>, n: nat)
    requires n <= |a| == |b|
  {
    n == 0 || (SameMessage(a[n - 1], b[n - 1]) && SameUpTo(a, b, n - 1))
  }

  ghost predicate SamePlain(a: seq<Message>, b: seq<Message>) {
    |a| == |b| && SameUpTo(a, b, |a|)
  }

  lemma {:induction false} SameEach(a: seq<Message>, b: seq<Message>, n: nat, i: nat)
    requires i < n <= |a| == |b| && SameUpTo(a, b, n)
    ensures SameMessage(a[i], b[i])
  {
    if i < n - 1 {
      SameEach(a, b, n - 1, i);
    }
  }

  lemma {:induction false} SameAll(a: seq<Message>, b: seq<Message>, n: nat)
    requires n <= |a| == |b| && forall k :: 0 <= k < n ==> SameMessage(a[k], b[k])
    ensures SameUpTo(a, b, n)
  {
    if n > 0 {
      SameAll(a, b, n - 1);
    }
  }

  lemma SamePlainAt(a: seq<Message>, b: seq<Message>, i: nat)
    requires SamePlain(a, b) && i < |a|
    ensures a[i].role == b[i].role && a[i].body.Blocks? == b[i].body.Blocks? && a[i].body.Line? == b[i].body.Line?
    ensures SameBlocks(BlocksOf(a[i]), BlocksOf(b[i])) && SameMessage(a[i], b[i])
  {
    SameEach(a, b, |a|, i);
  }

  lemma SamePlainSelf(a: seq<Message>)
    ensures SamePlain(a, a)
  {
    SameAll(a, a, |a|);
  }

  lemma SamePlainTransitive(a: seq<Message>, b: seq<Message>, c: seq<Message>)
    requires SamePlain(a, b) && SamePlain(b, c)
    ensures SamePlain(a, c)
  {
    forall k | 0 <= k < |a| ensures SameMessage(a[k], c[k]) {
      SamePlainAt(a, b, k);
      SamePlainAt(b, c, k);
    }
    SameAll(a, c, |a|);
  }

  lemma PutSamePlain(ms: seq<Message>, p: Pos, m: Option<Mark>)
    requires At(ms, p)
    ensures SamePlain(Put(ms, p, m), ms)
  {
    var out := Put(ms, p, m);
    forall k | 0 <= k < |ms| ensures SameMessage(out[k], ms[k]) {
      assert k == p.i ==> SameBlocks(BlocksOf(out[k]), BlocksOf(ms[k]));
    }
    SameAll(out, ms, |ms|);
  }

  lemma ClearSamePlain(ms: seq<Message>, p: Pos)
    requires At(ms, p)
    ensures SamePlain(ClearAfter(ms, p), ms)
  {
    var out := ClearAfter(ms, p);
    forall k | 0 <= k < |ms| ensures SameMessage(out[k], ms[k]) {
      assert SameBlocks(BlocksOf(out[k]), BlocksOf(ms[k]));
    }
    SameAll(out, ms, |ms|);
  }

  // ----- counting -----

  /** Every `cache_control` that is not a block's own mark. */
  function HiddenCount(ms: seq<Message>): int {
    MessagesCount(ms, 0) - Length(AllMarks(ms))
  }

  lemma {:induction false} HiddenInBlocks(a: seq<Block>, b: seq<Block>, j: nat, x: List<Mark>, y: List<Mark>)
    requires SameBlocks(a, b)
    ensures BlocksCount(a, j) - (Length(MarksFrom(a, j, x)) - Length(x))
         == BlocksCount(b, j) - (Length(MarksFrom(b, j, y)) - Length(y))
    decreases |a| - j
  {
    if j < |a| {
      SameInner(a[j], b[j]);
      HiddenInBlocks(a, b, j + 1, x, y);
    }
  }

  lemma SameInner(a: Block, b: Block)
    requires Plain(a) == Plain(b)
    ensures BlockCount(a) - Own(a) == BlockCount(b) - Own(b)
  {
  }

  lemma {:induction false} HiddenFrom(a: seq<Message>, b: seq<Message>, i: nat)
    requires SamePlain(a, b)
    ensures MessagesCount(a, i) - Length(AllFrom(a, i)) == MessagesCount(b, i) - Length(AllFrom(b, i))
    decreases |a| - i
  {
    if i < |a| {
      SamePlainAt(a, b, i);
      HiddenInBlocks(BlocksOf(a[i]), BlocksOf(b[i]), 0, AllFrom(a, i + 1), AllFrom(b, i + 1));
      HiddenFrom(a, b, i + 1);
    }
  }

  /** Moving marks around leaves the rest of the count alone. */
  lemma HiddenSame(a: seq<Message>, b: seq<Message>)
    requires SamePlain(a, b)
    ensures HiddenCount(a) == HiddenCount(b)
  {
    HiddenFrom(a, b, 0);
  }

  // ----- orders of marks -----

  /** `a` is `b` with some elements deleted. */
  ghost predicate Sub<T(!new)>(a: List<T>, b: List<T>)
    decreases b
  {
    a.Nil? || (b.Cons? && ((a.head == b.head && Sub(a.tail, b.tail)) || Sub(a, b.tail)))
  }

  lemma {:induction false} SubSelf<T(!new)>(a: List<T>)
    ensures Sub(a, a)
  {
    if a.Cons? {
      SubSelf(a.tail);
    }
  }

  lemma {:induction false} SubTransitive<T(!new)>(a: List<T>, b: List<T>, c: List<T>)
    requires Sub(a, b) && Sub(b, c)
    ensures Sub(a, c)
    decreases c
  {
    if a.Cons? {
      if b.head == c.head && Sub(b.tail, c.tail) {
        if a.head == b.head && Sub(a.tail, b.tail) {
          SubTransitive(a.tail, b.tail, c.tail);
        } else {
          SubTransitive(a, b.tail, c.tail);
        }
      } else {
        SubTransitive(a, b, c.tail);
      }
    }
  }

  lemma {:induction false} SubShorter<T(!new)>(a: List<T>, b: List<T>)
    requires Sub(a, b)
    ensures Length(a) <= Length(b)
    decreases b
  {
    if a.Cons? {
      if a.head == b.head && Sub(a.tail, b.tail) {
        SubShorter(a.tail, b.tail);
      } else {
        SubShorter(a, b.tail);
      }
    }
  }

  /** `out` is `base`, or `base` with one element repeated next to itself. */
  ghost predicate AtMostOneTwin<T(!new)>(out: List<T>, base: List<T>)
    decreases base
  {
    || out == base
    || (base.Cons? && out.Cons? && out.head == base.head && (out.tail == base || AtMostOneTwin(out.tail, base.tail)))
  }

  lemma {:induction false} TwinLonger<T(!new)>(out: List<T>, base: List<T>)
    requires AtMostOneTwin(out, base)
    ensures Length(base) <= Length(out) <= Length(base) + 1
    decreases base
  {
    if out != base && out.tail != base {
      TwinLonger(out.tail, base.tail);
    }
  }

  /** `out` keeps the order of `input`: deletions, then at most one neighbour repeated. */
  ghost predicate KeepsOrder<T(!new)>(out: List<T>, input: List<T>) {
    exists kept: List<T> :: Sub(kept, input) && AtMostOneTwin(out, kept)
  }

  ghost predicate AllAfter<T(!new)>(x: T, l: List<T>, leq: (T, T) -> bool) {
    l.Cons? ==> leq(x, l.head) && AllAfter(x, l.tail, leq)
  }

  /** Every element stands in the order to every later one. */
  ghost predicate Sorted<T(!new)>(l: List<T>, leq: (T, T) -> bool) {
    l.Cons? ==> AllAfter(l.head, l.tail, leq) && Sorted(l.tail, leq)
  }

  lemma {:induction false} SubAllAfter<T(!new)>(x: T, a: List<T>, b: List<T>, leq: (T, T) -> bool)
    requires Sub(a, b) && AllAfter(x, b, leq)
    ensures AllAfter(x, a, leq)
    decreases b
  {
    if a.Cons? {
      if a.head == b.head && Sub(a.tail, b.tail) {
        SubAllAfter(x, a.tail, b.tail, leq);
      } else {
        SubAllAfter(x, a, b.tail, leq);
      }
    }
  }

  lemma {:induction false} SubSorted<T(!new)>(a: List<T>, b: List<T>, leq: (T, T) -> bool)
    requires Sub(a, b) && Sorted(b, leq)
    ensures Sorted(a, leq)
    decreases b
  {
    if a.Cons? {
      if a.head == b.head && Sub(a.tail, b.tail) {
        SubSorted(a.tail, b.tail, leq);
        SubAllAfter(a.head, a.tail, b.tail, leq);
      } else {
        SubSorted(a, b.tail, leq);
      }
    }
  }

  lemma {:induction false} TwinAllAfter<T(!new)>(x: T, out: List<T>, base: List<T>, leq: (T, T) -> bool)
    requires AtMostOneTwin(out, base) && AllAfter(x, base, leq)
    ensures AllAfter(x, out, leq)
    decreases base
  {
    if out != base && out.tail != base {
      TwinAllAfter(x, out.tail, base.tail, leq);
    }
  }

  lemma {:induction false} TwinSorted<T(!new)>(out: List<T>, base: List<T>, leq: (T, T) -> bool)
    requires AtMostOneTwin(out, base) && Sorted(base, leq) && forall x :: leq(x, x)
    ensures Sorted(out, leq)
    decreases base
  {
    if out != base && out.tail != base {
      TwinSorted(out.tail, base.tail, leq);
      TwinAllAfter(base.head, out.tail, base.tail, leq);
    }
  }

  /** A reflexive order the marks had, they still have. */
  lemma OrderStaysSorted<T(!new)>(out: List<T>, input: List<T>, leq: (T, T) -> bool)
    requires KeepsOrder(out, input) && Sorted(input, leq) && forall x :: leq(x, x)
    ensures Sorted(out, leq)
  {
    var kept: List<T> :| Sub(kept, input) && AtMostOneTwin(out, kept);
    SubSorted(kept, input, leq);
    TwinSorted(out, kept, leq);
  }

  // ----- what happens after a position happens to the whole -----

  lemma {:induction false} SubTo(bs: seq<Block>, j: nat, a: List<Mark>, b: List<Mark>)
    requires j <= |bs|
    ensures Sub(a, b) ==> Sub(MarksTo(bs, j, a), MarksTo(bs, j, b))
    ensures AtMostOneTwin(a, b) ==> AtMostOneTwin(MarksTo(bs, j, a), MarksTo(bs, j, b))
  {
    if j > 0 {
      SubTo(bs, j - 1, OwnMark(bs[j - 1], a), OwnMark(bs[j - 1], b));
    }
  }

  lemma {:induction false} SubFrom(bs: seq<Block>, j: nat, a: List<Mark>, b: List<Mark>)
    ensures Sub(a, b) ==> Sub(MarksFrom(bs, j, a), MarksFrom(bs, j, b))
    ensures AtMostOneTwin(a, b) ==> AtMostOneTwin(MarksFrom(bs, j, a), MarksFrom(bs, j, b))
    decreases |bs| - j
  {
    if j < |bs| {
      SubFrom(bs, j + 1, a, b);
    }
  }

  lemma {:induction false} SubAllTo(ms: seq<Message>, i: nat, a: List<Mark>, b: List<Mark>)
    requires i <= |ms|
    ensures Sub(a, b) ==> Sub(AllTo(ms, i, a), AllTo(ms, i, b))
    ensures AtMostOneTwin(a, b) ==> AtMostOneTwin(AllTo(ms, i, a), AllTo(ms, i, b))
  {
    if i > 0 {
      SubFrom(BlocksOf(ms[i - 1]), 0, a, b);
      SubAllTo(ms, i - 1, MarksFrom(BlocksOf(ms[i - 1]), 0, a), MarksFrom(BlocksOf(ms[i - 1]), 0, b));
    }
  }

  lemma SubThrough(ms: seq<Message>, p: Pos, a: List<Mark>, b: List<Mark>)
    requires At(ms, p)
    ensures Sub(a, b) ==> Sub(MarksThrough(ms, p, a), MarksThrough(ms, p, b))
    ensures AtMostOneTwin(a, b) ==> AtMostOneTwin(MarksThrough(ms, p, a), MarksThrough(ms, p, b))
  {
    SubTo(BlocksOf(ms[p.i]), p.j, a, b);
    SubAllTo(ms, p.i, MarksTo(BlocksOf(ms[p.i]), p.j, a), MarksTo(BlocksOf(ms[p.i]), p.j, b));
  }

  lemma {:induction false} DroppedMarks(bs: seq<Block>, j: nat, k: nat, rest: List<Mark>)
    requires j <= k <= |bs|
    ensures Sub(MarksFrom(bs, k, rest), MarksFrom(bs, j, rest))
    decreases k - j
  {
    if j == k {
      SubSelf(MarksFrom(bs, k, rest));
    } else {
      DroppedMarks(bs, j + 1, k, rest);
    }
  }
}
