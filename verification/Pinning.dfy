/** `_frame_first`, `_keep_turn_mark` and `pin_message_breakpoint`. */
module Pinning {
  import opened Basics
  import opened Wire
  import opened Marks

  const LOOKBACK := 20
  const MAX_BREAKPOINTS := 4

  predicate Uncacheable(b: Block) {
    b.Other? && (b.kind == Some("thinking") || b.kind == Some("redacted_thinking"))
  }

  predicate Cacheable(b: Block) {
    !b.Loose? && !Uncacheable(b)
  }

  /** The first user message from index `i` on, or the length. */
  function FirstUser(ms: seq<Message>, i: nat): (r: nat)
    requires i <= |ms|
    ensures i <= r <= |ms|
    decreases |ms| - i
  {
    if i == |ms| || ms[i].role == User then i else FirstUser(ms, i + 1)
  }

  // ----- the queried frame inside a turn -----

  /** The first `n` blocks of the frame stand in the turn from index `k` on, marks apart. */
  predicate Stands(c: seq<Block>, q: seq<Block>, k: nat, n: nat)
    requires n <= |q| && k + n <= |c|
  {
    n == 0 || (Plain(c[k + n - 1]) == Plain(q[n - 1]) && Stands(c, q, k, n - 1))
  }

  /** The frame stands at index `k`. */
  predicate HitAt(c: seq<Block>, q: seq<Block>, k: nat) {
    k + |q| <= |c| && Stands(c, q, k, |q|)
  }

  lemma {:induction false} StandsEach(c: seq<Block>, q: seq<Block>, k: nat, n: nat)
    requires n <= |q| && k + n <= |c|
    ensures Stands(c, q, k, n) <==> forall x :: 0 <= x < n ==> Plain(c[k + x]) == Plain(q[x])
  {
    if n > 0 {
      StandsEach(c, q, k, n - 1);
    }
  }

  /** The first start of the frame among the first `n` places, or `n`. */
  function FirstHit(c: seq<Block>, q: seq<Block>, k: nat, n: nat): (r: nat)
    requires k <= n
    ensures k <= r <= n && (r < n ==> HitAt(c, q, r))
    decreases n - k
  {
    if k == n || HitAt(c, q, k) then k else FirstHit(c, q, k + 1, n)
  }

  /** Where the frame starts, if it starts at exactly one place. */
  function OnlyHit(c: seq<Block>, q: seq<Block>): (r: Option<nat>)
    ensures r.Some? ==> HitAt(c, q, r.value)
  {
    var n := |c| + 1;
    var k := FirstHit(c, q, 0, n);
    if k < n && FirstHit(c, q, k + 1, n) == n then Some(k) else None
  }

  /** What may go: a type "text", a text that need not be one, perhaps a mark, and nothing else. */
  predicate Droppable(b: Block) {
    Soft(b) || b.NoText?
  }

  datatype Step = Kept | Changed(messages: seq<Message>) | Raised

  /** The first `k` blocks dropped; their first mark goes to the new first block unless that has one. */
  function DropFirst(c: seq<Block>, k: nat): (r: Option<seq<Block>>)
    requires k < |c|
    ensures r.Some? ==> |r.value| == |c| - k && forall x :: 1 <= x < |c| - k ==> r.value[x] == c[k + x]
    ensures r.Some? ==> Plain(r.value[0]) == Plain(c[k])
  {
    var m := NextIn(c, 0);
    if m >= k || c[m].mark.value == Null then Some(c[k..])
    else if c[k].Loose? then None
    else if c[k].mark.Some? then Some(c[k..])
    else Some(c[k..][0 := c[k].(mark := c[m].mark)])
  }

  /** Where the frame sits in the conversation's first user turn, if native put plain text before it. */
  function ContextBefore(ms: seq<Message>, q: seq<Block>): (r: Option<nat>)
    ensures r.Some? ==> FirstUser(ms, 0) < |ms| && 0 < r.value < |BlocksOf(ms[FirstUser(ms, 0)])|
  {
    if LastAssistant(ms) != -1 || FirstUser(ms, 0) == |ms| then None
    else
      var c := BlocksOf(ms[FirstUser(ms, 0)]);
      if q == [] || |c| <= |q| then None
      else
        match OnlyHit(c, q)
        case None => None
        case Some(k) => if k > 0 && forall x :: 0 <= x < k ==> Droppable(c[x]) then Some(k) else None
  }

  function FrameFirst(ms: seq<Message>, q: seq<Block>): Step {
    var k := ContextBefore(ms, q);
    if k.None? then Kept
    else
      var f := FirstUser(ms, 0);
      match DropFirst(BlocksOf(ms[f]), k.value)
      case None => Raised
      case Some(c) => Changed(ms[f := ms[f].(body := Blocks(c))])
  }

  // ----- the span that recurs, and its last block -----

  /** The first index from `i` on where two lists differ, marks apart, or where one ends. */
  function SharedPrefix(a: seq<Block>, b: seq<Block>, i: nat): (n: nat)
    requires i <= |a| && i <= |b|
    ensures i <= n <= |a| && n <= |b|
    ensures forall k :: i <= k < n ==> Plain(a[k]) == Plain(b[k])
    ensures n < |a| && n < |b| ==> Plain(a[n]) != Plain(b[n])
    decreases |a| - i
  {
    if i == |a| || i == |b| || Plain(a[i]) != Plain(b[i]) then i else SharedPrefix(a, b, i + 1)
  }

  /** How many leading blocks of the newest turn the next request replays. */
  function StableNewest(ms: seq<Message>, q: seq<Block>): (n: nat)
    ensures var at := LastAssistant(ms) + 1;
            n > 0 ==> at < |ms| && ms[at].role == User && n <= |BlocksOf(ms[at])| && n <= |q|
  {
    var at := LastAssistant(ms) + 1;
    if at == |ms| || ms[at].role != User then 0
    else
      var c := BlocksOf(ms[at]);
      var n := SharedPrefix(c, q, 0);
      if n < |c| && c[n].ToolResult? then 0 else n
  }

  /** The last cacheable block among the first `n`, or -1. */
  function LastCacheable(bs: seq<Block>, n: nat): (r: int)
    requires n <= |bs|
    ensures -1 <= r < n
    ensures 0 <= r ==> Cacheable(bs[r])
  {
    if n == 0 then -1 else if Cacheable(bs[n - 1]) then n - 1 else LastCacheable(bs, n - 1)
  }

  /** The last cacheable block of the first `n` messages. */
  function LastCacheableIn(ms: seq<Message>, n: nat): (r: Option<Pos>)
    requires n <= |ms|
    ensures r.Some? ==> At(ms, r.value) && Cacheable(Get(ms, r.value)) && r.value.i < n
  {
    if n == 0 then None
    else
      var j := LastCacheable(BlocksOf(ms[n - 1]), |BlocksOf(ms[n - 1])|);
      if j >= 0 then Some(Pos(n - 1, j)) else LastCacheableIn(ms, n - 1)
  }

  /** The last cacheable block the next request replays unchanged. */
  function Target(ms: seq<Message>, q: seq<Block>): (r: Option<Pos>)
    ensures r.Some? ==> At(ms, r.value) && Cacheable(Get(ms, r.value))
    ensures r.Some? ==> r.value.i <= LastAssistant(ms)
                        || (r.value.i == LastAssistant(ms) + 1 && r.value.j < StableNewest(ms, q))
  {
    var last := LastAssistant(ms);
    var n := StableNewest(ms, q);
    var j := if n > 0 then LastCacheable(BlocksOf(ms[last + 1]), n) else -1;
    if j >= 0 then Some(Pos(last + 1, j)) else LastCacheableIn(ms, last + 1)
  }

  // ----- what the searches find -----

  lemma {:induction false} LastCacheableIs(bs: seq<Block>, n: nat)
    requires n <= |bs|
    ensures forall k :: LastCacheable(bs, n) < k < n ==> !Cacheable(bs[k])
  {
    if n > 0 {
      LastCacheableIs(bs, n - 1);
    }
  }

  lemma {:induction false} FirstHitIs(c: seq<Block>, q: seq<Block>, k: nat, n: nat)
    requires k <= n
    ensures forall x :: k <= x < FirstHit(c, q, k, n) ==> !HitAt(c, q, x)
    decreases n - k
  {
    if k < n {
      FirstHitIs(c, q, k + 1, n);
    }
  }

  /** `OnlyHit` finds the frame exactly when it stands at one place and no other. */
  lemma OnlyHitIs(c: seq<Block>, q: seq<Block>, k: nat)
    ensures OnlyHit(c, q) == Some(k) <==> HitAt(c, q, k) && forall x: nat :: HitAt(c, q, x) ==> x == k
  {
    var n := |c| + 1;
    FirstHitIs(c, q, 0, n);
    var first := FirstHit(c, q, 0, n);
    if first < n {
      FirstHitIs(c, q, first + 1, n);
    }
    assert forall x: nat :: HitAt(c, q, x) ==> x < n;
  }

  /** The blocks of the frame stand in the list from index `k` on, marks apart. */
  ghost predicate FrameAt(c: seq<Block>, q: seq<Block>, k: nat) {
    k + |q| <= |c| && forall x :: 0 <= x < |q| ==> Plain(c[k + x]) == Plain(q[x])
  }

  /**
    The frame stands at `k`, past the start, and nowhere else; what is before it are objects of type "text" with nothing
    but their text and perhaps a mark.
   */
  ghost predicate AfterText(c: seq<Block>, q: seq<Block>, k: nat) {
    && 0 < k && FrameAt(c, q, k) && (forall x: nat :: FrameAt(c, q, x) ==> x == k)
    && forall x :: 0 <= x < k ==> c[x].NoText? || (c[x].Text? && c[x].rest == NO_REST)
  }

  lemma HitIsFrameAt(c: seq<Block>, q: seq<Block>, k: nat)
    ensures HitAt(c, q, k) <==> FrameAt(c, q, k)
  {
    if k + |q| <= |c| {
      StandsEach(c, q, k, |q|);
    }
  }

  lemma AfterTextIs(c: seq<Block>, q: seq<Block>, k: nat)
    ensures AfterText(c, q, k)
       <==> OnlyHit(c, q) == Some(k) && 0 < k && forall x :: 0 <= x < k ==> Droppable(c[x])
  {
    hide FrameAt, HitAt, OnlyHit;
    OnlyHitIs(c, q, k);
    forall x: nat ensures HitAt(c, q, x) <==> FrameAt(c, q, x) {
      HitIsFrameAt(c, q, x);
    }
    HitInside(c, q, k);
  }

  lemma HitInside(c: seq<Block>, q: seq<Block>, k: nat)
    ensures HitAt(c, q, k) ==> k <= |c|
  {
  }

  /** Message `f` is the request's first user message. */
  ghost predicate FirstUserAt(ms: seq<Message>, f: nat) {
    f < |ms| && ms[f].role == User && forall i :: 0 <= i < f ==> ms[i].role != User
  }

  /**
    Native's context is found exactly when no assistant has spoken and the first user message holds it: plain text
    before the only place of the frame, which is not empty.
   */
  lemma ContextBeforeIs(ms: seq<Message>, q: seq<Block>, k: nat)
    ensures ContextBefore(ms, q) == Some(k)
       <==> && (forall i :: 0 <= i < |ms| ==> ms[i].role != Assistant)
            && q != [] && exists f: nat :: FirstUserAt(ms, f) && AfterText(BlocksOf(ms[f]), q, k)
  {
    hide AfterText, OnlyHit;
    LastAssistantIs(ms, |ms|);
    FirstUserIs(ms, 0);
    var f := FirstUser(ms, 0);
    forall i: nat | FirstUserAt(ms, i) ensures i == f {
    }
    if f < |ms| {
      assert FirstUserAt(ms, f);
      AfterTextIs(BlocksOf(ms[f]), q, k);
      AfterTextLonger(BlocksOf(ms[f]), q, k);
    }
  }

  lemma AfterTextLonger(c: seq<Block>, q: seq<Block>, k: nat)
    ensures AfterText(c, q, k) ==> |q| < |c|
  {
  }

  /** Block `m` is the first marked one. */
  ghost predicate FirstMarked(c: seq<Block>, m: nat) {
    m < |c| && Marked(c[m]) && forall x :: 0 <= x < m ==> !Marked(c[x])
  }

  /**
    Of the marks on the dropped blocks only the first matters. A usable one goes to the block that is now first, unless
    that has its own; it cannot go to what is no object. Everything past the dropped blocks stays as it is.
   */
  lemma DropFirstIs(c: seq<Block>, k: nat, m: nat)
    requires k < |c|
    ensures (forall x :: 0 <= x < k ==> !Marked(c[x])) ==> DropFirst(c, k) == Some(c[k..])
    ensures FirstMarked(c, m) && m < k ==>
              DropFirst(c, k) == if c[m].mark.value == Null || Marked(c[k]) then Some(c[k..])
                                 else if c[k].Loose? then None
                                 else Some([c[k].(mark := c[m].mark)] + c[k + 1..])
  {
    var n := NextIn(c, 0);
    if FirstMarked(c, m) && m < k {
      assert n == m;
      assert c[k..][0 := WithMark(c[k], c[m].mark)] == [WithMark(c[k], c[m].mark)] + c[k + 1..];
    }
    if (forall x :: 0 <= x < k ==> !Marked(c[x])) {
      assert n >= k;
    }
  }

  lemma {:induction false} FirstUserIs(ms: seq<Message>, i: nat)
    requires i <= |ms|
    ensures var r := FirstUser(ms, i);
            (r < |ms| ==> ms[r].role == User) && forall k :: i <= k < r ==> ms[k].role != User
    decreases |ms| - i
  {
    if i < |ms| {
      FirstUserIs(ms, i + 1);
    }
  }

  /**
    The opening request goes out with its first user turn beginning with the frame; nothing is dropped but the text
    before it, and nothing else changes.
   */
  lemma FrameFirstIs(ms: seq<Message>, q: seq<Block>, f: nat, k: nat)
    requires q != [] && (forall i :: 0 <= i < |ms| ==> ms[i].role != Assistant)
    requires FirstUserAt(ms, f) && AfterText(BlocksOf(ms[f]), q, k)
    ensures var c := BlocksOf(ms[f]);
            match DropFirst(c, k)
            case None => FrameFirst(ms, q) == Raised
            case Some(d) =>
              && FrameFirst(ms, q) == Changed(ms[f := ms[f].(body := Blocks(d))])
              && SameBlocks(d, c[k..]) && FrameAt(d, q, 0)
  {
    hide AfterText, FirstUserAt;
    ContextBeforeIs(ms, q, k);
    FirstUserFound(ms, f);
    AfterTextFits(BlocksOf(ms[f]), q, k);
    assert |BlocksOf(ms[f])[k..]| == |BlocksOf(ms[f])| - k;
  }

  lemma FirstUserFound(ms: seq<Message>, f: nat)
    requires FirstUserAt(ms, f)
    ensures f < |ms| && FirstUser(ms, 0) == f
  {
    FirstUserIs(ms, 0);
  }

  lemma AfterTextFits(c: seq<Block>, q: seq<Block>, k: nat)
    requires AfterText(c, q, k)
    ensures k + |q| <= |c| && forall x :: 0 <= x < |q| ==> Plain(c[k + x]) == Plain(q[x])
  {
  }

  /** The first `n` blocks of the two lists are the same, marks apart, and no more of them are. */
  ghost predicate Longest(c: seq<Block>, q: seq<Block>, n: nat) {
    && n <= |c| && n <= |q| && (forall x :: 0 <= x < n ==> Plain(c[x]) == Plain(q[x]))
    && (n < |c| && n < |q| ==> Plain(c[n]) != Plain(q[n]))
  }

  /**
    The next request replays the block: it comes before message `at`, which follows the last answer, or it is among the
    leading blocks of that user message that equal the frame, unless a tool result ends these.
   */
  ghost predicate Recurring(ms: seq<Message>, q: seq<Block>, at: nat, p: Pos) {
    && At(ms, p)
    && (p.i < at
        || (p.i == at && ms[at].role == User
            && exists n: nat :: Longest(BlocksOf(ms[at]), q, n) && p.j < n
                           && (n < |BlocksOf(ms[at])| ==> !BlocksOf(ms[at])[n].ToolResult?)))
  }

  lemma LongestIs(c: seq<Block>, q: seq<Block>, n: nat)
    requires Longest(c, q, n)
    ensures n == SharedPrefix(c, q, 0)
  {
  }

  lemma RecurringIs(ms: seq<Message>, q: seq<Block>, at: nat, p: Pos)
    requires AfterAnswers(ms, at) && At(ms, p)
    ensures Recurring(ms, q, at, p) <==> p.i < at || (p.i == at && p.j < StableNewest(ms, q))
  {
    AfterAnswersIs(ms, at);
    if p.i == at {
      var c := BlocksOf(ms[at]);
      assert Longest(c, q, SharedPrefix(c, q, 0));
      forall n: nat | Longest(c, q, n) ensures n == SharedPrefix(c, q, 0) {
        LongestIs(c, q, n);
      }
    }
  }

  /** The target is the last cacheable block the next request replays; there is none if no such block is cacheable. */
  lemma TargetIsLast(ms: seq<Message>, q: seq<Block>, at: nat, t: Pos)
    requires AfterAnswers(ms, at)
    ensures Target(ms, q) == Some(t)
       <==> && Recurring(ms, q, at, t) && Cacheable(Get(ms, t))
            && forall p :: Recurring(ms, q, at, p) && Cacheable(Get(ms, p)) ==> !Before(t, p)
    ensures Target(ms, q).None? <==> forall p :: Recurring(ms, q, at, p) ==> !Cacheable(Get(ms, p))
  {
    hide Recurring;
    AfterAnswersIs(ms, at);
    forall p | At(ms, p) ensures Recurring(ms, q, at, p) <==> p.i < at || (p.i == at && p.j < StableNewest(ms, q)) {
      RecurringIs(ms, q, at, p);
    }
    forall p | At(ms, p) && Cacheable(Get(ms, p)) && Recurring(ms, q, at, p)
      ensures Target(ms, q).Some? && !Before(Target(ms, q).value, p)
    {
      NoneLater(ms, q, p);
    }
    forall p | Recurring(ms, q, at, p) ensures At(ms, p) {
      RecurringAt(ms, q, at, p);
    }
    if Target(ms, q).Some? {
      var r := Target(ms, q).value;
      assert Recurring(ms, q, at, r) && Cacheable(Get(ms, r));
    }
  }

  lemma RecurringAt(ms: seq<Message>, q: seq<Block>, at: nat, p: Pos)
    requires Recurring(ms, q, at, p)
    ensures At(ms, p)
  {
  }

  lemma NoneLater(ms: seq<Message>, q: seq<Block>, p: Pos)
    requires At(ms, p) && Cacheable(Get(ms, p))
    requires p.i <= LastAssistant(ms) || (p.i == LastAssistant(ms) + 1 && p.j < StableNewest(ms, q))
    ensures Target(ms, q).Some? && !Before(Target(ms, q).value, p)
  {
    var last, n := LastAssistant(ms), StableNewest(ms, q);
    if n > 0 {
      LastCacheableIs(BlocksOf(ms[last + 1]), n);
    }
    if p.i <= last {
      LastInIs(ms, last + 1, p);
    }
  }

  lemma {:induction false} LastInIs(ms: seq<Message>, n: nat, p: Pos)
    requires p.i < n <= |ms| && At(ms, p) && Cacheable(Get(ms, p))
    ensures LastCacheableIn(ms, n).Some? && !Before(LastCacheableIn(ms, n).value, p)
  {
    LastCacheableIs(BlocksOf(ms[n - 1]), |BlocksOf(ms[n - 1])|);
    if p.i < n - 1 {
      LastInIs(ms, n - 1, p);
    }
  }

  // ----- folding -----

  /** Every mark after the target becomes one mark on it. */
  function Fold(ms: seq<Message>, t: Pos): seq<Message>
    requires At(ms, t)
  {
    var after := MarksAfter(ms, t);
    if after == Nil then ms
    else
      var cleared := ClearAfter(ms, t);
      ClearAfterMarks(ms, t);
      if Marked(Get(ms, t)) then cleared else Put(cleared, t, Some(after.head))
  }

  // ----- the open turn -----

  predicate OpensTurn(m: Message) {
    && m.role == User
    && (m.body.Line? || exists k :: 0 <= k < |BlocksOf(m)| && !BlocksOf(m)[k].ToolResult?)
  }

  predicate Thinks(m: Message) {
    m.role == Assistant && exists k :: 0 <= k < |BlocksOf(m)| && Uncacheable(BlocksOf(m)[k])
  }

  /** The last message before `end` that opens a turn, or -1. */
  function Opening(ms: seq<Message>, end: nat): (r: int)
    requires end <= |ms|
    ensures -1 <= r < end
  {
    if end == 0 then -1 else if OpensTurn(ms[end - 1]) then end - 1 else Opening(ms, end - 1)
  }

  /** The first message in `from..end` that thinks, or `end`. */
  function FirstThought(ms: seq<Message>, from: nat, end: nat): (r: nat)
    requires from <= end <= |ms|
    ensures from <= r <= end
    decreases end - from
  {
    if from == end || Thinks(ms[from]) then from else FirstThought(ms, from + 1, end)
  }

  /** The last user message before `end` and after `from`, or `from`. */
  function LastUser(ms: seq<Message>, from: nat, end: nat): (r: nat)
    requires from < end <= |ms|
    ensures from <= r < end
    decreases end
  {
    if end == from + 1 || ms[end - 1].role == User then end - 1 else LastUser(ms, from, end - 1)
  }

  /** The message the open turn's first thinking follows: its opening message, or a later user message. */
  function TurnFrame(ms: seq<Message>, last: nat): (r: Option<nat>)
    requires last < |ms|
    ensures r.Some? ==> r.value < last
  {
    var opening := Opening(ms, last);
    if opening == -1 then None
    else
      var thought := FirstThought(ms, opening + 1, last + 1);
      if thought == last + 1 then None else Some(LastUser(ms, opening, thought))
  }

  /** The last cacheable block of that message. */
  function TurnStart(ms: seq<Message>): (r: Option<Pos>)
    ensures r.Some? ==> At(ms, r.value) && Cacheable(Get(ms, r.value)) && r.value.i < LastAssistant(ms)
  {
    var last := LastAssistant(ms);
    if last == -1 then None
    else
      match TurnFrame(ms, last)
      case None => None
      case Some(frame) =>
        var j := LastCacheable(BlocksOf(ms[frame]), |BlocksOf(ms[frame])|);
        if j < 0 then None else Some(Pos(frame, j))
  }

  lemma {:induction false} OpeningIs(ms: seq<Message>, end: nat)
    requires end <= |ms|
    ensures var r := Opening(ms, end);
            (0 <= r ==> OpensTurn(ms[r])) && forall i :: r < i < end ==> !OpensTurn(ms[i])
  {
    if end > 0 {
      OpeningIs(ms, end - 1);
    }
  }

  lemma {:induction false} FirstThoughtIs(ms: seq<Message>, from: nat, end: nat)
    requires from <= end <= |ms|
    ensures var r := FirstThought(ms, from, end);
            (r < end ==> Thinks(ms[r])) && forall i :: from <= i < r ==> !Thinks(ms[i])
    decreases end - from
  {
    if from < end {
      FirstThoughtIs(ms, from + 1, end);
    }
  }

  lemma {:induction false} LastUserIs(ms: seq<Message>, from: nat, end: nat)
    requires from < end <= |ms|
    ensures var r := LastUser(ms, from, end);
            (from < r ==> ms[r].role == User) && forall i :: r < i < end ==> ms[i].role != User
    decreases end
  {
    if end > from + 1 {
      LastUserIs(ms, from, end - 1);
    }
  }

  /** The user says something: a string, or a list with more than tool results. */
  ghost predicate NewTurn(m: Message) {
    m.role == User && ((exists s :: m.body == Line(s)) || exists b :: b in BlocksOf(m) && !b.ToolResult?)
  }

  /** The assistant thinks, openly or redacted. */
  ghost predicate Thought(m: Message) {
    && m.role == Assistant
    && exists b :: b in BlocksOf(m) && b.Other? && b.kind.Some? && b.kind.value in ["thinking", "redacted_thinking"]
  }

  lemma NewTurnIs(m: Message)
    ensures OpensTurn(m) <==> NewTurn(m)
    ensures Thinks(m) <==> Thought(m)
  {
    var bs := BlocksOf(m);
    if m.body.Line? {
      assert m.body == Line(m.body.text);
    }
    if b :| b in bs && !b.ToolResult? {
      var k :| 0 <= k < |bs| && bs[k] == b;
    }
    if b :| b in bs && b.Other? && b.kind.Some? && b.kind.value in ["thinking", "redacted_thinking"] {
      var k :| 0 <= k < |bs| && bs[k] == b;
      assert Uncacheable(bs[k]);
    }
  }

  /** A mark goes on any object but thinking. */
  lemma CacheableIs(b: Block)
    ensures Cacheable(b)
       <==> !b.Loose? && !(b.Other? && b.kind.Some? && b.kind.value in ["thinking", "redacted_thinking"])
  {
  }

  /** The turn opens at `opening`, first thinks at `thought`, and `frame` is the last user message before that. */
  ghost predicate TurnShape(ms: seq<Message>, opening: nat, frame: nat, thought: nat) {
    && opening <= frame < thought <= LastAssistant(ms)
    && NewTurn(ms[opening]) && Thought(ms[thought]) && (frame == opening || ms[frame].role == User)
    && (forall i :: opening < i < LastAssistant(ms) ==> !NewTurn(ms[i]))
    && (forall i :: opening < i < thought ==> !Thought(ms[i]))
    && (forall i :: frame < i < thought ==> ms[i].role != User)
  }

  /** The open turn's first thinking follows that message; no other message has the shape. */
  ghost predicate Frames(ms: seq<Message>, frame: nat) {
    exists opening, thought :: TurnShape(ms, opening, frame, thought)
  }

  /**
    The turn start is the last cacheable block of the user message right before the open turn's first thinking; there is
    none exactly when no turn has that shape or the message has no cacheable block.
   */
  lemma TurnStartIs(ms: seq<Message>, f: Pos)
    ensures TurnStart(ms) == Some(f)
       <==> && Frames(ms, f.i) && At(ms, f) && Cacheable(Get(ms, f))
            && (forall k :: f.j < k < |BlocksOf(ms[f.i])| ==> !Cacheable(BlocksOf(ms[f.i])[k]))
  {
    hide Frames;
    FramesIs(ms, f.i);
    hide TurnFrame;
    if f.i < |ms| {
      LastCacheableIs(BlocksOf(ms[f.i]), |BlocksOf(ms[f.i])|);
    }
  }

  lemma FramesIs(ms: seq<Message>, frame: nat)
    ensures Frames(ms, frame) <==> LastAssistant(ms) != -1 && TurnFrame(ms, LastAssistant(ms)) == Some(frame)
  {
    var last := LastAssistant(ms);
    if last != -1 && TurnFrame(ms, last) == Some(frame) {
      ShapeOfFound(ms, frame);
    }
    if Frames(ms, frame) {
      var opening, thought :| TurnShape(ms, opening, frame, thought);
      ShapeFound(ms, opening, frame, thought);
    }
  }

  lemma ShapeOfFound(ms: seq<Message>, frame: nat)
    requires LastAssistant(ms) != -1 && TurnFrame(ms, LastAssistant(ms)) == Some(frame)
    ensures Frames(ms, frame)
  {
    hide OpensTurn, Thinks, NewTurn, Thought;
    forall m ensures (OpensTurn(m) <==> NewTurn(m)) && (Thinks(m) <==> Thought(m)) {
      NewTurnIs(m);
    }
    var last := LastAssistant(ms);
    var opening := Opening(ms, last);
    var thought := FirstThought(ms, opening + 1, last + 1);
    OpeningIs(ms, last);
    FirstThoughtIs(ms, opening + 1, last + 1);
    LastUserIs(ms, opening, thought);
    assert TurnShape(ms, opening, frame, thought);
  }

  /** The searches find the one turn there is of that shape. */
  lemma ShapeFound(ms: seq<Message>, opening: nat, frame: nat, thought: nat)
    requires TurnShape(ms, opening, frame, thought)
    ensures TurnFrame(ms, LastAssistant(ms)) == Some(frame)
  {
    hide OpensTurn, Thinks, NewTurn, Thought;
    forall m ensures (OpensTurn(m) <==> NewTurn(m)) && (Thinks(m) <==> Thought(m)) {
      NewTurnIs(m);
    }
    var last := LastAssistant(ms);
    OpeningIs(ms, last);
    assert Opening(ms, last) == opening;
    FirstThoughtIs(ms, opening + 1, last + 1);
    assert FirstThought(ms, opening + 1, last + 1) == thought;
    LastUserIs(ms, opening, thought);
    assert LastUser(ms, opening, thought) == frame;
  }

  /** Positions a message takes: one per block, one for a message that is not a list. */
  function Width(m: Message): nat {
    if m.body.Blocks? then |m.body.blocks| else 1
  }

  function Span(ms: seq<Message>, from: nat, to: nat): nat
    requires to <= |ms|
    decreases if from < to then to - from else 0
  {
    if from >= to then 0 else Width(ms[from]) + Span(ms, from + 1, to)
  }

  function Distance(ms: seq<Message>, f: Pos, t: Pos): int
    requires At(ms, f) && At(ms, t)
  {
    Span(ms, f.i, t.i) - f.j + t.j + 1
  }

  /** The turn start is unmarked, before the target, and out of the target's own lookback. */
  predicate OutOfReach(ms: seq<Message>, f: Pos, t: Pos)
    requires At(ms, f) && At(ms, t)
  {
    !Marked(Get(ms, f)) && Before(f, t) && Distance(ms, f, t) > LOOKBACK
  }

  /** `outside` counts the marks of tools, system and every other part of the body. */
  function Keep(ms: seq<Message>, outside: nat, t: Pos): seq<Message>
    requires At(ms, t)
  {
    var f := TurnStart(ms);
    if f.None? || !OutOfReach(ms, f.value, t) then ms
    else
      var next := NextMark(ms, f.value);
      if next.None? then ms
      else
        var mark := Get(ms, next.value).mark;
        if MessagesCount(ms, 0) + outside < MAX_BREAKPOINTS then Put(ms, f.value, mark)
        else if Before(next.value, t) && Marked(Get(ms, t)) then
          PutElsewhere(ms, next.value, None, f.value);
          Put(Put(ms, next.value, None), f.value, mark)
        else ms
  }

  function Pin(ms: seq<Message>, outside: nat, q: seq<Block>): seq<Message> {
    if q == [] then ms
    else
      match FrameFirst(ms, q)
      case Raised => ms
      case Kept => if AllMarks(ms) == Nil then ms else PinMarks(ms, outside, q)
      case Changed(first) => PinMarks(first, outside, q)
  }

  function PinMarks(ms: seq<Message>, outside: nat, q: seq<Block>): seq<Message> {
    match Target(ms, q)
    case None => ms
    case Some(t) =>
      FoldAt(ms, t);
      Keep(Fold(ms, t), outside, t)
  }

  lemma FoldAt(ms: seq<Message>, t: Pos)
    requires At(ms, t)
    ensures SamePlain(Fold(ms, t), ms) && At(Fold(ms, t), t)
  {
    ClearSamePlain(ms, t);
    ClearAfterMarks(ms, t);
    SamePlainSelf(ms);
    if MarksAfter(ms, t) != Nil && !Marked(Get(ms, t)) {
      PutSamePlain(ClearAfter(ms, t), t, Some(MarksAfter(ms, t).head));
      SamePlainTransitive(Fold(ms, t), ClearAfter(ms, t), ms);
    }
  }

  // ----- content -----

  lemma KeepAt(ms: seq<Message>, outside: nat, t: Pos)
    requires At(ms, t)
    ensures SamePlain(Keep(ms, outside, t), ms)
  {
    SamePlainSelf(ms);
    var f := TurnStart(ms);
    if f.Some? && OutOfReach(ms, f.value, t) && NextMark(ms, f.value).Some? {
      var s := NextMark(ms, f.value).value;
      PutSamePlain(ms, f.value, Get(ms, s).mark);
      MoveSamePlain(ms, f.value, s);
    }
  }

  lemma MoveSamePlain(ms: seq<Message>, f: Pos, s: Pos)
    requires At(ms, f) && At(ms, s) && f != s && !Get(ms, s).Loose?
    ensures At(Put(ms, s, None), f) && SamePlain(Put(Put(ms, s, None), f, Get(ms, s).mark), ms)
  {
    var mid := Put(ms, s, None);
    PutElsewhere(ms, s, None, f);
    PutSamePlain(ms, s, None);
    PutSamePlain(mid, f, Get(ms, s).mark);
    SamePlainTransitive(Put(mid, f, Get(ms, s).mark), mid, ms);
  }

  /** Apart from `_frame_first`, pinning changes nothing but block marks. */
  lemma PinContent(ms: seq<Message>, outside: nat, q: seq<Block>)
    ensures SamePlain(PinMarks(ms, outside, q), ms)
  {
    SamePlainSelf(ms);
    if Target(ms, q).Some? {
      var t := Target(ms, q).value;
      FoldAt(ms, t);
      KeepAt(Fold(ms, t), outside, t);
      SamePlainTransitive(PinMarks(ms, outside, q), Fold(ms, t), ms);
    }
  }

  // ----- the order of the marks -----

  /** Folding keeps what is before the target, then the target's own mark or the first one after it. */
  lemma FoldMarks(ms: seq<Message>, t: Pos)
    requires At(ms, t) && Cacheable(Get(ms, t))
    ensures At(Fold(ms, t), t) && MarksAfter(Fold(ms, t), t) == Nil
    ensures var after := MarksAfter(ms, t);
            AllMarks(Fold(ms, t))
            == MarksThrough(ms, t, if Marked(Get(ms, t)) then Cons(Get(ms, t).mark.value, Nil)
                                   else if after.Cons? then Cons(after.head, Nil) else Nil)
  {
    var out := Fold(ms, t);
    if MarksAfter(ms, t) == Nil {
      MarksSplit(ms, t);
    } else {
      var cleared := ClearAfter(ms, t);
      ClearAfterMarks(ms, t);
      MarksSplit(cleared, t);
      PutMarks(cleared, t, Some(MarksAfter(ms, t).head));
    }
  }

  lemma FoldOrder(ms: seq<Message>, t: Pos)
    requires At(ms, t) && Cacheable(Get(ms, t))
    ensures Sub(AllMarks(Fold(ms, t)), AllMarks(ms))
  {
    FoldMarks(ms, t);
    MarksSplit(ms, t);
    var after := MarksAfter(ms, t);
    var kept := if Marked(Get(ms, t)) then Cons(Get(ms, t).mark.value, Nil)
                else if after.Cons? then Cons(after.head, Nil) else Nil;
    assert kept.Cons? ==> Sub(kept.tail, OwnMark(Get(ms, t), after).tail);
    assert Sub(kept, OwnMark(Get(ms, t), after));
    SubThrough(ms, t, kept, OwnMark(Get(ms, t), after));
  }

  /** A mark moved back over unmarked blocks leaves the order as it was. */
  lemma MoveBack(ms: seq<Message>, f: Pos, s: Pos)
    requires At(ms, f) && !Get(ms, f).Loose? && !Marked(Get(ms, f)) && NextMark(ms, f) == Some(s)
    ensures At(Put(ms, s, None), f)
    ensures AllMarks(Put(Put(ms, s, None), f, Get(ms, s).mark)) == AllMarks(ms)
  {
    var m := Get(ms, s).mark;
    var mid := Put(ms, s, None);
    NextMarkFirst(ms, f);
    PutElsewhere(ms, s, None, f);
    PutMarks(ms, s, None);
    forall x | Before(f, x) && Before(x, s) ensures !MarkedAt(mid, x) {
      if At(mid, x) {
        PutElsewhere(ms, s, None, x);
        assert !MarkedAt(ms, x);
      }
    }
    SkipTo(mid, f, s);
    PutMarks(mid, f, m);
    SameThroughMarks(mid, ms, f, Cons(m.value, MarksAfter(ms, s)));
    MarksSplit(ms, f);
  }

  lemma AddTwin(ms: seq<Message>, f: Pos, s: Pos)
    requires At(ms, f) && !Get(ms, f).Loose? && !Marked(Get(ms, f)) && NextMark(ms, f) == Some(s)
    ensures AtMostOneTwin(AllMarks(Put(ms, f, Get(ms, s).mark)), AllMarks(ms))
  {
    var after := MarksAfter(ms, f);
    NextMarkFirst(ms, f);
    PutMarks(ms, f, Get(ms, s).mark);
    MarksSplit(ms, f);
    SubThrough(ms, f, Cons(after.head, after), after);
  }

  lemma KeepOrder(ms: seq<Message>, outside: nat, t: Pos)
    requires At(ms, t)
    ensures var out, marks := AllMarks(Keep(ms, outside, t)), AllMarks(ms);
            AtMostOneTwin(out, marks) && (out != marks ==> MessagesCount(ms, 0) + outside < MAX_BREAKPOINTS)
  {
    var f := TurnStart(ms);
    if f.Some? && OutOfReach(ms, f.value, t) && NextMark(ms, f.value).Some? {
      var s := NextMark(ms, f.value).value;
      if MessagesCount(ms, 0) + outside < MAX_BREAKPOINTS {
        AddTwin(ms, f.value, s);
      } else {
        MoveBack(ms, f.value, s);
      }
    }
  }

  /** Dropping the opening blocks deletes marks; at most one of them moves, to the next block. */
  lemma DropOrder(c: seq<Block>, k: nat, rest: List<Mark>)
    requires k < |c| && DropFirst(c, k).Some?
    ensures Sub(MarksFrom(DropFirst(c, k).value, 0, rest), MarksFrom(c, 0, rest))
  {
    var out, m := DropFirst(c, k).value, NextIn(c, 0);
    ShiftMarks(out, c, 1, k, rest);
    DroppedMarks(c, 0, k, rest);
    if out[0] != c[k] {
      SkipBlocks(c, 0, m, rest);
      DroppedMarks(c, m + 1, k, rest);
    }
  }

  lemma {:induction false} ShiftMarks(out: seq<Block>, c: seq<Block>, j: nat, k: nat, rest: List<Mark>)
    requires |out| + k == |c| && forall x :: j <= x < |out| ==> out[x] == c[k + x]
    ensures MarksFrom(out, j, rest) == MarksFrom(c, k + j, rest)
    decreases |out| - j
  {
    if j < |out| {
      ShiftMarks(out, c, j + 1, k, rest);
    }
  }

  lemma FrameOrder(ms: seq<Message>, q: seq<Block>)
    requires FrameFirst(ms, q).Changed?
    ensures Sub(AllMarks(FrameFirst(ms, q).messages), AllMarks(ms))
  {
    var f := FirstUser(ms, 0);
    var out := FrameFirst(ms, q).messages;
    var rest := AllFrom(ms, f + 1);
    SameAllFrom(out, ms, f + 1);
    DropOrder(BlocksOf(ms[f]), ContextBefore(ms, q).value, rest);
    AllMeet(ms, f);
    AllMeet(out, f);
    SameAllTo(out, ms, f, AllFrom(out, f));
    SubAllTo(ms, f, AllFrom(out, f), AllFrom(ms, f));
  }

  lemma PinMarksOrder(ms: seq<Message>, outside: nat, q: seq<Block>)
    ensures KeepsOrder(AllMarks(PinMarks(ms, outside, q)), AllMarks(ms))
  {
    match Target(ms, q)
    case None => SubSelf(AllMarks(ms));
    case Some(t) =>
      FoldAt(ms, t);
      FoldOrder(ms, t);
      KeepOrder(Fold(ms, t), outside, t);
  }

  /** The marks keep native's order: some go, at most one is repeated next to itself. */
  lemma PinOrder(ms: seq<Message>, outside: nat, q: seq<Block>)
    ensures KeepsOrder(AllMarks(Pin(ms, outside, q)), AllMarks(ms))
  {
    SubSelf(AllMarks(ms));
    if q != [] {
      match FrameFirst(ms, q)
      case Raised =>
      case Kept => PinMarksOrder(ms, outside, q);
      case Changed(first) =>
        PinMarksOrder(first, outside, q);
        var kept :| Sub(kept, AllMarks(first)) && AtMostOneTwin(AllMarks(PinMarks(first, outside, q)), kept);
        FrameOrder(ms, q);
        SubTransitive(kept, AllMarks(first), AllMarks(ms));
    }
  }

  /** Whatever order of TTLs native's marks had, they still have it. */
  lemma PinKeepsTtlOrder(ms: seq<Message>, outside: nat, q: seq<Block>, leq: (Mark, Mark) -> bool)
    requires Sorted(AllMarks(ms), leq) && forall x :: leq(x, x)
    ensures Sorted(AllMarks(Pin(ms, outside, q)), leq)
  {
    PinOrder(ms, outside, q);
    OrderStaysSorted(AllMarks(Pin(ms, outside, q)), AllMarks(ms), leq);
  }

  // ----- the budget -----

  lemma {:induction false} ShiftCount(out: seq<Block>, c: seq<Block>, j: nat, k: nat)
    requires |out| + k == |c| && forall x :: j <= x < |out| ==> out[x] == c[k + x]
    ensures BlocksCount(out, j) == BlocksCount(c, k + j)
    decreases |out| - j
  {
    if j < |out| {
      ShiftCount(out, c, j + 1, k);
    }
  }

  lemma {:induction false} CountTail(c: seq<Block>, j: nat, k: nat)
    requires j <= k <= |c|
    ensures BlocksCount(c, k) <= BlocksCount(c, j)
    ensures (exists m :: j <= m < k && Marked(c[m])) ==> BlocksCount(c, k) < BlocksCount(c, j)
    decreases k - j
  {
    if j < k {
      CountTail(c, j + 1, k);
    }
  }

  lemma DropCount(c: seq<Block>, k: nat)
    requires k < |c| && DropFirst(c, k).Some?
    ensures BlocksCount(DropFirst(c, k).value, 0) <= BlocksCount(c, 0)
  {
    var out := DropFirst(c, k).value;
    ShiftCount(out, c, 1, k);
    CountTail(c, 0, k);
  }

  lemma {:induction false} CountSplice(a: seq<Message>, b: seq<Message>, f: nat, i: nat)
    requires |a| == |b| && f < |a| && forall k :: 0 <= k < |a| && k != f ==> a[k] == b[k]
    ensures MessagesCount(a, i) == MessagesCount(b, i) + if i <= f then MessageCount(a[f]) - MessageCount(b[f]) else 0
    decreases |a| - i
  {
    if i < |a| {
      CountSplice(a, b, f, i + 1);
    }
  }

  lemma FrameCount(ms: seq<Message>, q: seq<Block>)
    requires FrameFirst(ms, q).Changed?
    ensures MessagesCount(FrameFirst(ms, q).messages, 0) <= MessagesCount(ms, 0)
  {
    var f := FirstUser(ms, 0);
    DropCount(BlocksOf(ms[f]), ContextBefore(ms, q).value);
    CountSplice(FrameFirst(ms, q).messages, ms, f, 0);
  }

  lemma FoldCount(ms: seq<Message>, t: Pos)
    requires At(ms, t) && Cacheable(Get(ms, t))
    ensures MessagesCount(Fold(ms, t), 0) <= MessagesCount(ms, 0)
  {
    FoldAt(ms, t);
    FoldOrder(ms, t);
    SubShorter(AllMarks(Fold(ms, t)), AllMarks(ms));
    HiddenSame(Fold(ms, t), ms);
  }

  lemma KeepCount(ms: seq<Message>, outside: nat, t: Pos)
    requires At(ms, t)
    ensures var before, after := MessagesCount(ms, 0) + outside, MessagesCount(Keep(ms, outside, t), 0) + outside;
            after == before || (after == before + 1 && after <= MAX_BREAKPOINTS)
  {
    KeepOrder(ms, outside, t);
    TwinLonger(AllMarks(Keep(ms, outside, t)), AllMarks(ms));
    KeepAt(ms, outside, t);
    HiddenSame(Keep(ms, outside, t), ms);
  }

  lemma PinMarksCount(ms: seq<Message>, outside: nat, q: seq<Block>)
    ensures var before, after := MessagesCount(ms, 0) + outside, MessagesCount(PinMarks(ms, outside, q), 0) + outside;
            after <= before + 1 && (after <= before || after <= MAX_BREAKPOINTS)
  {
    if Target(ms, q).Some? {
      var t := Target(ms, q).value;
      FoldAt(ms, t);
      FoldCount(ms, t);
      KeepCount(Fold(ms, t), outside, t);
    }
  }

  /** Pinning adds at most one mark to the body, and none beyond Anthropic's four. */
  lemma PinBudget(ms: seq<Message>, outside: nat, q: seq<Block>)
    ensures var before, after := MessagesCount(ms, 0) + outside, MessagesCount(Pin(ms, outside, q), 0) + outside;
            after <= before + 1 && (after <= before || after <= MAX_BREAKPOINTS)
  {
    if q != [] {
      match FrameFirst(ms, q)
      case Raised =>
      case Kept => PinMarksCount(ms, outside, q);
      case Changed(first) =>
        FrameCount(ms, q);
        PinMarksCount(first, outside, q);
    }
  }
}
