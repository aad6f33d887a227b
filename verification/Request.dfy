/** The parsed request body, changed in place the way the relay changes it before it goes upstream. */
module Request {
  import opened Basics
  import opened Wire
  import opened Marks
  import opened Pinning
  import opened StableContext
  import Restoration

  /** An element of `tools`: whether it is an object, its `eager_input_streaming` if it has one, the marks in it. */
  datatype Tool = Tool(isObject: bool, eager: Option<string>, marks: nat)

  function ToolMarks(tools: seq<Tool>, i: nat): nat
    decreases |tools| - i
  {
    if i >= |tools| then 0 else tools[i].marks + ToolMarks(tools, i + 1)
  }

  function Streamed(t: Tool): Tool {
    if t.isObject && t.eager.None? then t.(eager := Some("true")) else t
  }

  // ----- the worklist of `_breakpoints` -----

  datatype Node = Turn(message: Message) | Part(block: Block)

  function NodeCount(n: Node): nat {
    match n
    case Turn(m) => MessageCount(m)
    case Part(b) => BlockCount(b)
  }

  function PendingCount(pending: List<Node>): nat {
    if pending.Nil? then 0 else NodeCount(pending.head) + PendingCount(pending.tail)
  }

  function Inner(b: Block): (r: seq<Block>)
    ensures r == [] || (b.ToolResult? && b.content.Parts? && r == b.content.blocks)
  {
    if b.ToolResult? && b.content.Parts? then b.content.blocks else []
  }

  lemma BlockCountIs(b: Block)
    ensures var odd := if b.ToolResult? && b.content.Odd? then b.content.rest.marks else 0;
            BlockCount(b) == Own(b) + b.rest.marks + odd + BlocksCount(Inner(b), 0)
  {
  }

  function Size(b: Block): nat
    decreases b, 0
  {
    1 + if b.ToolResult? && b.content.Parts? then Sizes(b.content.blocks, 0) else 0
  }

  function Sizes(bs: seq<Block>, i: nat): nat
    decreases bs, |bs| - i
  {
    if i >= |bs| then 0 else Size(bs[i]) + Sizes(bs, i + 1)
  }

  function PendingSize(pending: List<Node>): nat {
    if pending.Nil? then 0
    else
      var head := match pending.head case Turn(m) => 1 + Sizes(BlocksOf(m), 0) case Part(b) => Size(b);
      head + PendingSize(pending.tail)
  }

  function PushBlocks(bs: seq<Block>, i: nat, pending: List<Node>): (r: List<Node>)
    ensures PendingCount(r) == BlocksCount(bs, i) + PendingCount(pending)
    ensures PendingSize(r) == Sizes(bs, i) + PendingSize(pending)
    decreases |bs| - i
  {
    if i >= |bs| then pending else Cons(Part(bs[i]), PushBlocks(bs, i + 1, pending))
  }

  function PushMessages(ms: seq<Message>, i: nat, pending: List<Node>): (r: List<Node>)
    ensures PendingCount(r) == MessagesCount(ms, i) + PendingCount(pending)
    decreases |ms| - i
  {
    if i >= |ms| then pending else Cons(Turn(ms[i]), PushMessages(ms, i + 1, pending))
  }

  class Request {
    var messages: seq<Message>
    var tools: seq<Tool>
    /** Marks in `system` and the rest of the body. */
    var elsewhere: nat

    constructor (messages: seq<Message>, tools: seq<Tool>, elsewhere: nat)
      ensures this.messages == messages && this.tools == tools && this.elsewhere == elsewhere
    {
      this.messages, this.tools, this.elsewhere := messages, tools, elsewhere;
    }

    /** The marks no transform of the messages can touch. */
    function Outside(): nat
      reads `elsewhere, `tools
    {
      elsewhere + ToolMarks(tools, 0)
    }

    function Count(): nat
      reads this
    {
      MessagesCount(messages, 0) + Outside()
    }

    /** `_breakpoints` */
    method Breakpoints() returns (count: nat)
      ensures count == Count()
    {
      count := Outside();
      var pending := PushMessages(messages, 0, Nil);
      while pending.Cons?
        invariant count + PendingCount(pending) == Count()
        decreases PendingSize(pending)
      {
        var node, rest := pending.head, pending.tail;
        match node
        case Turn(m) =>
          count := count + (if m.mark.Some? then 1 else 0) + m.rest.marks;
          pending := PushBlocks(BlocksOf(m), 0, rest);
        case Part(b) =>
          BlockCountIs(b);
          count := count + Own(b) + b.rest.marks
                   + (if b.ToolResult? && b.content.Odd? then b.content.rest.marks else 0);
          pending := PushBlocks(Inner(b), 0, rest);
      }
    }

    /** `_frame_first` */
    method FrameFirst(queried: seq<Block>) returns (changed: bool, raised: bool)
      modifies `messages
      ensures changed ==> Pinning.FrameFirst(old(messages), queried) == Changed(messages)
      ensures !changed ==> messages == old(messages)
      ensures !changed ==> Pinning.FrameFirst(old(messages), queried) == if raised then Raised else Kept
    {
      changed, raised := false, false;
      var f := FirstUser(messages, 0);
      if LastAssistant(messages) != -1 || f == |messages| {
        return;
      }
      var content := BlocksOf(messages[f]);
      if queried == [] || |content| <= |queried| {
        return;
      }
      var starts := Starts(content, queried);
      OnlyStart(content, queried, starts);
      if |starts| != 1 || starts[0] == 0 {
        return;
      }
      var k := starts[0];
      var i := 0;
      while i < k
        invariant i <= k && forall x :: 0 <= x < i ==> Droppable(content[x])
      {
        if !Droppable(content[i]) {
          return;
        }
        i := i + 1;
      }
      var m := NextIn(content, 0);
      var mark := if m < k then content[m].mark else None;
      content := content[k..];
      if mark.Some? && mark != Some(Null) {
        if content[0].Loose? {
          return false, true;
        }
        if content[0].mark.None? {
          content := content[0 := content[0].(mark := mark)];
        }
      }
      messages := messages[f := messages[f].(body := Blocks(content))];
      changed := true;
    }

    /** Every mark after the target is popped; the first goes on the target unless that has one. */
    method Fold(t: Pos) returns (folded: bool)
      requires At(messages, t)
      modifies `messages
      ensures messages == Pinning.Fold(old(messages), t) && folded == (MarksAfter(old(messages), t) != Nil)
    {
      var after := MarksAfter(messages, t);
      if after == Nil {
        return false;
      }
      ClearAfterMarks(messages, t);
      var i := t.i;
      while i < |messages|
        invariant t.i <= i <= |messages| == |old(messages)|
        invariant forall x :: 0 <= x < i ==> messages[x] == ClearAfter(old(messages), t)[x]
        invariant forall x :: i <= x < |messages| ==> messages[x] == old(messages[x])
      {
        var cleared := PopMarks(messages[i], if i == t.i then t.j + 1 else 0);
        messages := messages[i := cleared];
        i := i + 1;
      }
      assert messages == ClearAfter(old(messages), t);
      if !Marked(Get(messages, t)) {
        messages := Put(messages, t, Some(after.head));
      }
      return true;
    }

    /** `_keep_turn_mark` */
    method KeepTurnMark(t: Pos) returns (placed: bool)
      requires At(messages, t)
      modifies `messages
      ensures messages == Keep(old(messages), Outside(), t)
      ensures !placed ==> messages == old(messages)
    {
      var f := TurnStart(messages);
      if f.None? || !OutOfReach(messages, f.value, t) {
        return false;
      }
      var later := NextMark(messages, f.value);
      if later.None? {
        return false;
      }
      var mark := Get(messages, later.value).mark;
      var count := Breakpoints();
      if count < MAX_BREAKPOINTS {
        messages := Put(messages, f.value, mark);
        return true;
      }
      if !Before(later.value, t) || !Marked(Get(messages, t)) {
        return false;
      }
      PutElsewhere(messages, later.value, None, f.value);
      messages := Put(messages, later.value, None);
      messages := Put(messages, f.value, mark);
      return true;
    }

    /** `pin_message_breakpoint`; false when the payload goes out as it came. */
    method PinMessageBreakpoint(queried: seq<Block>) returns (changed: bool)
      modifies `messages
      ensures messages == Pin(old(messages), Outside(), queried)
      ensures !changed ==> messages == old(messages)
    {
      ghost var was, outside := messages, Outside();
      if queried == [] {
        return false;
      }
      var reordered, raised := FrameFirst(queried);
      PinIs(was, outside, queried, messages, reordered, raised);
      var skip := !reordered && (raised || AllMarks(messages) == Nil);
      if skip {
        return false;
      }
      var marked := PinTarget(queried);
      return reordered || marked;
    }

    /** Past `_frame_first`: marks after the target fold onto it, and the open turn's start keeps one. */
    method PinTarget(queried: seq<Block>) returns (changed: bool)
      modifies `messages
      ensures messages == PinMarks(old(messages), Outside(), queried)
      ensures !changed ==> messages == old(messages)
    {
      var target := Target(messages, queried);
      if target.None? {
        return false;
      }
      FoldAt(messages, target.value);
      var folded := Fold(target.value);
      var turn := KeepTurnMark(target.value);
      return folded || turn;
    }

    /** `stable_request_context` */
    method StableRequestContext(queried: seq<Block>) returns (changed: bool)
      modifies `messages
      ensures messages == Stable(old(messages), queried)
      ensures !changed ==> messages == old(messages)
    {
      if !Shaped(messages, queried) {
        return false;
      }
      changed := false;
      var n := |messages| - 1;
      if n > 0 {
        var last, env := messages[n], FirstSystem(messages, 0, n);
        var line := if env < n then DateFor(last, messages[env]) else None;
        if line.Some? {
          messages := messages[env := Appended(messages[env], "\n\n" + line.value)];
          messages := messages[..n];
          messages := messages[n - 1 := DefaultLast(messages[n - 1], DateMark(last))];
          changed := true;
          assert messages == Dated(old(messages));
        }
      }
      var reminders := Reminders(messages, queried);
      if reminders.Some? {
        var u, k := LastUserTo(messages, |messages|), reminders.value;
        var dropped := DropFirst(BlocksOf(messages[u]), k);
        if dropped.Some? {
          messages := messages[u := messages[u].(body := Blocks(dropped.value))];
          changed := true;
        }
      }
    }

    /** `stream_tool_input`: no mark moves, and a value native set stays. */
    method StreamToolInput()
      modifies `tools
      ensures |tools| == |old(tools)| && forall x :: 0 <= x < |tools| ==> tools[x] == Streamed(old(tools[x]))
      ensures forall x :: 0 <= x < |tools| ==>
                var was := old(tools)[x];
                && tools[x].isObject == was.isObject && tools[x].marks == was.marks
                && tools[x].eager == (if was.isObject && was.eager == None then Some("true") else was.eager)
      ensures Outside() == old(Outside())
    {
      var i := 0;
      while i < |tools|
        invariant i <= |tools| == |old(tools)|
        invariant forall x :: 0 <= x < i ==> tools[x] == Streamed(old(tools[x]))
        invariant forall x :: i <= x < |tools| ==> tools[x] == old(tools[x])
      {
        if tools[i].isObject && tools[i].eager.None? {
          tools := tools[i := tools[i].(eager := Some("true"))];
        }
        i := i + 1;
      }
      SameToolMarks(tools, old(tools), 0);
    }

    /** `restore_queried_turn`; a refused frame stays as native built it. */
    method RestoreQueriedTurn(queried: Option<seq<Block>>) returns (refused: bool)
      modifies `messages
      ensures messages == Restoration.Forwarded(old(messages), queried)
      ensures refused == Restoration.RestoreTurn(old(messages), queried).Mismatch?
    {
      if queried.None? || !Restoration.HasResult(queried.value) {
        return false;
      }
      var at := LastAssistant(messages) + 1;
      if at == |messages| || messages[at].role != User || !messages[at].body.Blocks? {
        return true;
      }
      var native := messages[at].body.blocks;
      var ids := Restoration.ResultIds(queried.value);
      if !Restoration.UsableIds(ids) || ids != Restoration.ResultIds(native) {
        return true;
      }
      var restored := Restoration.RestoreSequence(native, queried.value);
      if restored.None? {
        return true;
      }
      if native != restored.value {
        messages := messages[at := messages[at].(body := Blocks(restored.value))];
      }
      return false;
    }

    /**
      What the relay does to a request before it sends it. Whatever frame was queried, the count of marks grows by at
      most one past restoration and only within Anthropic's four; the marks outside the messages stay.
     */
    method Rewrite(queried: Option<seq<Block>>)
      modifies this
      ensures var q := if queried.Some? then queried.value else [];
              var restored := Restoration.Forwarded(old(messages), queried);
              && messages == Pin(Stable(restored, q), old(Outside()), q)
              && Outside() == old(Outside()) && |tools| == |old(tools)|
              && var before := MessagesCount(restored, 0) + old(Outside());
                 Count() <= before + 1 && (Count() <= before || Count() <= MAX_BREAKPOINTS)
    {
      var refused := RestoreQueriedTurn(queried);
      var q := if queried.Some? then queried.value else [];
      RewriteBudget(messages, Outside(), q);
      var stable := StableRequestContext(q);
      var pinned := PinMessageBreakpoint(q);
      StreamToolInput();
    }
  }

  lemma {:induction false} SameToolMarks(a: seq<Tool>, b: seq<Tool>, i: nat)
    requires |a| == |b| && forall x :: 0 <= x < |a| ==> a[x].marks == b[x].marks
    ensures ToolMarks(a, i) == ToolMarks(b, i)
    decreases |a| - i
  {
    if i < |a| {
      SameToolMarks(a, b, i + 1);
    }
  }

  /** What pinning comes to after `_frame_first`. */
  lemma PinIs(ms: seq<Message>, outside: nat, q: seq<Block>, first: seq<Message>, changed: bool, raised: bool)
    requires changed ==> FrameFirst(ms, q) == Changed(first)
    requires !changed ==> first == ms && FrameFirst(ms, q) == if raised then Raised else Kept
    ensures Pin(ms, outside, q)
         == if q == [] || (!changed && (raised || AllMarks(first) == Nil)) then ms else PinMarks(first, outside, q)
  {
  }

  /** Every place the frame starts, in order. */
  method Starts(c: seq<Block>, q: seq<Block>) returns (starts: seq<nat>)
    requires |q| <= |c|
    ensures forall k: nat :: k in starts <==> HitAt(c, q, k)
    ensures forall a, b :: 0 <= a < b < |starts| ==> starts[a] < starts[b]
  {
    starts := [];
    var k := 0;
    while k < |c| - |q| + 1
      invariant k <= |c| - |q| + 1
      invariant forall x: nat :: x in starts <==> x < k && HitAt(c, q, x)
      invariant forall a :: 0 <= a < |starts| ==> starts[a] < k
      invariant forall a, b :: 0 <= a < b < |starts| ==> starts[a] < starts[b]
    {
      if HitAt(c, q, k) {
        starts := starts + [k];
      }
      k := k + 1;
    }
  }

  lemma OnlyStart(c: seq<Block>, q: seq<Block>, starts: seq<nat>)
    requires forall k: nat :: k in starts <==> HitAt(c, q, k)
    requires forall a, b :: 0 <= a < b < |starts| ==> starts[a] < starts[b]
    ensures OnlyHit(c, q) == if |starts| == 1 then Some(starts[0]) else None
  {
    if |starts| == 1 {
      assert starts[0] in starts;
      OnlyHitIs(c, q, starts[0]);
    } else if |starts| > 1 {
      assert starts[0] in starts && starts[1] in starts;
      OnlyHitIs(c, q, starts[0]);
      OnlyHitIs(c, q, starts[1]);
      if OnlyHit(c, q).Some? {
        OnlyHitIs(c, q, OnlyHit(c, q).value);
      }
    }
  }

  /** The marks of a message's blocks popped one by one, from block `j` on. */
  method PopMarks(m: Message, j: nat) returns (r: Message)
    ensures r == ClearMessage(m, j)
  {
    if !m.body.Blocks? {
      return m;
    }
    var bs := m.body.blocks;
    var k := j;
    while k < |bs|
      invariant j <= k && |bs| == |m.body.blocks|
      invariant forall x :: 0 <= x < |bs| ==> bs[x] == if j <= x < k then Plain(m.body.blocks[x]) else m.body.blocks[x]
    {
      bs := bs[k := Plain(bs[k])];
      k := k + 1;
    }
    assert bs == ClearBlocks(m.body.blocks, j);
    r := m.(body := Blocks(bs));
  }
}
