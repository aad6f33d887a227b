/** `stable_request_context`: native's date line and reminders, put where later requests replay them. */
module StableContext {
  import opened Basics
  import opened Wire
  import opened Marks
  import opened Pinning
  import R = Recurrence

  // ----- what the transform accepts -----

  /** Every block has a type, and a "text" block has a text. */
  predicate Typed(b: Block) {
    !b.Loose? && !b.NoText? && (b.Other? ==> b.kind.Some? && b.kind.value != "text")
  }

  predicate Expected(m: Message) {
    && (m.role == System || m.role == User || m.role == Assistant)
    && !m.body.NoBody?
    && forall k :: 0 <= k < |BlocksOf(m)| ==> Typed(BlocksOf(m)[k])
  }

  predicate Shaped(ms: seq<Message>, q: seq<Block>) {
    && (forall i :: 0 <= i < |ms| ==> Expected(ms[i]))
    && forall x :: 0 <= x < |q| ==> !q[x].Loose?
  }

  /** A known role, and a string or a list of objects with a type, texts being text. */
  ghost predicate Known(m: Message) {
    && (m.role == System || m.role == User || m.role == Assistant)
    && ((exists s :: m.body == Line(s)) || exists bs :: m.body == Blocks(bs) && forall b :: b in bs ==> KnownBlock(b))
  }

  ghost predicate KnownBlock(b: Block) {
    b.Text? || b.ToolResult? || exists kind :: b.Other? && b.kind == Some(kind) && kind != "text"
  }

  lemma KnownBlockIs(b: Block)
    ensures KnownBlock(b) <==> Typed(b)
  {
    if Typed(b) && b.Other? {
      assert b.kind == Some(b.kind.value);
    }
  }

  lemma KnownIs(m: Message)
    ensures Known(m) <==> Expected(m)
  {
    hide KnownBlock, Typed;
    forall b ensures KnownBlock(b) <==> Typed(b) {
      KnownBlockIs(b);
    }
    var bs := BlocksOf(m);
    if m.body.Line? {
      assert m.body == Line(m.body.text);
    }
    if m.body.Blocks? && forall k :: 0 <= k < |bs| ==> Typed(bs[k]) {
      assert m.body == Blocks(bs) && forall b :: b in bs ==> KnownBlock(b);
    }
    if Known(m) && m.body.Blocks? {
      forall k | 0 <= k < |bs| ensures Typed(bs[k]) {
        assert bs[k] in bs;
      }
    }
  }

  /** Known messages only, and a frame of objects. */
  ghost predicate AllKnown(ms: seq<Message>, q: seq<Block>) {
    (forall m :: m in ms ==> Known(m)) && forall b :: b in q ==> !b.Loose?
  }

  lemma ShapedIs(ms: seq<Message>, q: seq<Block>)
    ensures Shaped(ms, q) <==> AllKnown(ms, q)
  {
    hide Known, Expected;
    forall m ensures Known(m) <==> Expected(m) {
      KnownIs(m);
    }
    if AllKnown(ms, q) {
      forall i | 0 <= i < |ms| ensures Expected(ms[i]) {
        assert ms[i] in ms;
      }
      forall x | 0 <= x < |q| ensures !q[x].Loose? {
        assert q[x] in q;
      }
    }
  }

  /** Anything else goes out as it came. */
  lemma UnexpectedUnchanged(ms: seq<Message>, q: seq<Block>)
    ensures !AllKnown(ms, q) ==> Stable(ms, q) == ms
  {
    ShapedIs(ms, q);
  }

  // ----- the date line -----

  const DATE_OPENING := "Today's date is "

  predicate Digit(c: char) {
    '0' <= c <= '9'
  }

  /** The opening, then dddd-dd-dd and a full stop, and nothing else. */
  predicate DateLine(s: string) {
    var n := |DATE_OPENING|;
    && |s| == n + 11 && s[..n] == DATE_OPENING
    && (forall k :: n <= k < n + 10 && k != n + 4 && k != n + 7 ==> Digit(s[k]))
    && s[n + 4] == '-' && s[n + 7] == '-' && s[n + 10] == '.'
  }

  /** The first system message among the first `n`, or `n`. */
  function FirstSystem(ms: seq<Message>, i: nat, n: nat): (r: nat)
    requires i <= n <= |ms|
    ensures i <= r <= n && (r < n ==> ms[r].role == System)
    decreases n - i
  {
    if i == n || ms[i].role == System then i else FirstSystem(ms, i + 1, n)
  }

  lemma {:induction false} FirstSystemIs(ms: seq<Message>, i: nat, n: nat, k: nat)
    requires i <= k < n <= |ms| && ms[k].role == System
    ensures FirstSystem(ms, i, n) <= k
    decreases n - i
  {
    if i < k {
      FirstSystemIs(ms, i + 1, n, k);
    }
  }

  /** The only text of a message: its string, or its one block's. */
  function SoleText(m: Message): Option<string> {
    if m.body.Line? then Some(m.body.text)
    else if |BlocksOf(m)| == 1 && BlocksOf(m)[0].Text? then Some(BlocksOf(m)[0].text)
    else None
  }

  /** The text a message ends with: its string, or its last block's. */
  function LastText(m: Message): Option<string> {
    var bs := BlocksOf(m);
    if m.body.Line? then Some(m.body.text)
    else if bs != [] && bs[|bs| - 1].Text? then Some(bs[|bs| - 1].text)
    else None
  }

  function Appended(m: Message, s: string): Message
    requires LastText(m).Some?
  {
    if m.body.Line? then m.(body := Line(m.body.text + s))
    else
      var bs := BlocksOf(m);
      m.(body := Blocks(bs[|bs| - 1 := bs[|bs| - 1].(text := bs[|bs| - 1].text + s)]))
  }

  /** The date line `last` carries, unless it is not the system's or `env` has no text to take it or has it already. */
  function DateFor(last: Message, env: Message): (r: Option<string>)
    ensures r.Some? ==> LastText(env).Some?
  {
    var line, text := SoleText(last), LastText(env);
    if last.role != System || line.None? || !DateLine(line.value) || text.None? || EndsWith(text.value, line.value)
        then None
    else line
  }

  /** The date line that is to move to the first system message. */
  function Date(ms: seq<Message>): (r: Option<string>)
    ensures r.Some? ==> |ms| >= 2 && FirstSystem(ms, 0, |ms| - 1) < |ms| - 1
                        && LastText(ms[FirstSystem(ms, 0, |ms| - 1)]).Some?
  {
    if |ms| < 2 || FirstSystem(ms, 0, |ms| - 1) == |ms| - 1 then None
    else DateFor(ms[|ms| - 1], ms[FirstSystem(ms, 0, |ms| - 1)])
  }

  /** The mark that goes with the line: its block's if that has one, else its message's. Null counts as none. */
  function DateMark(m: Message): Option<Mark> {
    var bs := BlocksOf(m);
    var own := if |bs| == 1 && Marked(bs[0]) then bs[0].mark else m.mark;
    if own == Some(Null) then None else own
  }

  /** `setdefault` on the last block of a message. */
  function DefaultLast(m: Message, mark: Option<Mark>): Message {
    var bs := BlocksOf(m);
    if mark.None? || bs == [] || Marked(bs[|bs| - 1]) then m
    else m.(body := Blocks(bs[|bs| - 1 := WithMark(bs[|bs| - 1], mark)]))
  }

  /** The date line moved to the end of the first system message, and its message gone. */
  function Dated(ms: seq<Message>): (r: seq<Message>)
    ensures |r| == if Date(ms).Some? then |ms| - 1 else |ms|
  {
    match Date(ms)
    case None => ms
    case Some(line) =>
      var n := |ms| - 1;
      var env := FirstSystem(ms, 0, n);
      var moved := ms[..n][env := Appended(ms[env], "\n\n" + line)];
      moved[n - 1 := DefaultLast(moved[n - 1], DateMark(ms[n]))]
  }

  // ----- the reminders -----

  predicate OnlyResults(q: seq<Block>) {
    forall x :: 0 <= x < |q| ==> q[x].ToolResult?
  }

  /** The last user message among the first `n`, or -1. */
  function LastUserTo(ms: seq<Message>, n: nat): (r: int)
    requires n <= |ms|
    ensures -1 <= r < n && (0 <= r ==> ms[r].role == User)
  {
    if n == 0 then -1 else if ms[n - 1].role == User then n - 1 else LastUserTo(ms, n - 1)
  }

  lemma {:induction false} LastUserToIs(ms: seq<Message>, n: nat, k: nat)
    requires k < n <= |ms| && ms[k].role == User
    ensures k <= LastUserTo(ms, n)
  {
    if k < n - 1 {
      LastUserToIs(ms, n - 1, k);
    }
  }

  /** How much plain text native put before the queried frame on the newest user turn. */
  function Reminders(ms: seq<Message>, q: seq<Block>): (r: Option<nat>)
    ensures r.Some? ==> 0 <= LastUserTo(ms, |ms|) && 0 < r.value < |BlocksOf(ms[LastUserTo(ms, |ms|)])|
    ensures r.Some? ==> HitAt(BlocksOf(ms[LastUserTo(ms, |ms|)]), q, r.value)
  {
    var u := LastUserTo(ms, |ms|);
    if q == [] || OnlyResults(q) || u == -1 || LastAssistant(ms) == -1 then None
    else
      var c := BlocksOf(ms[u]);
      match OnlyHit(c, q)
      case None => None
      case Some(k) => if k > 0 && forall x :: 0 <= x < k ==> Droppable(c[x]) then Some(k) else None
  }

  function Dropped(ms: seq<Message>, q: seq<Block>): (r: seq<Message>)
    ensures |r| == |ms|
  {
    match Reminders(ms, q)
    case None => ms
    case Some(k) =>
      var u := LastUserTo(ms, |ms|);
      match DropFirst(BlocksOf(ms[u]), k)
      case None => ms
      case Some(c) => ms[u := ms[u].(body := Blocks(c))]
  }

  /** The messages that go out; `q` is empty when nothing was queried. */
  function Stable(ms: seq<Message>, q: seq<Block>): seq<Message> {
    if Shaped(ms, q) then Dropped(Dated(ms), q) else ms
  }

  // ----- what changes -----

  /**
    The date line moves whole: its message goes, the first system message ends with it, nothing else changes but
    marks.
   */
  lemma DateMoves(ms: seq<Message>)
    requires Date(ms).Some?
    ensures var n, out, line := |ms| - 1, Dated(ms), Date(ms).value;
            var env := FirstSystem(ms, 0, n);
            && |out| == n && SoleText(ms[n]) == Some(line) && DateLine(line)
            && LastText(out[env]) == Some(LastText(ms[env]).value + "\n\n" + line)
            && SameMessage(out[env], Appended(ms[env], "\n\n" + line))
            && forall i :: 0 <= i < n && i != env ==> SameMessage(out[i], ms[i])
  {
    var n := |ms| - 1;
    var env := FirstSystem(ms, 0, n);
    var text, more := LastText(ms[env]).value, "\n\n" + Date(ms).value;
    assert text + more == text + "\n\n" + Date(ms).value;
    DefaultSame(Appended(ms[env], more), DateMark(ms[n]));
    DefaultSame(ms[n - 1], DateMark(ms[n]));
  }

  /** The line: the opening, a date of digits, and a full stop. */
  lemma DateLineIs(s: string)
    ensures DateLine(s)
       <==> exists date: string ::
              && s == "Today's date is " + date && |date| == 11 && date[4] == '-' && date[7] == '-' && date[10] == '.'
              && forall k :: 0 <= k < 10 && k != 4 && k != 7 ==> '0' <= date[k] <= '9'
  {
    var n := |DATE_OPENING|;
    if DateLine(s) {
      var date := s[n..];
      assert s == "Today's date is " + date;
    }
    if date: string :|
         && s == "Today's date is " + date && |date| == 11 && date[4] == '-' && date[7] == '-' && date[10] == '.'
         && forall k :: 0 <= k < 10 && k != 4 && k != 7 ==> '0' <= date[k] <= '9'
    {
      ADateLine(date);
    }
  }

  /** Message `e` is the first system message. */
  ghost predicate FirstSystemAt(ms: seq<Message>, e: nat) {
    e < |ms| && ms[e].role == System && forall i :: 0 <= i < e ==> ms[i].role != System
  }

  /** The message is one string, or ends with a text block; `s` is that text. */
  ghost predicate EndsIn(m: Message, s: string) {
    || m.body == Line(s)
    || (m.body.Blocks? && m.body.blocks != [] && (var b := m.body.blocks[|m.body.blocks| - 1]; b.Text? && b.text == s))
  }

  /**
    A date line moves exactly when it is all that the last message says, that message is the system's but not its first,
    and the first ends in a text that does not end with the line already.
   */
  lemma DateIs(ms: seq<Message>, line: string)
    ensures Date(ms) == Some(line)
       <==> && ms != [] && ms[|ms| - 1].role == System && DateLine(line)
            && EndsIn(ms[|ms| - 1], line) && (ms[|ms| - 1].body.Blocks? ==> |ms[|ms| - 1].body.blocks| == 1)
            && exists e: nat, text ::
                 FirstSystemAt(ms, e) && e < |ms| - 1 && EndsIn(ms[e], text) && !EndsWith(text, line)
  {
    hide DateLine, EndsWith;
    if |ms| >= 2 {
      var n := |ms| - 1;
      FirstSystemFound(ms, n);
      var e := FirstSystem(ms, 0, n);
      forall i: nat | i < n && FirstSystemAt(ms, i) ensures i == e {
      }
      if e < n {
        forall s ensures EndsIn(ms[e], s) <==> LastText(ms[e]) == Some(s) {
        }
      }
    }
  }

  lemma FirstSystemFound(ms: seq<Message>, n: nat)
    requires n <= |ms|
    ensures var e := FirstSystem(ms, 0, n); (e < n ==> FirstSystemAt(ms, e))
                                            && forall i :: 0 <= i < e ==> ms[i].role != System
  {
    forall i | 0 <= i < n && ms[i].role == System ensures FirstSystem(ms, 0, n) <= i {
      FirstSystemIs(ms, 0, n, i);
    }
  }

  /**
    The mark that leaves with the date line, its block's or else its message's, goes to the block that is now the
    request's last, unless it is null or that block has its own. Every other message keeps its marks.
   */
  lemma DateMarkMoves(ms: seq<Message>)
    requires Date(ms).Some?
    ensures var n, out, line := |ms| - 1, Dated(ms), Date(ms).value;
            var m, last := ms[n], out[n - 1];
            var mark := if m.body.Blocks? && Marked(m.body.blocks[0]) then m.body.blocks[0].mark else m.mark;
            var kept := ms[..n][FirstSystem(ms, 0, n) := Appended(ms[FirstSystem(ms, 0, n)], "\n\n" + line)];
            && out[..n - 1] == kept[..n - 1]
            && if mark.Some? && mark.value != Null && last.body.Blocks? && last.body.blocks != []
                  && !Marked(BlocksOf(kept[n - 1])[|last.body.blocks| - 1])
               then var b := last.body.blocks; var c := BlocksOf(kept[n - 1]);
                    |b| == |c| && b[..|b| - 1] == c[..|b| - 1] && b[|b| - 1] == WithMark(c[|b| - 1], mark)
               else last == kept[n - 1]
  {
    var n := |ms| - 1;
    assert SoleText(ms[n]).Some?;
    assert ms[n].body.Blocks? ==> BlocksOf(ms[n]) == ms[n].body.blocks && |ms[n].body.blocks| == 1;
  }

  lemma DefaultSame(m: Message, mark: Option<Mark>)
    ensures SameMessage(DefaultLast(m, mark), m) && LastText(DefaultLast(m, mark)) == LastText(m)
  {
    assert SameBlocks(BlocksOf(DefaultLast(m, mark)), BlocksOf(m));
  }

  /** Only plain text before the queried frame goes, and then the turn starts with the frame. */
  lemma ReminderGoes(ms: seq<Message>, q: seq<Block>)
    requires Reminders(ms, q).Some? && Shaped(ms, q)
    ensures var u, k, out := LastUserTo(ms, |ms|), Reminders(ms, q).value, Dropped(ms, q);
            var c := BlocksOf(ms[u]);
            && BlocksOf(out[u]) != [] && SameBlocks(BlocksOf(out[u]), c[k..]) && HitAt(BlocksOf(out[u]), q, 0)
            && (forall x :: 0 <= x < k ==> Droppable(c[x]))
            && out[u] == ms[u].(body := Blocks(BlocksOf(out[u])))
            && forall i :: 0 <= i < |ms| && i != u ==> out[i] == ms[i]
  {
    var u, k, out := LastUserTo(ms, |ms|), Reminders(ms, q).value, Dropped(ms, q);
    var c, d := BlocksOf(ms[u]), BlocksOf(out[u]);
    assert Expected(ms[u]);
    assert Typed(c[k]);
    DropToFrame(c, q, k, d);
  }

  lemma DropToFrame(c: seq<Block>, q: seq<Block>, k: nat, out: seq<Block>)
    requires k < |c| && HitAt(c, q, k) && DropFirst(c, k) == Some(out)
    ensures out != [] && SameBlocks(out, c[k..]) && HitAt(out, q, 0)
  {
    R.ShiftStands(out, c, q, k, |q|);
  }

  /** Message `u` is the request's last user message. */
  ghost predicate LastUserAt(ms: seq<Message>, u: nat) {
    u < |ms| && ms[u].role == User && forall i :: u < i < |ms| ==> ms[i].role != User
  }

  lemma {:induction false} LastUserToNone(ms: seq<Message>, n: nat)
    requires n <= |ms|
    ensures forall i :: LastUserTo(ms, n) < i < n ==> ms[i].role != User
  {
    if n > 0 {
      LastUserToNone(ms, n - 1);
    }
  }

  lemma LastUserFound(ms: seq<Message>, u: nat)
    ensures LastUserAt(ms, u) <==> LastUserTo(ms, |ms|) == u
  {
    LastUserToNone(ms, |ms|);
  }

  /**
    Reminders are found exactly when an assistant has answered, the frame has something else than tool results, and the
    last user message holds plain text before the only place of the frame.
   */
  lemma RemindersIs(ms: seq<Message>, q: seq<Block>, k: nat)
    ensures Reminders(ms, q) == Some(k)
       <==> && (exists i :: 0 <= i < |ms| && ms[i].role == Assistant)
            && (exists x :: 0 <= x < |q| && !q[x].ToolResult?)
            && exists u: nat :: LastUserAt(ms, u) && AfterText(BlocksOf(ms[u]), q, k)
  {
    hide AfterText, OnlyHit, LastUserAt;
    LastAssistantIs(ms, |ms|);
    forall u: nat ensures LastUserAt(ms, u) <==> LastUserTo(ms, |ms|) == u {
      LastUserFound(ms, u);
    }
    var u := LastUserTo(ms, |ms|);
    if u != -1 {
      assert LastUserAt(ms, u);
      AfterTextIs(BlocksOf(ms[u]), q, k);
    }
    if LastAssistant(ms) != -1 {
      assert ms[LastAssistant(ms)].role == Assistant;
    }
  }

  lemma AfterTextSame(a: seq<Block>, b: seq<Block>, q: seq<Block>, k: nat)
    requires SameBlocks(a, b)
    ensures AfterText(a, q, k) <==> AfterText(b, q, k)
  {
    hide OnlyHit, AfterText;
    AfterTextIs(a, q, k);
    AfterTextIs(b, q, k);
    R.SameOnlyHit(a, b, q);
    OnlyHitIs(a, q, k);
    if k <= |a| {
      forall x | 0 <= x < k ensures Droppable(a[x]) == Droppable(b[x]) {
        R.SameKinds(a, b, x);
      }
    } else {
      HitInside(a, q, k);
    }
  }

  /** Moving the date line changes nothing about the reminders. */
  lemma DatedReminders(ms: seq<Message>, q: seq<Block>)
    ensures Reminders(Dated(ms), q) == Reminders(ms, q)
  {
    if Date(ms).Some? {
      DateMoves(ms);
      DatedRoles(ms);
      hide Date, Dated, Reminders;
      LastUserKept(ms, Dated(ms));
      AnsweredKept(ms, Dated(ms));
      SameReminders(Dated(ms), ms, q);
    }
  }

  lemma SameReminders(a: seq<Message>, b: seq<Message>, q: seq<Block>)
    requires LastUserTo(a, |a|) == LastUserTo(b, |b|) && LastAssistant(a) == LastAssistant(b)
    requires 0 <= LastUserTo(a, |a|) ==> SameMessage(a[LastUserTo(a, |a|)], b[LastUserTo(a, |a|)])
    ensures Reminders(a, q) == Reminders(b, q)
  {
    hide OnlyHit, Droppable, OnlyResults, SameMessage, LastUserTo, LastAssistant;
    var u := LastUserTo(a, |a|);
    if 0 <= u {
      SameBefore(a[u], b[u], q);
    }
  }

  lemma SameBefore(a: Message, b: Message, q: seq<Block>)
    requires SameMessage(a, b)
    ensures |BlocksOf(a)| == |BlocksOf(b)| && OnlyHit(BlocksOf(a), q) == OnlyHit(BlocksOf(b), q)
    ensures forall x :: 0 <= x < |BlocksOf(a)| ==> Droppable(BlocksOf(a)[x]) == Droppable(BlocksOf(b)[x])
  {
    R.SameOnlyHit(BlocksOf(a), BlocksOf(b), q);
    forall x | 0 <= x < |BlocksOf(a)| ensures Droppable(BlocksOf(a)[x]) == Droppable(BlocksOf(b)[x]) {
      R.SameKinds(BlocksOf(a), BlocksOf(b), x);
    }
  }

  lemma LastUserKept(ms: seq<Message>, d: seq<Message>)
    requires |d| + 1 == |ms| && ms[|d|].role != User && forall i :: 0 <= i < |d| ==> d[i].role == ms[i].role
    ensures LastUserTo(d, |d|) == LastUserTo(ms, |ms|)
  {
    LastUserToNone(d, |d|);
    LastUserToNone(ms, |ms|);
  }

  lemma AnsweredKept(ms: seq<Message>, d: seq<Message>)
    requires |d| + 1 == |ms| && ms[|d|].role != Assistant && forall i :: 0 <= i < |d| ==> d[i].role == ms[i].role
    ensures LastAssistant(d) == LastAssistant(ms)
  {
    LastAssistantIs(d, |d|);
    LastAssistantIs(ms, |ms|);
  }

  /** A later user turn native prepended plain text to goes out beginning with the frame. */
  lemma TurnBeginsWithFrame(ms: seq<Message>, q: seq<Block>, u: nat, k: nat)
    requires Shaped(ms, q) && LastUserAt(ms, u) && AfterText(BlocksOf(ms[u]), q, k)
    requires exists i :: 0 <= i < |ms| && ms[i].role == Assistant
    requires exists x :: 0 <= x < |q| && !q[x].ToolResult?
    ensures var out := Stable(ms, q);
            && LastUserAt(out, u) && SameBlocks(BlocksOf(out[u]), BlocksOf(ms[u])[k..])
            && FrameAt(BlocksOf(out[u]), q, 0)
  {
    hide AfterText;
    RemindersIs(ms, q, k);
    LastUserFound(ms, u);
    var d, out := Dated(ms), Stable(ms, q);
    DatedReminders(ms, q);
    DatedShaped(ms, q);
    ReminderGoes(d, q);
    DatedTurn(ms, u);
    hide Stable, Dated, Reminders;
    HitIsFrameAt(BlocksOf(out[u]), q, 0);
    LastUserFound(d, u);
    LastUserFound(out, u);
    TailSame(BlocksOf(d[u]), BlocksOf(ms[u]), k);
    SameBlocksTransitive(BlocksOf(out[u]), BlocksOf(d[u])[k..], BlocksOf(ms[u])[k..]);
  }

  lemma DatedTurn(ms: seq<Message>, u: nat)
    requires LastUserAt(ms, u)
    ensures u < |Dated(ms)| && LastUserAt(Dated(ms), u) && SameBlocks(BlocksOf(Dated(ms)[u]), BlocksOf(ms[u]))
  {
    DatedRoles(ms);
    if Date(ms).Some? {
      DateMoves(ms);
    }
  }

  lemma TailSame(a: seq<Block>, b: seq<Block>, k: nat)
    requires SameBlocks(a, b) && k <= |a|
    ensures SameBlocks(a[k..], b[k..])
  {
  }

  lemma SameBlocksTransitive(a: seq<Block>, b: seq<Block>, c: seq<Block>)
    requires SameBlocks(a, b) && SameBlocks(b, c)
    ensures SameBlocks(a, c)
  {
  }

  /** The request keeps its messages, in order and by role, but for the date line's; assistants keep all they said. */
  lemma AssistantsUntouched(ms: seq<Message>, q: seq<Block>)
    ensures var out := Stable(ms, q);
            && |ms| - 1 <= |out| <= |ms| && (|out| < |ms| ==> ms[|ms| - 1].role == System)
            && (forall i :: 0 <= i < |out| ==> out[i].role == ms[i].role)
            && (forall i :: 0 <= i < |out| && ms[i].role == Assistant ==> SameMessage(out[i], ms[i]))
  {
    if Shaped(ms, q) {
      var d := Dated(ms);
      if Date(ms).Some? {
        DateMoves(ms);
      }
      DatedShaped(ms, q);
      if Reminders(d, q).Some? {
        ReminderGoes(d, q);
      }
    }
  }

  lemma DatedShaped(ms: seq<Message>, q: seq<Block>)
    requires Shaped(ms, q)
    ensures Shaped(Dated(ms), q)
    ensures forall i :: 0 <= i < |Dated(ms)| ==> Dated(ms)[i].role == ms[i].role
  {
    if Date(ms).Some? {
      var n := |ms| - 1;
      var env := FirstSystem(ms, 0, n);
      var more := "\n\n" + Date(ms).value;
      var moved := ms[..n][env := Appended(ms[env], more)];
      AppendedExpected(ms[env], more);
      forall i | 0 <= i < n ensures Expected(Dated(ms)[i]) {
        assert Expected(ms[i]);
        hide Expected;
        if i == n - 1 {
          DefaultExpected(moved[i], DateMark(ms[n]));
        }
      }
    }
  }

  lemma AppendedExpected(m: Message, s: string)
    requires Expected(m) && LastText(m).Some?
    ensures Expected(Appended(m, s))
  {
    assert forall k :: 0 <= k < |BlocksOf(m)| ==> Typed(BlocksOf(m)[k]);
  }

  lemma DefaultExpected(m: Message, mark: Option<Mark>)
    requires Expected(m)
    ensures Expected(DefaultLast(m, mark))
  {
    assert forall k :: 0 <= k < |BlocksOf(m)| ==> Typed(BlocksOf(m)[k]);
  }

  // ----- the marks -----

  /** A message's own mark, after those of its blocks. */
  function MessageMark(m: Message): List<Mark> {
    if m.mark.Some? then Cons(m.mark.value, Nil) else Nil
  }

  /** The block marks of a request in document order, and after them the last message's own. */
  function Offered(ms: seq<Message>): List<Mark> {
    AllTo(ms, |ms|, if ms == [] then Nil else MessageMark(ms[|ms| - 1]))
  }

  lemma AllMarksTo(ms: seq<Message>)
    ensures AllMarks(ms) == AllTo(ms, |ms|, Nil)
  {
    AllMeet(ms, |ms|);
  }

  /** Two requests whose messages carry the same marks. */
  lemma {:induction false} SameMarkedAllTo(a: seq<Message>, b: seq<Message>, e: nat, i: nat, rest: List<Mark>)
    requires i <= |a| && i <= |b| && forall k :: 0 <= k < i && k != e ==> a[k] == b[k]
    requires e < i ==> SameOwn(BlocksOf(a[e]), BlocksOf(b[e]))
    ensures AllTo(a, i, rest) == AllTo(b, i, rest)
  {
    if i > 0 {
      SameOwnMarks(BlocksOf(a[i - 1]), BlocksOf(b[i - 1]), 0, rest);
      SameMarkedAllTo(a, b, e, i - 1, MarksFrom(BlocksOf(b[i - 1]), 0, rest));
    }
  }

  predicate SameOwn(a: seq<Block>, b: seq<Block>) {
    |a| == |b| && forall k :: 0 <= k < |a| ==> Marked(a[k]) == Marked(b[k]) && (Marked(a[k]) ==> a[k].mark == b[k].mark)
  }

  lemma {:induction false} SameOwnMarks(a: seq<Block>, b: seq<Block>, j: nat, rest: List<Mark>)
    requires SameOwn(a, b)
    ensures MarksFrom(a, j, rest) == MarksFrom(b, j, rest)
    decreases |a| - j
  {
    if j < |a| {
      SameOwnMarks(a, b, j + 1, rest);
    }
  }

  /** A mark set by default on a last block comes from the marks after it. */
  lemma DefaultOrder(m: Message, mark: Option<Mark>, rest: List<Mark>)
    requires mark.Some? ==> Sub(Cons(mark.value, Nil), rest)
    ensures Sub(MarksFrom(BlocksOf(DefaultLast(m, mark)), 0, Nil), MarksFrom(BlocksOf(m), 0, rest))
  {
    var bs, out := BlocksOf(m), BlocksOf(DefaultLast(m, mark));
    if out == bs {
      SubFrom(bs, 0, Nil, rest);
    } else {
      var j := |bs| - 1;
      MarksMeet(bs, j, rest);
      MarksMeet(out, j, Nil);
      SameMarksTo(out, bs, j, OwnMark(out[j], Nil));
      SubTo(bs, j, OwnMark(out[j], Nil), OwnMark(bs[j], rest));
    }
  }

  /** The marks of the last message, its own included, hold the one that moves with the date line. */
  lemma DateMarkOffered(m: Message)
    ensures DateMark(m).Some? ==> Sub(Cons(DateMark(m).value, Nil), MarksFrom(BlocksOf(m), 0, MessageMark(m)))
  {
    var bs := BlocksOf(m);
    if |bs| == 1 {
      assert MarksFrom(bs, 0, MessageMark(m)) == OwnMark(bs[0], MarksFrom(bs, 1, MessageMark(m)));
    }
    if DateMark(m) == m.mark && m.mark.Some? {
      SubFrom(bs, 0, MessageMark(m), MessageMark(m));
      DroppedMarks(bs, 0, |bs|, MessageMark(m));
    }
  }

  lemma DateOrder(ms: seq<Message>)
    requires Date(ms).Some?
    ensures Sub(AllMarks(Dated(ms)), Offered(ms))
  {
    var n, out := |ms| - 1, Dated(ms);
    var env := FirstSystem(ms, 0, n);
    var moved := ms[..n][env := Appended(ms[env], "\n\n" + Date(ms).value)];
    var rest := MarksFrom(BlocksOf(ms[n]), 0, MessageMark(ms[n]));
    DateMarkOffered(ms[n]);
    DefaultOrder(moved[n - 1], DateMark(ms[n]), rest);
    AllMarksTo(out);
    var tail := MarksFrom(BlocksOf(out[n - 1]), 0, Nil);
    SameAllTo(out, moved, n - 1, tail);
    SubAllTo(moved, n - 1, tail, MarksFrom(BlocksOf(moved[n - 1]), 0, rest));
    assert Sub(AllMarks(out), AllTo(moved, n, rest));
    assert SameOwn(BlocksOf(moved[env]), BlocksOf(ms[env]));
    SameMarkedAllTo(moved, ms, env, n, rest);
  }

  lemma ReminderOrder(ms: seq<Message>, q: seq<Block>)
    ensures Sub(AllMarks(Dropped(ms, q)), AllMarks(ms))
  {
    SubSelf(AllMarks(ms));
    var out := Dropped(ms, q);
    if out != ms {
      var u := LastUserTo(ms, |ms|);
      SameAllFrom(out, ms, u + 1);
      DropOrder(BlocksOf(ms[u]), Reminders(ms, q).value, AllFrom(ms, u + 1));
      AllMeet(ms, u);
      AllMeet(out, u);
      SameAllTo(out, ms, u, AllFrom(out, u));
      SubAllTo(ms, u, AllFrom(out, u), AllFrom(ms, u));
    }
  }

  /** Marks go or stay, in native's order; none is new. */
  lemma StableOrder(ms: seq<Message>, q: seq<Block>)
    ensures Sub(AllMarks(Stable(ms, q)), Offered(ms))
  {
    AllMarksTo(ms);
    SubAllTo(ms, |ms|, Nil, if ms == [] then Nil else MessageMark(ms[|ms| - 1]));
    if Shaped(ms, q) {
      if Date(ms).Some? {
        DateOrder(ms);
      }
      ReminderOrder(Dated(ms), q);
      SubTransitive(AllMarks(Stable(ms, q)), AllMarks(Dated(ms)), Offered(ms));
    }
  }

  // ----- the count -----

  lemma {:induction false} CountPop(ms: seq<Message>, a: seq<Message>, i: nat)
    requires |ms| == |a| + 1 && i <= |a| && forall k :: 0 <= k < |a| ==> a[k] == ms[k]
    ensures MessagesCount(ms, i) == MessagesCount(a, i) + MessageCount(ms[|a|])
    decreases |a| - i
  {
    if i < |a| {
      CountPop(ms, a, i + 1);
    } else {
      assert MessagesCount(ms, i + 1) == 0;
    }
  }

  lemma {:induction false} CountSet(a: seq<Block>, b: seq<Block>, f: nat, i: nat)
    requires |a| == |b| && f < |a| && forall k :: 0 <= k < |a| && k != f ==> a[k] == b[k]
    ensures BlocksCount(a, i) == BlocksCount(b, i) + if i <= f then BlockCount(a[f]) - BlockCount(b[f]) else 0
    decreases |a| - i
  {
    if i < |a| {
      CountSet(a, b, f, i + 1);
    }
  }

  lemma AppendedCount(m: Message, s: string)
    requires LastText(m).Some?
    ensures MessageCount(Appended(m, s)) == MessageCount(m)
  {
    var bs := BlocksOf(m);
    if bs != [] {
      CountSet(BlocksOf(Appended(m, s)), bs, |bs| - 1, 0);
    }
  }

  lemma DefaultCount(m: Message, mark: Option<Mark>)
    ensures MessageCount(DefaultLast(m, mark)) <= MessageCount(m) + if mark.Some? then 1 else 0
  {
    var bs := BlocksOf(m);
    if DefaultLast(m, mark) != m {
      CountSet(BlocksOf(DefaultLast(m, mark)), bs, |bs| - 1, 0);
      SameInner(BlocksOf(DefaultLast(m, mark))[|bs| - 1], bs[|bs| - 1]);
    }
  }

  lemma DateCount(ms: seq<Message>)
    requires Date(ms).Some?
    ensures MessagesCount(Dated(ms), 0) <= MessagesCount(ms, 0)
  {
    var n := |ms| - 1;
    var env := FirstSystem(ms, 0, n);
    var moved := ms[..n][env := Appended(ms[env], "\n\n" + Date(ms).value)];
    CountPop(ms, ms[..n], 0);
    AppendedCount(ms[env], "\n\n" + Date(ms).value);
    CountSplice(moved, ms[..n], env, 0);
    DefaultCount(moved[n - 1], DateMark(ms[n]));
    CountSplice(Dated(ms), moved, n - 1, 0);
    DateMarkCounted(ms[n]);
  }

  lemma DateMarkCounted(m: Message)
    ensures DateMark(m).Some? ==> MessageCount(m) >= 1
  {
    if BlocksOf(m) != [] {
      assert BlocksCount(BlocksOf(m), 0) == BlockCount(BlocksOf(m)[0]) + BlocksCount(BlocksOf(m), 1);
    }
  }

  lemma StableCount(ms: seq<Message>, q: seq<Block>)
    ensures MessagesCount(Stable(ms, q), 0) <= MessagesCount(ms, 0)
  {
    if Shaped(ms, q) {
      var d := Dated(ms);
      if Date(ms).Some? {
        DateCount(ms);
      }
      if Dropped(d, q) != d {
        var u := LastUserTo(d, |d|);
        DropCount(BlocksOf(d[u]), Reminders(d, q).value);
        CountSplice(Dropped(d, q), d, u, 0);
      }
    }
  }

  // ----- a second time -----

  /** Native ended with two different date lines. */
  predicate TwoDates(ms: seq<Message>) {
    var n := |ms| - 1;
    && Date(ms).Some? && ms[n - 1].role == System && FirstSystem(ms, 0, n) < n - 1
    && SoleText(ms[n - 1]).Some? && DateLine(SoleText(ms[n - 1]).value) && SoleText(ms[n - 1]) != Date(ms)
  }

  lemma LineAtEnd(text: string, line: string, other: string)
    requires |line| == |other|
    ensures EndsWith(text + "\n\n" + line, other) <==> line == other
  {
    var s := text + "\n\n" + line;
    assert s[|s| - |other|..] == line;
  }

  lemma {:induction false} SameFirstSystem(a: seq<Message>, b: seq<Message>, i: nat, n: nat)
    requires i <= n <= |a| && n <= |b| && forall k :: 0 <= k < n ==> a[k].role == b[k].role
    ensures FirstSystem(a, i, n) == FirstSystem(b, i, n)
    decreases n - i
  {
    if i < n {
      SameFirstSystem(a, b, i + 1, n);
    }
  }

  lemma {:induction false} FirstSystemShort(a: seq<Message>, i: nat, n: nat, m: nat)
    requires i <= m <= n <= |a|
    ensures FirstSystem(a, i, m) == if FirstSystem(a, i, n) < m then FirstSystem(a, i, n) else m
    decreases m - i
  {
    if i < m {
      FirstSystemShort(a, i + 1, n, m);
    }
  }

  lemma ShorterFirstSystem(d: seq<Message>, ms: seq<Message>)
    requires |d| + 1 == |ms| && d != [] && forall i :: 0 <= i < |d| ==> d[i].role == ms[i].role
    ensures var n, env := |d|, FirstSystem(ms, 0, |d|);
            FirstSystem(d, 0, n - 1) == if env < n - 1 then env else n - 1
  {
    var n := |d|;
    FirstSystemShort(ms, 0, n, n - 1);
    SameFirstSystem(d, ms, 0, n - 1);
  }

  lemma DatedRoles(ms: seq<Message>)
    ensures forall i :: 0 <= i < |Dated(ms)| ==> Dated(ms)[i].role == ms[i].role
  {
  }

  lemma SecondDate(ms: seq<Message>)
    ensures Date(Dated(ms)).Some? <==> TwoDates(ms)
  {
    if Date(ms).Some? {
      var n, d := |ms| - 1, Dated(ms);
      var env := FirstSystem(ms, 0, n);
      DateMoves(ms);
      DatedRoles(ms);
      ShorterFirstSystem(d, ms);
      if env < n - 1 {
        OtherDate(d[n - 1], ms[n - 1], d[env], LastText(ms[env]).value, Date(ms).value);
      }
    }
  }

  /** An environment that took one date line takes another only if that one differs. */
  lemma OtherDate(a: Message, b: Message, env: Message, text: string, line: string)
    requires SameMessage(a, b) && DateLine(line) && LastText(env) == Some(text + "\n\n" + line)
    ensures DateFor(a, env).Some?
       <==> b.role == System && SoleText(b).Some? && DateLine(SoleText(b).value) && SoleText(b).value != line
  {
    SoleSame(a, b);
    if SoleText(b).Some? && DateLine(SoleText(b).value) {
      LineAtEnd(text, line, SoleText(b).value);
    }
  }

  lemma SoleSame(a: Message, b: Message)
    requires SameMessage(a, b)
    ensures SoleText(a) == SoleText(b)
  {
    if a.body.Blocks? && |a.body.blocks| == 1 {
      assert Plain(a.body.blocks[0]) == Plain(b.body.blocks[0]);
    }
  }

  lemma {:induction false} SameRolesUser(a: seq<Message>, b: seq<Message>, n: nat)
    requires n <= |a| == |b| && forall i :: 0 <= i < |a| ==> a[i].role == b[i].role
    ensures LastUserTo(a, n) == LastUserTo(b, n)
  {
    if n > 0 {
      SameRolesUser(a, b, n - 1);
    }
  }

  /** Reminders dropped once are not found again, and dropping them moves no date line. */
  lemma DroppedOnce(ms: seq<Message>, q: seq<Block>)
    requires Shaped(ms, q)
    ensures var out := Dropped(ms, q);
            Reminders(out, q) == None && Date(out) == Date(ms) && Shaped(out, q)
  {
    if Reminders(ms, q).Some? {
      var out, u, k := Dropped(ms, q), LastUserTo(ms, |ms|), Reminders(ms, q).value;
      ReminderGoes(ms, q);
      SameRolesUser(out, ms, |ms|);
      NotFoundAgain(BlocksOf(ms[u]), q, k, BlocksOf(out[u]));
      DateOfSystem(out, ms);
      DroppedTyped(ms[u], out[u], k);
      forall i | 0 <= i < |ms| ensures Expected(out[i]) {
        assert Expected(ms[i]);
      }
    }
  }

  lemma NotFoundAgain(c: seq<Block>, q: seq<Block>, k: nat, out: seq<Block>)
    requires k < |c| && HitAt(c, q, k) && SameBlocks(out, c[k..])
    ensures OnlyHit(out, q) == None || OnlyHit(out, q) == Some(0)
  {
    forall x | 0 <= x < |out| ensures Plain(out[x]) == Plain(c[k + x]) {
      assert Plain(out[x]) == Plain(c[k..][x]);
    }
    R.FrameAtFront(out, c, q, k);
  }

  /** Only system messages matter to the date line. */
  lemma DateOfSystem(a: seq<Message>, b: seq<Message>)
    requires |a| == |b| && forall i :: 0 <= i < |a| ==> a[i].role == b[i].role && (a[i].role == System ==> a[i] == b[i])
    ensures Date(a) == Date(b)
  {
    if |a| > 1 {
      SameFirstSystem(a, b, 0, |a| - 1);
    }
  }

  lemma DroppedTyped(m: Message, out: Message, k: nat)
    requires Expected(m) && k < |BlocksOf(m)| && SameBlocks(BlocksOf(out), BlocksOf(m)[k..])
    requires out == m.(body := Blocks(BlocksOf(out)))
    ensures Expected(out)
  {
    forall x | 0 <= x < |BlocksOf(out)| ensures Typed(BlocksOf(out)[x]) {
      assert Plain(BlocksOf(out)[x]) == Plain(BlocksOf(m)[k..][x]);
      assert Typed(BlocksOf(m)[k + x]);
    }
  }

  lemma ADateLine(date: string)
    requires |date| == 11 && date[4] == '-' && date[7] == '-' && date[10] == '.'
    requires forall k :: 0 <= k < 10 && k != 4 && k != 7 ==> Digit(date[k])
    ensures DateLine(DATE_OPENING + date)
  {
    var n, s := |DATE_OPENING|, DATE_OPENING + date;
    assert s[..n] == DATE_OPENING;
    forall k | n <= k < n + 10 && k != n + 4 && k != n + 7 ensures Digit(s[k]) {
      assert s[k] == date[k - n];
    }
  }

  /** A request that went through once goes through unchanged, unless native ended it with two different date lines. */
  lemma StableTwice(ms: seq<Message>, q: seq<Block>)
    ensures Stable(Stable(ms, q), q) == Stable(ms, q) <==> !(Shaped(ms, q) && TwoDates(ms))
  {
    if Shaped(ms, q) {
      DatedShaped(ms, q);
      SecondDate(ms);
      DroppedOnce(Dated(ms), q);
    }
  }

  /**
    A request that is not stable after one pass: the second date line follows only when the request goes through
    again.
   */
  lemma TwoDatesNotStable()
    ensures var first, second := DATE_OPENING + "2024-01-02.", DATE_OPENING + "2024-01-03.";
            var ms := [Message(System, Line("You are"), NO_REST, None), Message(System, Line(first), NO_REST, None),
                       Message(System, Line(second), NO_REST, None)];
            Shaped(ms, []) && TwoDates(ms) && Stable(Stable(ms, []), []) != Stable(ms, [])
  {
    var first, second := DATE_OPENING + "2024-01-02.", DATE_OPENING + "2024-01-03.";
    var ms := [Message(System, Line("You are"), NO_REST, None), Message(System, Line(first), NO_REST, None),
               Message(System, Line(second), NO_REST, None)];
    ADateLine("2024-01-02.");
    ADateLine("2024-01-03.");
    assert first[|first| - 2] != second[|second| - 2];
    assert FirstSystem(ms, 0, 2) == 0;
    assert SoleText(ms[2]) == Some(second) && LastText(ms[0]) == Some("You are");
    StableTwice(ms, []);
  }

  // ----- the whole rewrite -----

  /** Both transforms together add at most one mark to the body, and none beyond Anthropic's four. */
  lemma RewriteBudget(ms: seq<Message>, outside: nat, q: seq<Block>)
    ensures var before := MessagesCount(ms, 0) + outside;
            var after := MessagesCount(Pin(Stable(ms, q), outside, q), 0) + outside;
            after <= before + 1 && (after <= before || after <= MAX_BREAKPOINTS)
  {
    StableCount(ms, q);
    PinBudget(Stable(ms, q), outside, q);
  }

  /** Both together keep any order of TTLs native's marks had. */
  lemma RewriteKeepsTtlOrder(ms: seq<Message>, outside: nat, q: seq<Block>, leq: (Mark, Mark) -> bool)
    requires Sorted(Offered(ms), leq) && forall x :: leq(x, x)
    ensures Sorted(AllMarks(Pin(Stable(ms, q), outside, q)), leq)
  {
    StableOrder(ms, q);
    SubSorted(AllMarks(Stable(ms, q)), Offered(ms), leq);
    PinKeepsTtlOrder(Stable(ms, q), outside, q, leq);
  }
}
