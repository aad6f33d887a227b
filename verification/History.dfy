/** `prepare_history`: the host's messages as native frames. */
module History {
  import opened Basics

  // ----- host messages -----

  /**
    A content block as it goes to native. `Written` is a text block made of a string, `Copied` any block passed on,
    `result` the content of a tool result.
   */
  datatype Piece =
    | Written(line: string)
    | Copied(json: string)
    | ToolUse(id: string, name: string, input: string)
    | Result(id: string, result: seq<Piece>, text: Option<string>, isError: Option<bool>)

  /** `content` of a message; a list element is None when it is of an unsupported kind. */
  datatype Text = Absent | Line(text: string) | Pieces(pieces: seq<Option<Piece>>)

  /** `input` is None when the arguments do not parse. */
  datatype Call = Call(id: string, name: string, input: Option<string>)

  /** What the user sees of an assistant message. */
  datatype Projection = Projection(content: string, calls: seq<Call>)

  /** A native message, and its `usage`, which is local. */
  datatype Native = Native(json: string, usage: Option<string>)

  datatype Carrier = Carrier(version: int, projection: Projection, messages: seq<Native>)

  datatype Message =
    | System(text: Option<string>)
    | Assistant(content: Text, calls: seq<Call>, carriers: seq<Carrier>)
    | Tool(id: string, content: Text, isError: Option<bool>)
    | User(content: Text)
    | OtherRole

  datatype Frame = UserFrame(pieces: seq<Piece>) | AssistantFrame(pieces: seq<Piece>) | Replayed(native: Native)

  // ----- one message -----

  /** The blocks among the first `n`; None when one of them is unsupported. */
  function Known(pieces: seq<Option<Piece>>, n: nat): Option<seq<Piece>>
    requires n <= |pieces|
  {
    if n == 0 then Some([])
    else
      var before := Known(pieces, n - 1);
      if before.None? || pieces[n - 1].None? then None else Some(before.value + [pieces[n - 1].value])
  }

  /** `content_blocks` */
  function ContentBlocks(c: Text): Option<seq<Piece>> {
    match c
    case Absent => Some([])
    case Line(t) => Some(if t == "" then [] else [Written(t)])
    case Pieces(ps) => Known(ps, |ps|)
  }

  /** `str.strip` */
  function Strip(s: string): (r: string)
    decreases |s|
    ensures |r| <= |s|
  {
    if s == "" then ""
    else if Space(s[0]) then Strip(s[1..])
    else if Space(s[|s| - 1]) then Strip(s[..|s| - 1])
    else s
  }

  lemma {:induction false} StripOnce(s: string)
    ensures Strip(Strip(s)) == Strip(s)
    decreases |s|
  {
    if s != "" {
      if Space(s[0]) {
        StripOnce(s[1..]);
      } else if Space(s[|s| - 1]) {
        StripOnce(s[..|s| - 1]);
      }
    }
  }

  /** `projection`; None when it raises. */
  function ProjectionOf(content: Text, calls: seq<Call>): Option<Projection> {
    if exists k :: 0 <= k < |calls| && calls[k].input.None? then None
    else
      match content
      case Absent => Some(Projection("", calls))
      case Line(t) => Some(Projection(Strip(t), calls))
      case Pieces(ps) => if ps == [] then Some(Projection("", calls)) else None
  }

  /** The frames of a carrier's messages, their usage left behind. */
  function Replay(messages: seq<Native>): (r: seq<Frame>)
    ensures |r| == |messages|
  {
    seq(|messages|, k requires 0 <= k < |messages| => Replayed(messages[k].(usage := None)))
  }

  function Uses(calls: seq<Call>, wire: string -> string): (r: seq<Piece>)
    requires forall k :: 0 <= k < |calls| ==> calls[k].input.Some?
    ensures |r| == |calls|
  {
    seq(|calls|, k requires 0 <= k < |calls| => ToolUse(calls[k].id, wire(calls[k].name), calls[k].input.value))
  }

  /** What an assistant message becomes when it is not replayed. */
  function Visible(content: Text, calls: seq<Call>, wire: string -> string): Option<seq<Frame>> {
    match ContentBlocks(content)
    case None => None
    case Some(blocks) =>
      if ProjectionOf(content, calls).None? then None else Some([AssistantFrame(blocks + Uses(calls, wire))])
  }

  /** The frames one message asks for; None when it raises. `wire` is the name a tool goes by natively. */
  function FramesOf(m: Message, wire: string -> string): Option<seq<Frame>> {
    match m
    case System(text) => if text.None? then None else Some([])
    case OtherRole => None
    case User(content) =>
      (match ContentBlocks(content) case None => None case Some(blocks) => Some([UserFrame(blocks)]))
    case Tool(id, content, isError) =>
      if content.Line? then Some([UserFrame([Result(id, [], Some(content.text), isError)])])
      else
        (match ContentBlocks(content)
         case None => None
         case Some(blocks) => Some([UserFrame([Result(id, blocks, None, isError)])]))
    case Assistant(content, calls, carriers) =>
      if carriers == [] then Visible(content, calls, wire)
      else if |carriers| != 1 || carriers[0].version != 1 || ProjectionOf(content, calls).None? then None
      else
        var saved := carriers[0].projection;
        if ProjectionOf(content, calls).value == saved.(content := Strip(saved.content))
            then Some(Replay(carriers[0].messages))
        else Visible(content, calls, wire)
  }

  // ----- what one message asks for -----

  /** The blocks a message's content is: none, its text if it has one, or each element if all are supported. */
  ghost predicate Reads(c: Text, blocks: seq<Piece>) {
    match c
    case Absent => blocks == []
    case Line(t) => if t == "" then blocks == [] else blocks == [Written(t)]
    case Pieces(ps) => |blocks| == |ps| && forall k :: 0 <= k < |ps| ==> ps[k] == Some(blocks[k])
  }

  lemma {:induction false} KnownIs(pieces: seq<Option<Piece>>, n: nat)
    requires n <= |pieces|
    ensures Known(pieces, n).None? <==> exists k :: 0 <= k < n && pieces[k].None?
    ensures Known(pieces, n).Some? ==>
              |Known(pieces, n).value| == n && forall k :: 0 <= k < n ==> pieces[k] == Some(Known(pieces, n).value[k])
  {
    if n > 0 {
      KnownIs(pieces, n - 1);
    }
  }

  lemma ContentIs(c: Text, blocks: seq<Piece>)
    ensures ContentBlocks(c) == Some(blocks) <==> Reads(c, blocks)
    ensures ContentBlocks(c).None? <==> c.Pieces? && None in c.pieces
  {
    if c.Pieces? {
      KnownIs(c.pieces, |c.pieces|);
      if Reads(c, blocks) && Known(c.pieces, |c.pieces|).Some? {
        assert Known(c.pieces, |c.pieces|).value == blocks;
      }
    }
  }

  /** A user's message is one user frame with its content. */
  lemma UserAsks(content: Text, wire: string -> string, frames: seq<Frame>)
    ensures FramesOf(User(content), wire) == Some(frames)
       <==> |frames| == 1 && frames[0].UserFrame? && Reads(content, frames[0].pieces)
    ensures FramesOf(User(content), wire).None? <==> content.Pieces? && None in content.pieces
  {
    if |frames| == 1 && frames[0].UserFrame? {
      ContentIs(content, frames[0].pieces);
      assert frames == [UserFrame(frames[0].pieces)];
    }
    ContentIs(content, []);
  }

  /** A tool's message is one user frame with its result: for the call it names, a text kept as one, its error flag. */
  lemma ToolAsks(id: string, content: Text, isError: Option<bool>, wire: string -> string, result: Piece)
    ensures FramesOf(Tool(id, content, isError), wire) == Some([UserFrame([result])])
       <==> && result.Result? && result.id == id && result.isError == isError
            && if content.Line? then result.text == Some(content.text) && result.result == []
               else result.text.None? && Reads(content, result.result)
    ensures FramesOf(Tool(id, content, isError), wire).None? <==> content.Pieces? && None in content.pieces
  {
    if result.Result? {
      ContentIs(content, result.result);
    }
    ContentIs(content, []);
    if FramesOf(Tool(id, content, isError), wire) == Some([UserFrame([result])]) {
      var f := FramesOf(Tool(id, content, isError), wire).value[0];
      assert f.pieces[0] == result;
    }
  }

  /**
    An assistant's message that replays nothing is one frame with its content, then a use for each of its calls: the
    call's id, the name native knows its tool by, its arguments. It raises when a block is unsupported, the arguments of
    a call do not parse, or its content is a list that is not empty.
   */
  lemma VisibleIs(content: Text, calls: seq<Call>, wire: string -> string)
    ensures Visible(content, calls, wire).None?
       <==> (content.Pieces? && content.pieces != []) || exists k :: 0 <= k < |calls| && calls[k].input.None?
    ensures Visible(content, calls, wire).Some? ==>
              var frames := Visible(content, calls, wire).value;
              && |frames| == 1 && frames[0].AssistantFrame? && |frames[0].pieces| >= |calls|
              && var at := |frames[0].pieces| - |calls|;
                 && Reads(content, frames[0].pieces[..at])
                 && forall k :: 0 <= k < |calls| ==>
                      frames[0].pieces[at + k] == ToolUse(calls[k].id, wire(calls[k].name), calls[k].input.value)
  {
    hide ContentBlocks, Reads, Known;
    ContentIs(content, []);
    VisibleRaises(content, calls, wire);
    if Visible(content, calls, wire).Some? {
      var blocks, uses := ContentBlocks(content).value, Uses(calls, wire);
      ContentIs(content, blocks);
      hide ProjectionOf;
      assert (blocks + uses)[..|blocks|] == blocks;
    }
  }

  lemma VisibleRaises(content: Text, calls: seq<Call>, wire: string -> string)
    ensures Visible(content, calls, wire).None?
       <==> (content.Pieces? && content.pieces != []) || exists k :: 0 <= k < |calls| && calls[k].input.None?
  {
    hide Uses;
    ContentIs(content, []);
  }

  /** An assistant's message raises with two carriers or one of another version, whatever else it holds. */
  lemma CarriersRaise(content: Text, calls: seq<Call>, carriers: seq<Carrier>, wire: string -> string)
    requires |carriers| > 1 || (|carriers| == 1 && carriers[0].version != 1)
    ensures FramesOf(Message.Assistant(content, calls, carriers), wire).None?
  {
  }

  lemma WithoutCarrier(content: Text, calls: seq<Call>, wire: string -> string)
    ensures FramesOf(Message.Assistant(content, calls, []), wire) == Visible(content, calls, wire)
    ensures FramesOf(OtherRole, wire).None?
  {
  }

  /** `r` is `s` from `i` to `j`, all around it is white space, and it neither begins nor ends with any. */
  ghost predicate StripsAt(s: string, r: string, i: nat, j: nat) {
    && i <= j <= |s| && r == s[i..j] && (r != "" ==> !Space(r[0]) && !Space(r[|r| - 1]))
    && (forall k :: 0 <= k < i ==> Space(s[k])) && (forall k :: j <= k < |s| ==> Space(s[k]))
  }

  ghost predicate StripsTo(s: string, r: string) {
    exists i: nat, j: nat :: StripsAt(s, r, i, j)
  }

  lemma StripsLeft(s: string, t: string, r: string, i: nat, j: nat)
    requires s != "" && Space(s[0]) && t == s[1..] && StripsAt(t, r, i, j)
    ensures StripsAt(s, r, i + 1, j + 1)
  {
    hide Space;
    assert s[i + 1..j + 1] == t[i..j];
    forall k | 0 <= k < i + 1 ensures Space(s[k]) {
      assert k > 0 ==> s[k] == t[k - 1];
    }
    forall k | j + 1 <= k < |s| ensures Space(s[k]) {
      assert s[k] == t[k - 1];
    }
  }

  lemma StripsRight(s: string, t: string, r: string, i: nat, j: nat)
    requires s != "" && Space(s[|s| - 1]) && t == s[..|s| - 1] && StripsAt(t, r, i, j)
    ensures StripsAt(s, r, i, j)
  {
    hide Space;
    assert s[i..j] == t[i..j];
    forall k | j <= k < |s| ensures Space(s[k]) {
      assert k < |t| ==> s[k] == t[k];
    }
  }

  /** `Strip` takes exactly the white space at both ends. */
  lemma {:induction false} StripIs(s: string)
    ensures StripsTo(s, Strip(s))
    decreases |s|
  {
    if s != "" && Space(s[0]) {
      StripIs(s[1..]);
      var i: nat, j: nat :| StripsAt(s[1..], Strip(s[1..]), i, j);
      StripsLeft(s, s[1..], Strip(s), i, j);
    } else if s != "" && Space(s[|s| - 1]) {
      StripIs(s[..|s| - 1]);
      var i: nat, j: nat :| StripsAt(s[..|s| - 1], Strip(s[..|s| - 1]), i, j);
      StripsRight(s, s[..|s| - 1], Strip(s), i, j);
    } else {
      assert StripsAt(s, s, 0, |s|);
    }
  }

  // ----- all of them -----

  datatype Built = Built(system: seq<string>, frames: seq<Frame>)

  const NOTHING := Built([], [])

  /** A user frame joins the user frame before it. */
  function Joined(frames: seq<Frame>, more: seq<Frame>): seq<Frame> {
    if |more| == 1 && more[0].UserFrame? && frames != [] && frames[|frames| - 1].UserFrame? then
      frames[|frames| - 1 := UserFrame(frames[|frames| - 1].pieces + more[0].pieces)]
    else frames + more
  }

  function Add(b: Built, m: Message, wire: string -> string): Option<Built> {
    match FramesOf(m, wire)
    case None => None
    case Some(more) =>
      if m.System? then if b.frames != [] then None else Some(b.(system := b.system + [m.text.value]))
      else Some(b.(frames := Joined(b.frames, more)))
  }

  /** The first `n` messages after `start`. */
  function Build(start: Built, ms: seq<Message>, n: nat, wire: string -> string): Option<Built>
    requires n <= |ms|
  {
    if n == 0 then Some(start)
    else
      match Build(start, ms, n - 1, wire)
      case None => None
      case Some(b) => Add(b, ms[n - 1], wire)
  }

  predicate EndsInUser(frames: seq<Frame>) {
    frames != [] && frames[|frames| - 1].UserFrame? && frames[|frames| - 1].pieces != []
  }

  /** `prepare_history`; the system texts are joined by blank lines afterwards. */
  function Prepared(ms: seq<Message>, wire: string -> string): Option<Built> {
    match Build(NOTHING, ms, |ms|, wire)
    case None => None
    case Some(b) => if EndsInUser(b.frames) then Some(b) else None
  }

  // ----- nothing is lost or moved -----

  /** A history read item by item: every user block on its own, every assistant frame whole. */
  datatype Item = UserItem(piece: Piece) | TurnItem(frame: Frame)

  function UserItems(pieces: seq<Piece>): (r: seq<Item>)
    ensures |r| == |pieces|
  {
    seq(|pieces|, k requires 0 <= k < |pieces| => UserItem(pieces[k]))
  }

  function ItemsOf(f: Frame): seq<Item> {
    if f.UserFrame? then UserItems(f.pieces) else [TurnItem(f)]
  }

  function Items(frames: seq<Frame>, n: nat): seq<Item>
    requires n <= |frames|
  {
    if n == 0 then [] else Items(frames, n - 1) + ItemsOf(frames[n - 1])
  }

  /** The items the first `n` messages ask for, one message after the other. */
  function Asked(ms: seq<Message>, n: nat, wire: string -> string): seq<Item>
    requires n <= |ms|
  {
    if n == 0 then []
    else
      Asked(ms, n - 1, wire)
      + match FramesOf(ms[n - 1], wire) case None => [] case Some(more) => Items(more, |more|)
  }

  ghost predicate NoTwoUsers(frames: seq<Frame>) {
    forall k :: 0 < k < |frames| ==> !(frames[k - 1].UserFrame? && frames[k].UserFrame?)
  }

  lemma {:induction false} ItemsAppend(a: seq<Frame>, b: seq<Frame>, n: nat)
    requires n <= |b|
    ensures Items(a + b, |a| + n) == Items(a, |a|) + Items(b, n)
  {
    if n == 0 {
      ItemsSame(a + b, a, |a|);
    } else {
      ItemsAppend(a, b, n - 1);
      assert (a + b)[|a| + n - 1] == b[n - 1];
    }
  }

  lemma {:induction false} ItemsSame(a: seq<Frame>, b: seq<Frame>, n: nat)
    requires n <= |a| && n <= |b| && forall k :: 0 <= k < n ==> a[k] == b[k]
    ensures Items(a, n) == Items(b, n)
  {
    if n > 0 {
      ItemsSame(a, b, n - 1);
    }
  }

  lemma OneUser(more: seq<Frame>)
    requires |more| == 1 && more[0].UserFrame?
    ensures Items(more, 1) == UserItems(more[0].pieces)
  {
    assert Items(more, 0) == [] && [] + UserItems(more[0].pieces) == UserItems(more[0].pieces);
  }

  lemma UserItemsAppend(a: seq<Piece>, b: seq<Piece>)
    ensures UserItems(a + b) == UserItems(a) + UserItems(b)
  {
  }

  lemma JoinedItems(frames: seq<Frame>, more: seq<Frame>)
    ensures Items(Joined(frames, more), |Joined(frames, more)|) == Items(frames, |frames|) + Items(more, |more|)
  {
    hide Items, UserItems;
    if |more| == 1 && more[0].UserFrame? && frames != [] && frames[|frames| - 1].UserFrame? {
      OneUser(more);
      MergedItems(frames, |frames| - 1, frames[|frames| - 1].pieces, more[0].pieces);
    } else {
      ItemsAppend(frames, more, |more|);
    }
  }

  lemma MergedItems(frames: seq<Frame>, last: nat, a: seq<Piece>, b: seq<Piece>)
    requires |frames| == last + 1 && frames[last] == UserFrame(a)
    ensures Items(frames[last := UserFrame(a + b)], last + 1) == Items(frames, last + 1) + UserItems(b)
  {
    hide UserItems;
    var out, x := frames[last := UserFrame(a + b)], Items(frames, last);
    ItemsSame(out, frames, last);
    UserItemsAppend(a, b);
    SeqAssoc(x, UserItems(a), UserItems(b));
    assert Items(out, last + 1) == Items(out, last) + UserItems(a + b);
  }

  lemma SeqAssoc<T>(a: seq<T>, b: seq<T>, c: seq<T>)
    ensures a + (b + c) == a + b + c
  {
  }

  lemma FramesOfShape(m: Message, wire: string -> string)
    requires FramesOf(m, wire).Some?
    ensures var more := FramesOf(m, wire).value;
            (|more| == 1 && more[0].UserFrame?) || forall k :: 0 <= k < |more| ==> !more[k].UserFrame?
  {
  }

  /**
    The frames hold exactly the items the messages ask for, in their order: user and tool blocks are only regrouped.
    No user frame follows another.
   */
  lemma {:induction false} OnlyRegrouped(ms: seq<Message>, n: nat, wire: string -> string)
    requires n <= |ms| && Build(NOTHING, ms, n, wire).Some?
    ensures var frames := Build(NOTHING, ms, n, wire).value.frames;
            Items(frames, |frames|) == Asked(ms, n, wire) && NoTwoUsers(frames)
  {
    hide FramesOf, Joined, NoTwoUsers, ItemsOf, Items;
    NothingAsked();
    if n > 0 {
      OnlyRegrouped(ms, n - 1, wire);
      var before, more := Build(NOTHING, ms, n - 1, wire).value.frames, FramesOf(ms[n - 1], wire).value;
      if ms[n - 1].System? {
        SystemFrames(ms[n - 1], wire);
      } else {
        FramesOfShape(ms[n - 1], wire);
        JoinedItems(before, more);
        JoinedApart(before, more);
      }
    }
  }

  lemma NothingAsked()
    ensures Items([], 0) == [] && NoTwoUsers([])
  {
  }

  lemma JoinedApart(frames: seq<Frame>, more: seq<Frame>)
    requires NoTwoUsers(frames)
    requires (|more| == 1 && more[0].UserFrame?) || forall k :: 0 <= k < |more| ==> !more[k].UserFrame?
    ensures NoTwoUsers(Joined(frames, more))
  {
    var out := Joined(frames, more);
    forall k | 0 < k < |out| ensures !(out[k - 1].UserFrame? && out[k].UserFrame?) {
      if k < |frames| {
        assert !(frames[k - 1].UserFrame? && frames[k].UserFrame?);
      }
    }
  }

  // ----- when a history is refused -----

  /** No system message after one that left frames. */
  ghost predicate SystemFirst(ms: seq<Message>, n: nat, wire: string -> string)
    requires n <= |ms|
  {
    forall i, j :: 0 <= i < j < n && ms[j].System? ==> FramesOf(ms[i], wire) == Some([])
  }

  /** Nothing but system texts so far, and messages that left nothing. */
  ghost predicate NothingLeft(ms: seq<Message>, n: nat, wire: string -> string)
    requires n <= |ms|
  {
    forall i :: 0 <= i < n ==> FramesOf(ms[i], wire) == Some([])
  }

  lemma {:induction false} BuildIs(ms: seq<Message>, n: nat, wire: string -> string)
    requires n <= |ms|
    ensures Build(NOTHING, ms, n, wire).Some?
       <==> (forall i :: 0 <= i < n ==> FramesOf(ms[i], wire).Some?) && SystemFirst(ms, n, wire)
    ensures Build(NOTHING, ms, n, wire).Some? ==>
              (Build(NOTHING, ms, n, wire).value.frames == [] <==> NothingLeft(ms, n, wire))
  {
    hide FramesOf;
    if n > 0 {
      BuildIs(ms, n - 1, wire);
      SystemFrames(ms[n - 1], wire);
    }
  }

  lemma SystemFrames(m: Message, wire: string -> string)
    ensures m.System? && FramesOf(m, wire).Some? ==> FramesOf(m, wire) == Some([])
  {
  }

  lemma EndItem(frames: seq<Frame>)
    requires NoTwoUsers(frames)
    ensures var items := Items(frames, |frames|);
            EndsInUser(frames) <==> items != [] && items[|items| - 1].UserItem?
  {
    if frames != [] {
      var n := |frames|;
      var last := frames[n - 1];
      assert Items(frames, n) == Items(frames, n - 1) + ItemsOf(last);
      if last.UserFrame? && last.pieces == [] && n > 1 {
        assert !frames[n - 2].UserFrame?;
        assert Items(frames, n - 1) == Items(frames, n - 2) + [TurnItem(frames[n - 2])];
      }
    }
  }

  /**
    A history is prepared exactly when every message can be read, none of the system's comes after one that left frames,
    and the last thing asked for is the user's or a tool's.
   */
  lemma PreparedIs(ms: seq<Message>, wire: string -> string, asked: seq<Item>)
    requires asked == Asked(ms, |ms|, wire)
    ensures Prepared(ms, wire).Some?
       <==> && (forall i :: 0 <= i < |ms| ==> FramesOf(ms[i], wire).Some?) && SystemFirst(ms, |ms|, wire)
            && asked != [] && asked[|asked| - 1].UserItem?
  {
    hide FramesOf, EndsInUser, Build, Asked, Items;
    BuildIs(ms, |ms|, wire);
    if Build(NOTHING, ms, |ms|, wire).Some? {
      OnlyRegrouped(ms, |ms|, wire);
      EndItem(Build(NOTHING, ms, |ms|, wire).value.frames);
    }
  }

  /** The texts of the first `n` messages that are the system's, in order. */
  function SystemTexts(ms: seq<Message>, n: nat): seq<string>
    requires n <= |ms|
  {
    if n == 0 then []
    else SystemTexts(ms, n - 1) + if ms[n - 1].System? && ms[n - 1].text.Some? then [ms[n - 1].text.value] else []
  }

  lemma {:induction false} SystemKept(ms: seq<Message>, n: nat, wire: string -> string)
    requires n <= |ms| && Build(NOTHING, ms, n, wire).Some?
    ensures Build(NOTHING, ms, n, wire).value.system == SystemTexts(ms, n)
  {
    if n > 0 {
      SystemKept(ms, n - 1, wire);
      SystemText(ms[n - 1], wire);
      hide FramesOf;
    }
  }

  // ----- histories grow at the end -----

  /** An assistant message that produces a frame. */
  predicate Speaks(m: Message, wire: string -> string) {
    m.Assistant? && (FramesOf(m, wire).Some? ==> FramesOf(m, wire).value != [])
  }

  lemma JoinedAfter(a: seq<Frame>, b: seq<Frame>, more: seq<Frame>)
    requires b != []
    ensures Joined(a + b, more) == a + Joined(b, more)
  {
  }

  /** What comes after a speaking assistant message does not look at what came before it. */
  lemma {:induction false} BuildAfter(start: Built, ms: seq<Message>, n: nat, wire: string -> string)
    requires 0 < n <= |ms| && Speaks(ms[0], wire)
    ensures Build(start, ms, n, wire)
         == match Build(NOTHING, ms, n, wire)
            case None => None
            case Some(b) => Some(Built(start.system, start.frames + b.frames))
    ensures Build(NOTHING, ms, n, wire).Some? ==>
              Build(NOTHING, ms, n, wire).value.system == [] && Build(NOTHING, ms, n, wire).value.frames != []
  {
    if n == 1 {
      assert Build(start, ms, 0, wire) == Some(start) && Build(NOTHING, ms, 0, wire) == Some(NOTHING);
      if FramesOf(ms[0], wire).Some? {
        var more := FramesOf(ms[0], wire).value;
        FramesOfShape(ms[0], wire);
        AssistantFrames(ms[0], wire);
        assert [] + more == more;
      }
    } else {
      BuildAfter(start, ms, n - 1, wire);
      if Build(NOTHING, ms, n - 1, wire).Some? && FramesOf(ms[n - 1], wire).Some? {
        JoinedAfter(start.frames, Build(NOTHING, ms, n - 1, wire).value.frames, FramesOf(ms[n - 1], wire).value);
      }
    }
  }

  lemma AssistantFrames(m: Message, wire: string -> string)
    requires m.Assistant? && FramesOf(m, wire).Some?
    ensures forall k :: 0 <= k < |FramesOf(m, wire).value| ==> !FramesOf(m, wire).value[k].UserFrame?
  {
  }

  lemma {:induction false} BuildSplit(a: seq<Message>, b: seq<Message>, n: nat, wire: string -> string)
    requires n <= |b|
    ensures Build(NOTHING, a + b, |a| + n, wire)
         == match Build(NOTHING, a, |a|, wire) case None => None case Some(mid) => Build(mid, b, n, wire)
  {
    hide Add;
    if n == 0 {
      BuildSame(a + b, a, |a|, wire);
    } else {
      BuildSplit(a, b, n - 1, wire);
      assert (a + b)[|a| + n - 1] == b[n - 1];
    }
  }

  lemma {:induction false} BuildSame(a: seq<Message>, b: seq<Message>, n: nat, wire: string -> string)
    requires n <= |a| && n <= |b| && forall k :: 0 <= k < n ==> a[k] == b[k]
    ensures Build(NOTHING, a, n, wire) == Build(NOTHING, b, n, wire)
  {
    hide Add;
    if n > 0 {
      BuildSame(a, b, n - 1, wire);
    }
  }

  /** `conversation_session_id`: a digest of the system texts and the first frame. */
  function SessionId(digest: (seq<string>, Option<Frame>) -> string, b: Built): string {
    digest(b.system, if b.frames == [] then None else Some(b.frames[0]))
  }

  /**
    A conversation that goes on with a speaking assistant message keeps every frame it had and the session id: the new
    frames are simply appended.
   */
  lemma GoesOn(a: seq<Message>, b: seq<Message>, wire: string -> string, digest: (seq<string>, Option<Frame>) -> string)
    requires Build(NOTHING, a, |a|, wire).Some? && b != [] && Speaks(b[0], wire)
    ensures var was, now := Build(NOTHING, a, |a|, wire).value, Build(NOTHING, a + b, |a + b|, wire);
            && (now.Some? <==> Build(NOTHING, b, |b|, wire).Some?)
            && (now.Some? ==>
                  && now.value == Built(was.system, was.frames + Build(NOTHING, b, |b|, wire).value.frames)
                  && (was.frames != [] ==> SessionId(digest, now.value) == SessionId(digest, was)))
  {
    hide Build;
    hide FramesOf;
    BuildSplit(a, b, |b|, wire);
    BuildAfter(Build(NOTHING, a, |a|, wire).value, b, |b|, wire);
  }

  // ----- carriers -----

  /** The host's message for a native turn, as the stream's end writes it. */
  function Carried(content: Text, calls: seq<Call>, messages: seq<Native>): Option<Message> {
    match ProjectionOf(content, calls)
    case None => None
    case Some(p) => Some(Message.Assistant(content, calls, [Carrier(1, p, messages)]))
  }

  /** A turn the host did not edit replays exactly the native messages that made it, minus their usage. */
  lemma UneditedReplays(content: Text, calls: seq<Call>, messages: seq<Native>, wire: string -> string)
    requires Carried(content, calls, messages).Some?
    ensures var frames := FramesOf(Carried(content, calls, messages).value, wire);
            && frames == Some(Replay(messages)) && |frames.value| == |messages|
            && forall k :: 0 <= k < |messages| ==> frames.value[k] == Replayed(Native(messages[k].json, None))
  {
    if content.Line? {
      StripOnce(content.text);
    }
    assert Strip("") == "";
  }

  /** A visible edit, of the text beyond outer blanks or of a call, replays none of them. */
  lemma EditedIsNotReplayed(
      content: Text, calls: seq<Call>, messages: seq<Native>, content': Text, calls': seq<Call>, wire: string -> string)
    requires Carried(content, calls, messages).Some? && ProjectionOf(content', calls').Some?
    requires ProjectionOf(content', calls') != ProjectionOf(content, calls)
    ensures FramesOf(Carried(content, calls, messages).value.(content := content', calls := calls'), wire)
         == Visible(content', calls', wire)
  {
    if content.Line? {
      StripOnce(content.text);
    }
    assert Strip("") == "";
  }

  // ----- as the transport runs it -----

  method PrepareHistory(ms: seq<Message>, wire: string -> string) returns (r: Option<Built>)
    ensures r == Prepared(ms, wire)
  {
    hide EndsInUser;
    hide FramesOf;
    hide Build;
    NothingBuilt(ms, wire);
    var system: seq<string>, frames: seq<Frame> := [], [];
    var n := 0;
    while n < |ms|
      invariant n <= |ms| && Build(NOTHING, ms, n, wire) == Some(Built(system, frames))
    {
      var m := ms[n];
      var more := FramesOf(m, wire);
      SystemText(m, wire);
      BuildNext(ms, n, wire, Built(system, frames));
      if more.None? || (m.System? && frames != []) {
        BuildFails(ms, n + 1, |ms|, wire);
        return None;
      }
      if m.System? {
        system := system + [m.text.value];
      } else if |more.value| == 1 && more.value[0].UserFrame? && frames != [] && frames[|frames| - 1].UserFrame? {
        var last := frames[|frames| - 1];
        frames := frames[|frames| - 1 := UserFrame(last.pieces + more.value[0].pieces)];
      } else {
        frames := frames + more.value;
      }
      n := n + 1;
    }
    return if EndsInUser(frames) then Some(Built(system, frames)) else None;
  }

  lemma NothingBuilt(ms: seq<Message>, wire: string -> string)
    ensures Build(NOTHING, ms, 0, wire) == Some(NOTHING)
  {
  }

  lemma BuildNext(ms: seq<Message>, n: nat, wire: string -> string, b: Built)
    requires n < |ms| && Build(NOTHING, ms, n, wire) == Some(b)
    ensures Build(NOTHING, ms, n + 1, wire) == Add(b, ms[n], wire)
  {
    hide Add;
  }

  lemma SystemText(m: Message, wire: string -> string)
    ensures m.System? && FramesOf(m, wire).Some? ==> m.text.Some?
  {
  }

  lemma {:induction false} BuildFails(ms: seq<Message>, n: nat, m: nat, wire: string -> string)
    requires n <= m <= |ms| && Build(NOTHING, ms, n, wire).None?
    ensures Build(NOTHING, ms, m, wire).None?
    decreases m
  {
    hide Add;
    if n < m {
      BuildFails(ms, n, m - 1, wire);
    }
  }
}
