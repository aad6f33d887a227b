/** The parts of a native Messages request that the relay's transforms look at. */
module Wire {
  import opened Basics

  /** The value of one `cache_control` key. `Null` is JSON null: the key is there, the value is not usable. */
  datatype Mark = Null | Ttl(ttl: string)

  /** Every key of an object that no transform reads, and how many `cache_control` keys sit inside them. */
  datatype Rest = Rest(json: string, marks: nat)

  const NO_REST := Rest("", 0)

  /** `is_error` of a tool result: missing, a boolean, or any other JSON value. */
  datatype Flag = NoFlag | Bool(value: bool) | Invalid(json: string)

  /** `content` of a tool result. */
  datatype Content = NoContent | Str(text: string) | Parts(blocks: seq<Block>) | Odd(rest: Rest)

  /**
    One element of a content list.
    `Loose` is anything but an object. `Text` is a block of type "text" whose text is a string.
    `ToolResult` keeps `tool_use_id` in `id` when it is a string and in `rest` otherwise.
    `NoText` is an object of type "text" with no key but type, text and mark, whose text is missing or no string.
    `Other` is every remaining object, with its type when that is a string.
   */
  datatype Block =
    | Loose(rest: Rest)
    | Text(text: string, rest: Rest, mark: Option<Mark>)
    | ToolResult(id: Option<string>, isError: Flag, content: Content, rest: Rest, mark: Option<Mark>)
    | NoText(rest: Rest, mark: Option<Mark>)
    | Other(kind: Option<string>, rest: Rest, mark: Option<Mark>)

  predicate Marked(b: Block) {
    !b.Loose? && b.mark.Some?
  }

  function WithMark(b: Block, m: Option<Mark>): Block {
    if b.Loose? then b else b.(mark := m)
  }

  /** The block without its own `cache_control`; nested ones stay. */
  function Plain(b: Block): Block {
    WithMark(b, None)
  }

  /** The same blocks apart from their own marks. */
  predicate SameBlocks(a: seq<Block>, b: seq<Block>) {
    |a| == |b| && forall k :: 0 <= k < |a| ==> Plain(a[k]) == Plain(b[k])
  }

  /** Nothing but a type, a text and perhaps a mark. */
  predicate Soft(b: Block) {
    b.Text? && b.rest == NO_REST
  }

  /** A block with nothing but its type and its text. */
  predicate Bare(b: Block) {
    Soft(b) && b.mark.None?
  }

  function Own(b: Block): nat {
    if Marked(b) then 1 else 0
  }

  /** Every `cache_control` of a block, its nested ones included. */
  function BlockCount(b: Block): nat
    decreases b, 0
  {
    Own(b) + b.rest.marks + if b.ToolResult? then ContentCount(b.content) else 0
  }

  function ContentCount(c: Content): nat
    decreases c, 0
  {
    match c
    case NoContent => 0
    case Str(_) => 0
    case Parts(bs) => BlocksCount(bs, 0)
    case Odd(rest) => rest.marks
  }

  /** Over the blocks from index `i` on. */
  function BlocksCount(bs: seq<Block>, i: nat): nat
    decreases bs, |bs| - i
  {
    if i >= |bs| then 0 else BlockCount(bs[i]) + BlocksCount(bs, i + 1)
  }

  datatype Role = System | User | Assistant | OtherRole(name: string)

  /** `content` of a message: absent, one string, or a list of blocks. */
  datatype Body = NoBody | Line(text: string) | Blocks(blocks: seq<Block>)

  datatype Message = Message(role: Role, body: Body, rest: Rest, mark: Option<Mark>)

  function BlocksOf(m: Message): seq<Block> {
    if m.body.Blocks? then m.body.blocks else []
  }

  function MessageCount(m: Message): nat {
    (if m.mark.Some? then 1 else 0) + m.rest.marks + BlocksCount(BlocksOf(m), 0)
  }

  /** Over the messages from index `i` on. */
  function MessagesCount(ms: seq<Message>, i: nat): nat
    decreases |ms| - i
  {
    if i >= |ms| then 0 else MessageCount(ms[i]) + MessagesCount(ms, i + 1)
  }

  /** The last message by the assistant among the first `n`, or -1. */
  function LastAssistantTo(ms: seq<Message>, n: nat): (r: int)
    requires n <= |ms|
    ensures -1 <= r < n
  {
    if n == 0 then -1 else if ms[n - 1].role == Assistant then n - 1 else LastAssistantTo(ms, n - 1)
  }

  function LastAssistant(ms: seq<Message>): (r: int)
    ensures -1 <= r < |ms|
  {
    LastAssistantTo(ms, |ms|)
  }

  lemma {:induction false} LastAssistantIs(ms: seq<Message>, n: nat)
    requires n <= |ms|
    ensures var r := LastAssistantTo(ms, n);
            (0 <= r ==> ms[r].role == Assistant) && forall i :: r < i < n ==> ms[i].role != Assistant
  {
    if n > 0 {
      LastAssistantIs(ms, n - 1);
    }
  }

  /** Message `at` is the one right after the last assistant message, or the end. */
  ghost predicate AfterAnswers(ms: seq<Message>, at: nat) {
    && at <= |ms| && (forall i :: at <= i < |ms| ==> ms[i].role != Assistant)
    && (at > 0 ==> ms[at - 1].role == Assistant)
  }

  lemma AfterAnswersIs(ms: seq<Message>, at: nat)
    requires AfterAnswers(ms, at)
    ensures LastAssistant(ms) == at - 1
  {
    LastAssistantIs(ms, |ms|);
  }
}
