/** `Capture`: the message a stream of server-sent events spells out, whatever way the stream is cut. */
module Capture {
  import opened Basics
  import opened Framing

  // ----- messages and events -----

  /** A JSON value of a message field; `truthy` as Python sees it. */
  datatype Value = Null | Text(text: string) | Json(json: string, truthy: bool)

  predicate Truthy(v: Value) {
    match v
    case Null => false
    case Text(t) => t != ""
    case Json(_, truthy) => truthy
  }

  /** A content block: the fields deltas write, and the JSON of the others. */
  datatype Part = Part(
    text: Option<string>, thinking: Option<string>, signature: Option<string>,
    citations: Option<seq<string>>, input: Option<string>, rest: string)

  /** `fields` are those but `content` and `usage`. */
  datatype Reply = Reply(content: seq<Part>, fields: map<string, Value>, usage: Option<map<string, string>>)

  datatype Delta =
    | TextDelta(piece: string) | ThinkingDelta(piece: string) | SignatureDelta(piece: string)
    | JsonDelta(piece: string) | CitationDelta(piece: string) | UnknownDelta

  datatype Event =
    | MessageStart(message: Reply)
    | BlockStart(part: Part)
    | BlockDelta(index: int, delta: Delta)
    | BlockStop(index: int)
    | MessageDelta(fields: map<string, Value>, usage: map<string, string>)
    | MessageStop
    | OtherEvent

  /**
    The two JSON readers: an event's payload, and a tool call's arguments. `None` is a `ValueError` or a missing key.
   */
  datatype Reader = Reader(event: string -> Option<Event>, input: string -> Option<string>)

  datatype State = State(message: Option<Reply>, arguments: map<int, string>, unparsed: seq<int>, complete: bool)

  const EMPTY := State(None, map[], [], false)

  const EMPTY_OBJECT := "{}"

  predicate Blank(s: string) {
    forall k :: 0 <= k < |s| ==> Space(s[k])
  }

  /** The arguments of a finished tool call; a call without arguments streams nothing. */
  function Arguments(rd: Reader, raw: string): Option<string> {
    if Blank(raw) then Some(EMPTY_OBJECT) else rd.input(raw)
  }

  // ----- one event -----

  /** Python list indexing: negative indices count from the end. */
  function Place(n: nat, index: int): (r: Option<nat>)
    ensures r.Some? ==> r.value < n
  {
    if 0 <= index < n then Some(index) else if 0 <= index + n < n then Some(index + n) else None
  }

  /** Block `k` of `n` goes by two indices: its own, and the negative one counted from the end. */
  lemma PlaceIs(n: nat, index: int, k: nat)
    ensures Place(n, index) == Some(k) <==> k < n && (index == k || index == k - n)
  {
  }

  function Or<T>(x: Option<T>, default: T): T {
    if x.Some? then x.value else default
  }

  function Grown(p: Part, d: Delta): Part {
    match d
    case TextDelta(s) => p.(text := Some(Or(p.text, "") + s))
    case ThinkingDelta(s) => p.(thinking := Some(Or(p.thinking, "") + s))
    case SignatureDelta(s) => p.(signature := Some(Or(p.signature, "") + s))
    case CitationDelta(s) => p.(citations := Some(Or(p.citations, []) + [s]))
    case _ => p
  }

  function Insert(x: int, l: List<int>): List<int> {
    if l.Nil? || x >= l.head then Cons(x, l) else Cons(l.head, Insert(x, l.tail))
  }

  /** The first `n` indices, largest first. */
  function Descending(s: seq<int>, n: nat): List<int>
    requires n <= |s|
  {
    if n == 0 then Nil else Insert(s[n - 1], Descending(s, n - 1))
  }

  function DeleteAt(content: seq<Part>, k: nat): seq<Part>
    requires k < |content|
  {
    content[..k] + content[k + 1..]
  }

  function DeleteAll(content: seq<Part>, l: List<int>): Option<seq<Part>>
    decreases l
  {
    if l.Nil? then Some(content)
    else
      match Place(|content|, l.head)
      case None => None
      case Some(k) => DeleteAll(DeleteAt(content, k), l.tail)
  }

  /** What the handler of an event does; `None` when it raises. */
  function Handle(rd: Reader, st: State, e: Event): Option<State> {
    match e
    case MessageStart(m) => Some(st.(message := Some(m)))
    case BlockStart(p) =>
      if st.message.None? then None
      else Some(st.(message := Some(st.message.value.(content := st.message.value.content + [p]))))
    case BlockDelta(index, d) => HandleDelta(st, index, d)
    case BlockStop(index) => HandleStop(rd, st, index)
    case MessageDelta(fields, usage) =>
      if st.message.None? || st.message.value.usage.None? then None
      else
        var m := st.message.value;
        Some(st.(message := Some(m.(fields := m.fields + fields, usage := Some(m.usage.value + usage)))))
    case MessageStop => Finish(st)
    case OtherEvent => Some(st)
  }

  function HandleDelta(st: State, index: int, d: Delta): Option<State> {
    if st.message.None? then None
    else
      var m := st.message.value;
      match Place(|m.content|, index)
      case None => None
      case Some(k) =>
        if d.JsonDelta? then
          var before := if index in st.arguments then st.arguments[index] else "";
          Some(st.(arguments := st.arguments[index := before + d.piece]))
        else Some(st.(message := Some(m.(content := m.content[k := Grown(m.content[k], d)]))))
  }

  function HandleStop(rd: Reader, st: State, index: int): Option<State> {
    if index !in st.arguments then Some(st)
    else
      var input, left := Arguments(rd, st.arguments[index]), st.arguments - {index};
      if input.None? then Some(st.(arguments := left, unparsed := st.unparsed + [index]))
      else if st.message.None? then None
      else
        var m := st.message.value;
        match Place(|m.content|, index)
        case None => None
        case Some(k) =>
          Some(st.(arguments := left, message := Some(m.(content := m.content[k := m.content[k].(input := input)]))))
  }

  predicate Stopped(m: Reply) {
    "stop_reason" in m.fields && Truthy(m.fields["stop_reason"])
  }

  function Finish(st: State): Option<State> {
    if st.message.None? then if st.unparsed == [] then Some(st.(complete := false)) else None
    else
      match DeleteAll(st.message.value.content, Descending(st.unparsed, |st.unparsed|))
      case None => None
      case Some(content) =>
        var m := st.message.value.(content := content);
        Some(st.(message := Some(m), complete := Stopped(m) && st.arguments == map[]))
  }

  /** A stop that no start went before completes nothing. */
  lemma StopWithoutStart(rd: Reader, st: State)
    requires st.message.None?
    ensures Handle(rd, st, MessageStop) == if st.unparsed == [] then Some(st.(complete := false)) else None
    ensures st.complete == false && st.unparsed == [] ==> Handle(rd, st, MessageStop) == Some(st)
  {
  }

  // ----- the stream -----

  /** What one frame does; one without a payload does nothing. */
  function HandleFrame(rd: Reader, st: State, frame: string): Option<State> {
    var data := Data(frame);
    if data == "" then Some(st)
    else
      match rd.event(data)
      case None => None
      case Some(e) => Handle(rd, st, e)
  }

  function Taking(rd: Reader): (State, string) -> Option<State> {
    (st: State, frame: string) => HandleFrame(rd, st, frame)
  }

  /** One event, and how it was written: the frame's event name, its payload, its line ends. */
  datatype Written = Written(event: Event, name: string, payload: string, crlf: bool)

  predicate Readable(rd: Reader, w: Written) {
    Unbroken(w.name) && w.payload != "" && Clean(w.payload) && rd.event(w.payload) == Some(w.event)
  }

  function Frames(ws: seq<Written>): (r: seq<string>)
    ensures |r| == |ws| && forall k :: 0 <= k < |ws| ==> r[k] == FrameBody(ws[k].name, ws[k].payload, ws[k].crlf)
  {
    seq(|ws|, k requires 0 <= k < |ws| => FrameBody(ws[k].name, ws[k].payload, ws[k].crlf))
  }

  function LineEnds(ws: seq<Written>): seq<bool> {
    seq(|ws|, k requires 0 <= k < |ws| => ws[k].crlf)
  }

  /** A text is these events, each in its frame. */
  ghost predicate Spells(t: string, ws: seq<Written>) {
    Encodes(t, 0, Frames(ws), LineEnds(ws), 0)
  }

  /** A text written event by event is these events. */
  lemma WrittenSpells(ws: seq<Written>)
    ensures Spells(TextOf(Frames(ws), LineEnds(ws), 0), ws)
  {
    var t := TextOf(Frames(ws), LineEnds(ws), 0);
    assert t[0..] == t;
    TextEncodes(t, 0, Frames(ws), LineEnds(ws), 0);
  }

  /** The events from index `i` on, handled one after the other. */
  function Run(rd: Reader, st: State, ws: seq<Written>, i: nat): Option<State>
    decreases |ws| - i
  {
    if i >= |ws| then Some(st)
    else
      match Handle(rd, st, ws[i].event)
      case None => None
      case Some(next) => Run(rd, next, ws, i + 1)
  }

  lemma TakesWritten(rd: Reader, st: State, w: Written)
    requires Readable(rd, w)
    ensures Taking(rd)(st, FrameBody(w.name, w.payload, w.crlf)) == Handle(rd, st, w.event)
  {
    FrameData(w.name, w.payload, w.crlf);
  }

  lemma {:induction false} RunsFrames(rd: Reader, st: State, ws: seq<Written>, i: nat)
    requires forall k :: 0 <= k < |ws| ==> Readable(rd, ws[k])
    ensures Run(rd, st, ws, i) == RunFrames(Taking(rd), st, Frames(ws), i)
    decreases |ws| - i
  {
    if i < |ws| {
      TakesWritten(rd, st, ws[i]);
      match Handle(rd, st, ws[i].event)
      case None =>
      case Some(next) => RunsFrames(rd, next, ws, i + 1);
    }
  }

  /** A stream cut anywhere is read as the events it was written from. */
  lemma StreamRoundTrip(rd: Reader, ws: seq<Written>, chunks: seq<string>)
    requires (forall k :: 0 <= k < |ws| ==> Readable(rd, ws[k])) && Spells(Joined(chunks, |chunks|), ws)
    ensures FedAll(Draining(Taking(rd)), EMPTY, chunks, |chunks|)
         == match Run(rd, EMPTY, ws, 0) case None => Raised case Some(end) => Live(end, "")
  {
    forall k | 0 <= k < |ws| ensures Compact(Frames(ws)[k]) {
      FrameCompact(ws[k].name, ws[k].payload, ws[k].crlf);
    }
    ChunksDoNotMatter(Taking(rd), EMPTY, chunks);
    StreamRuns(Taking(rd), EMPTY, Frames(ws), LineEnds(ws), Joined(chunks, |chunks|));
    RunsFrames(rd, EMPTY, ws, 0);
  }

  // ----- the object the relay feeds -----

  class Capture {
    const reader: Reader
    var message: Option<Reply>
    var complete: bool
    var pending: string
    var arguments: map<int, string>
    var unparsed: seq<int>

    constructor (reader: Reader)
      ensures this.reader == reader && Now() == EMPTY && pending == ""
    {
      this.reader := reader;
      message, complete, pending, arguments, unparsed := None, false, "", map[], [];
    }

    function Now(): State
      reads this
    {
      State(message, arguments, unparsed, complete)
    }

    /** Takes one more chunk; false when a frame raised. */
    method Feed(chunk: string) returns (ok: bool)
      modifies this
      ensures Drain(Taking(reader), old(Now()), old(pending) + chunk) == if ok then Live(Now(), pending) else Raised
    {
      hide Drain;
      hide Cuts;
      hide FirstCut;
      hide HandleFrame;
      pending := pending + chunk;
      ghost var take, whole, from, st := Taking(reader), pending, 0, Now();
      ghost var end := Drain(take, st, whole);
      PartwayStarts(take, st, whole);
      hide Partway;
      while true
        invariant st == Now() && Partway(take, st, whole, from, pending, end) && from <= |whole|
        decreases |whole| - from
      {
        ghost var was, p := pending, FirstCut(Cuts(pending), 0);
        var found;
        found, ok := NextFrame();
        if !found {
          PartwayEnds(take, st, whole, from, was, end);
          return true;
        }
        from := PartwayStep(take, st, whole, from, was, end, p);
        if !ok {
          return false;
        }
        st := Now();
      }
    }

    /** One whole frame off the pending text, if there is one; `ok` is false when it raised. */
    method NextFrame() returns (found: bool, ok: bool)
      modifies this
      ensures var was, p := old(pending), FirstCut(Cuts(old(pending)), 0);
              && found == (p < |was|)
              && (found ==> pending == was[p + Cuts(was)[p]..])
              && (found ==> Taking(reader)(old(Now()), was[..p]) == if ok then Some(Now()) else None)
              && (!found ==> ok && pending == was && Now() == old(Now()))
    {
      var p, n := Search(pending);
      if n == 0 {
        return false, true;
      }
      var frame := pending[..p];
      pending := pending[p + n..];
      ok := Frame(frame);
      found := true;
    }

    /** The payload of one frame, if it has any. */
    method Frame(frame: string) returns (ok: bool)
      modifies `message, `complete, `arguments, `unparsed
      ensures HandleFrame(reader, old(Now()), frame) == if ok then Some(Now()) else None
    {
      var data := Data(frame);
      if data == "" {
        return true;
      }
      var event := reader.event(data);
      if event.None? {
        return false;
      }
      ok := Dispatch(event.value);
    }

    method Dispatch(e: Event) returns (ok: bool)
      modifies `message, `complete, `arguments, `unparsed
      ensures Handle(reader, old(Now()), e) == if ok then Some(Now()) else None
    {
      ok := true;
      match e
      case MessageStart(m) => message := Some(m);
      case BlockStart(p) =>
        ok := message.Some?;
        if ok {
          message := Some(message.value.(content := message.value.content + [p]));
        }
      case BlockDelta(index, d) => ok := BlockDeltaEvent(index, d);
      case BlockStop(index) => ok := BlockStopEvent(index);
      case MessageDelta(fields, usage) =>
        ok := message.Some? && message.value.usage.Some?;
        if ok {
          message := Some(message.value.(fields := message.value.fields + fields));
          message := Some(message.value.(usage := Some(message.value.usage.value + usage)));
        }
      case MessageStop => ok := MessageStopEvent();
      case OtherEvent =>
    }

    method BlockDeltaEvent(index: int, d: Delta) returns (ok: bool)
      modifies `message, `arguments
      ensures HandleDelta(old(Now()), index, d) == if ok then Some(Now()) else None
    {
      if message.None? || Place(|message.value.content|, index).None? {
        return false;
      }
      var content, k := message.value.content, Place(|message.value.content|, index).value;
      if d.JsonDelta? {
        arguments := arguments[index := (if index in arguments then arguments[index] else "") + d.piece];
      } else {
        message := Some(message.value.(content := content[k := Grown(content[k], d)]));
      }
      return true;
    }

    method BlockStopEvent(index: int) returns (ok: bool)
      modifies `message, `arguments, `unparsed
      ensures HandleStop(reader, old(Now()), index) == if ok then Some(Now()) else None
    {
      if index !in arguments {
        return true;
      }
      var raw := arguments[index];
      arguments := arguments - {index};
      var input := Arguments(reader, raw);
      if input.None? {
        unparsed := unparsed + [index];
        return true;
      }
      if message.None? || Place(|message.value.content|, index).None? {
        return false;
      }
      var content, k := message.value.content, Place(|message.value.content|, index).value;
      message := Some(message.value.(content := content[k := content[k].(input := input)]));
      return true;
    }

    method MessageStopEvent() returns (ok: bool)
      modifies `message, `complete
      ensures Finish(old(Now())) == if ok then Some(Now()) else None
    {
      if message.None? {
        complete := false;
        return unparsed == [];
      }
      var left := Descending(unparsed, |unparsed|);
      if left.Cons? {
        assert unparsed != [];
      }
      while left.Cons?
        invariant message.Some? && message.value == old(message).value.(content := message.value.content)
        invariant DeleteAll(message.value.content, left)
               == DeleteAll(old(message).value.content, Descending(unparsed, |unparsed|))
        decreases left
      {
        var k := Place(|message.value.content|, left.head);
        if k.None? {
          return false;
        }
        message := Some(message.value.(content := DeleteAt(message.value.content, k.value)));
        left := left.tail;
      }
      complete := Stopped(message.value) && arguments == map[];
      return true;
    }
  }

  /** `re.search` for the leftmost separator; `n` is 0 when there is none. */
  method Search(s: string) returns (p: nat, n: nat)
    ensures p == FirstCut(Cuts(s), 0) && n == (if p < |s| then Cuts(s)[p] else 0) && (n == 0 <==> p == |s|)
  {
    CutsAre(s);
    p := 0;
    while p < |s|
      invariant p <= |s| && FirstCut(Cuts(s), p) == FirstCut(Cuts(s), 0)
    {
      n := SeparatorAt(s, p);
      if n > 0 {
        return;
      }
      p := p + 1;
    }
    n := 0;
  }
}
