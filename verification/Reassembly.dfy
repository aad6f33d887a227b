/**
  What `Capture` makes of a well-formed message: every block as its own deltas spell it, whatever came between them.
 */
module Reassembly {
  import opened Basics
  import opened Framing
  import opened Capture

  // ----- what the events after `message_start` say about one block -----

  /** How many blocks the first `n` events started. */
  function Opened(es: seq<Event>, n: nat): (r: nat)
    requires n <= |es|
    ensures r <= n
  {
    if n == 0 then 0 else Opened(es, n - 1) + if es[n - 1].BlockStart? then 1 else 0
  }

  /** Block `i` as its start event gave it. */
  function Started(es: seq<Event>, n: nat, i: nat): Part
    requires n <= |es| && i < Opened(es, n)
  {
    if es[n - 1].BlockStart? && i == Opened(es, n - 1) then es[n - 1].part else Started(es, n - 1, i)
  }

  predicate StoppedBy(es: seq<Event>, n: nat, i: int)
    requires n <= |es|
  {
    n > 0 && (es[n - 1] == BlockStop(i) || StoppedBy(es, n - 1, i))
  }

  datatype Kind = OfText | OfThinking | OfSignature | OfJson

  predicate IsKind(d: Delta, kind: Kind) {
    match kind
    case OfText => d.TextDelta?
    case OfThinking => d.ThinkingDelta?
    case OfSignature => d.SignatureDelta?
    case OfJson => d.JsonDelta?
  }

  /** The pieces of one kind that block `i` got, joined; None when it got none. */
  function Pieces(es: seq<Event>, n: nat, i: int, kind: Kind): Option<string>
    requires n <= |es|
  {
    if n == 0 then None
    else
      var before, e := Pieces(es, n - 1, i, kind), es[n - 1];
      if e.BlockDelta? && e.index == i && IsKind(e.delta, kind) then Some(Or(before, "") + e.delta.piece) else before
  }

  function Citations(es: seq<Event>, n: nat, i: int): seq<string>
    requires n <= |es|
  {
    if n == 0 then []
    else
      var before, e := Citations(es, n - 1, i), es[n - 1];
      if e.BlockDelta? && e.index == i && e.delta.CitationDelta? then before + [e.delta.piece] else before
  }

  /** A field that starts at `start` and gets `pieces`. */
  function With(start: Option<string>, pieces: Option<string>): Option<string> {
    if pieces.None? then start else Some(Or(start, "") + pieces.value)
  }

  /** The block stopped, and its arguments do not parse. */
  predicate Unparsed(rd: Reader, es: seq<Event>, n: nat, i: int)
    requires n <= |es|
  {
    StoppedBy(es, n, i) && Pieces(es, n, i, OfJson).Some? && Arguments(rd, Pieces(es, n, i, OfJson).value).None?
  }

  /** Block `i` after the first `n` events: its start, and its own pieces in order. */
  function Rebuilt(rd: Reader, es: seq<Event>, n: nat, i: nat): Part
    requires n <= |es| && i < Opened(es, n)
  {
    var start, json, cited := Started(es, n, i), Pieces(es, n, i, OfJson), Citations(es, n, i);
    start.(
      text := With(start.text, Pieces(es, n, i, OfText)),
      thinking := With(start.thinking, Pieces(es, n, i, OfThinking)),
      signature := With(start.signature, Pieces(es, n, i, OfSignature)),
      citations := if cited == [] then start.citations else Some(Or(start.citations, []) + cited),
      input := if StoppedBy(es, n, i) && json.Some? && !Unparsed(rd, es, n, i) then Arguments(rd, json.value)
               else start.input)
  }

  /** Deltas and stops name a block that started and has not stopped; one message, not over yet. */
  predicate WellFormed(es: seq<Event>, n: nat)
    requires n <= |es|
  {
    n == 0
    || (&& WellFormed(es, n - 1)
        && match es[n - 1]
           case MessageStart(_) => false
           case MessageStop => false
           case BlockDelta(i, _) => 0 <= i < Opened(es, n - 1) && !StoppedBy(es, n - 1, i)
           case BlockStop(i) => 0 <= i < Opened(es, n - 1) && !StoppedBy(es, n - 1, i)
           case _ => true)
  }

  /** The events up to index `n` handled from `st`. */
  function Handled(rd: Reader, st: State, es: seq<Event>, n: nat): Option<State>
    requires n <= |es|
  {
    if n == 0 then Some(st)
    else
      match Handled(rd, st, es, n - 1)
      case None => None
      case Some(mid) => Handle(rd, mid, es[n - 1])
  }

  // ----- the state after every event -----

  /** The message's blocks are the rebuilt ones. */
  ghost predicate BlocksTrack(rd: Reader, es: seq<Event>, n: nat, st: State)
    requires n <= |es|
  {
    && st.message.Some? && |st.message.value.content| == Opened(es, n)
    && forall i :: 0 <= i < Opened(es, n) ==> st.message.value.content[i] == Rebuilt(rd, es, n, i)
  }

  /** Open arguments are those of the blocks that got some and have not stopped. */
  ghost predicate ArgumentsTrack(es: seq<Event>, n: nat, arguments: map<int, string>)
    requires n <= |es|
  {
    forall i: int ::
      if Pieces(es, n, i, OfJson).Some? && !StoppedBy(es, n, i)
      then i in arguments && arguments[i] == Pieces(es, n, i, OfJson).value
      else i !in arguments
  }

  /** The blocks to drop are those whose arguments do not parse, each once. */
  ghost predicate UnparsedTrack(rd: Reader, es: seq<Event>, n: nat, unparsed: seq<int>)
    requires n <= |es|
  {
    && (forall i: int :: i in unparsed <==> Unparsed(rd, es, n, i))
    && (forall a, b :: 0 <= a < b < |unparsed| ==> unparsed[a] != unparsed[b])
  }

  /** Nothing is said of a block that has not started. */
  lemma {:induction false} NothingYet(es: seq<Event>, n: nat, i: int)
    requires n <= |es| && WellFormed(es, n) && !(0 <= i < Opened(es, n))
    ensures !StoppedBy(es, n, i) && Citations(es, n, i) == []
    ensures forall kind :: Pieces(es, n, i, kind) == None
  {
    if n > 0 {
      NothingYet(es, n - 1, i);
    }
  }

  // ----- one more event -----

  lemma {:induction false} OthersSame(rd: Reader, es: seq<Event>, n: nat, i: nat)
    requires n < |es| && i < Opened(es, n) && es[n] != BlockStop(i) && !(es[n].BlockDelta? && es[n].index == i)
    ensures Rebuilt(rd, es, n + 1, i) == Rebuilt(rd, es, n, i)
  {
  }

  lemma Assoc(a: string, b: string, c: string)
    ensures a + b + c == a + (b + c) && "" + c == c
  {
  }

  lemma AssocList(a: seq<string>, b: seq<string>, c: seq<string>)
    ensures a + b + c == a + (b + c) && [] + c == c
  {
  }

  lemma DeltaGrows(rd: Reader, es: seq<Event>, n: nat, i: nat, d: Delta)
    requires n < |es| && i < Opened(es, n) && es[n] == BlockDelta(i, d) && !StoppedBy(es, n, i)
    ensures Rebuilt(rd, es, n + 1, i) == Grown(Rebuilt(rd, es, n, i), d)
  {
    var start := Started(es, n, i);
    match d
    case TextDelta(s) => Assoc(Or(start.text, ""), Or(Pieces(es, n, i, OfText), ""), s);
    case ThinkingDelta(s) => Assoc(Or(start.thinking, ""), Or(Pieces(es, n, i, OfThinking), ""), s);
    case SignatureDelta(s) => Assoc(Or(start.signature, ""), Or(Pieces(es, n, i, OfSignature), ""), s);
    case CitationDelta(s) => AssocList(Or(start.citations, []), Citations(es, n, i), [s]);
    case _ =>
  }

  lemma StopSets(rd: Reader, es: seq<Event>, n: nat, i: nat)
    requires n < |es| && i < Opened(es, n) && es[n] == BlockStop(i) && !StoppedBy(es, n, i)
    ensures var json, was := Pieces(es, n, i, OfJson), Rebuilt(rd, es, n, i);
            Rebuilt(rd, es, n + 1, i)
            == if json.Some? && Arguments(rd, json.value).Some? then was.(input := Arguments(rd, json.value)) else was
  {
  }

  lemma StartOpens(rd: Reader, es: seq<Event>, n: nat)
    requires n < |es| && WellFormed(es, n) && es[n].BlockStart?
    ensures Rebuilt(rd, es, n + 1, Opened(es, n)) == es[n].part
  {
    var i := Opened(es, n);
    NothingYet(es, n, i);
    assert Pieces(es, n, i, OfText) == Pieces(es, n, i, OfThinking) == Pieces(es, n, i, OfSignature) == None;
    assert Pieces(es, n, i, OfJson) == None;
  }

  lemma BlocksStep(rd: Reader, es: seq<Event>, n: nat, st: State, next: State)
    requires n < |es| && WellFormed(es, n + 1) && BlocksTrack(rd, es, n, st) && ArgumentsTrack(es, n, st.arguments)
    requires Handle(rd, st, es[n]) == Some(next)
    ensures BlocksTrack(rd, es, n + 1, next)
  {
    hide Rebuilt;
    hide Unparsed;
    var e := es[n];
    forall i: nat | i < Opened(es, n + 1) && es[n] != BlockStop(i) && !(es[n].BlockDelta? && es[n].index == i)
      ensures next.message.value.content[i] == Rebuilt(rd, es, n + 1, i)
    {
      if i < Opened(es, n) {
        OthersSame(rd, es, n, i);
      } else {
        StartOpens(rd, es, n);
      }
    }
    match e
    case BlockDelta(i, d) => DeltaGrows(rd, es, n, i, d);
    case BlockStop(i) => StopSets(rd, es, n, i);
    case _ =>
  }

  /** The open arguments after one event. */
  function NextArguments(arguments: map<int, string>, e: Event): map<int, string> {
    if e.BlockDelta? && e.delta.JsonDelta? then
      arguments[e.index := (if e.index in arguments then arguments[e.index] else "") + e.delta.piece]
    else if e.BlockStop? then arguments - {e.index}
    else arguments
  }

  lemma ArgumentsAfter(rd: Reader, st: State, e: Event, next: State)
    requires Handle(rd, st, e) == Some(next) && e != MessageStop
    ensures next.arguments == NextArguments(st.arguments, e)
  {
    if e.BlockStop? && e.index !in st.arguments {
      assert st.arguments - {e.index} == st.arguments;
    }
  }

  lemma ArgumentsStep(rd: Reader, es: seq<Event>, n: nat, st: State, next: State)
    requires n < |es| && WellFormed(es, n + 1) && BlocksTrack(rd, es, n, st) && ArgumentsTrack(es, n, st.arguments)
    requires Handle(rd, st, es[n]) == Some(next)
    ensures ArgumentsTrack(es, n + 1, next.arguments)
  {
    hide Rebuilt;
    hide Handle;
    ArgumentsAfter(rd, st, es[n], next);
  }

  lemma UnparsedStep(rd: Reader, es: seq<Event>, n: nat, st: State, next: State)
    requires n < |es| && WellFormed(es, n + 1) && BlocksTrack(rd, es, n, st) && ArgumentsTrack(es, n, st.arguments)
    requires UnparsedTrack(rd, es, n, st.unparsed) && Handle(rd, st, es[n]) == Some(next)
    ensures UnparsedTrack(rd, es, n + 1, next.unparsed)
  {
    hide Rebuilt;
    if next.unparsed != st.unparsed {
      var i := es[n].index;
      assert !Unparsed(rd, es, n, i) && Unparsed(rd, es, n + 1, i);
      assert i !in st.unparsed && next.unparsed == st.unparsed + [i];
    }
    forall i: int ensures i in next.unparsed <==> Unparsed(rd, es, n + 1, i) {
      assert i in st.unparsed <==> Unparsed(rd, es, n, i);
    }
  }

  /** No event of a well-formed message raises. */
  lemma StepTaken(rd: Reader, es: seq<Event>, n: nat, st: State)
    requires n < |es| && WellFormed(es, n + 1) && BlocksTrack(rd, es, n, st) && st.message.value.usage.Some?
    ensures Handle(rd, st, es[n]).Some?
    ensures var next := Handle(rd, st, es[n]).value;
            next.message.Some? && next.message.value.usage.Some? && next.complete == st.complete
  {
  }

  /** After every event the state is what the events so far say of each block on its own. */
  lemma {:induction false} Tracked(rd: Reader, m: Reply, es: seq<Event>, n: nat)
    requires n <= |es| && WellFormed(es, n) && m.content == [] && m.usage.Some?
    ensures var r := Handled(rd, EMPTY.(message := Some(m)), es, n);
            && r.Some? && r.value.message.Some? && r.value.message.value.usage.Some?
            && BlocksTrack(rd, es, n, r.value) && ArgumentsTrack(es, n, r.value.arguments)
            && UnparsedTrack(rd, es, n, r.value.unparsed)
  {
    if n > 0 {
      Tracked(rd, m, es, n - 1);
      var st := Handled(rd, EMPTY.(message := Some(m)), es, n - 1).value;
      StepTaken(rd, es, n - 1, st);
      var next := Handle(rd, st, es[n - 1]).value;
      BlocksStep(rd, es, n - 1, st, next);
      ArgumentsStep(rd, es, n - 1, st, next);
      UnparsedStep(rd, es, n - 1, st, next);
    }
  }

  // ----- the fields and the usage -----

  /** What every event says of the message's fields. */
  function FieldsNamed(es: seq<Event>): (r: seq<map<string, Value>>)
    ensures |r| == |es|
    ensures forall k :: 0 <= k < |es| ==> r[k] == if es[k].MessageDelta? then es[k].fields else map[]
  {
    seq(|es|, k requires 0 <= k < |es| => if es[k].MessageDelta? then es[k].fields else map[])
  }

  /** What every event says of the usage. */
  function UsageNamed(es: seq<Event>): (r: seq<map<string, string>>)
    ensures |r| == |es|
    ensures forall k :: 0 <= k < |es| ==> r[k] == if es[k].MessageDelta? then es[k].usage else map[]
  {
    seq(|es|, k requires 0 <= k < |es| => if es[k].MessageDelta? then es[k].usage else map[])
  }

  /** `v` is the last value the first `n` events name for the key, or the start's if none of them names it. */
  ghost predicate LastSaid<T>(start: map<string, T>, named: seq<map<string, T>>, n: nat, key: string, v: T)
    requires n <= |named|
  {
    || (key in start && start[key] == v && forall k :: 0 <= k < n ==> key !in named[k])
    || exists k :: && 0 <= k < n && key in named[k] && named[k][key] == v
                   && forall later :: k < later < n ==> key !in named[later]
  }

  predicate Entry<T(==)>(table: map<string, T>, key: string, v: T) {
    key in table && table[key] == v
  }

  /** The table holds, for every key, the last value said and nothing else. */
  ghost predicate HoldsLast<T(!new)>(start: map<string, T>, named: seq<map<string, T>>, n: nat, out: map<string, T>)
    requires n <= |named|
  {
    forall key: string, v: T :: Entry(out, key, v) <==> LastSaid(start, named, n, key, v)
  }

  lemma SaidStep<T>(start: map<string, T>, named: seq<map<string, T>>, n: nat, key: string, v: T)
    requires n < |named|
    ensures LastSaid(start, named, n + 1, key, v)
       <==> if key in named[n] then named[n][key] == v else LastSaid(start, named, n, key, v)
  {
    if key in named[n] && LastSaid(start, named, n + 1, key, v) {
      assert named[n][key] == v;
    }
    if key !in named[n] && LastSaid(start, named, n, key, v)
       && !(key in start && start[key] == v && forall k :: 0 <= k < n ==> key !in named[k])
    {
      var k :| && 0 <= k < n && key in named[k] && named[k][key] == v
               && forall later :: k < later < n ==> key !in named[later];
      assert forall later :: k < later < n + 1 ==> key !in named[later];
    }
  }

  lemma HoldsStep<T(!new)>(start: map<string, T>, named: seq<map<string, T>>, n: nat, out: map<string, T>)
    requires n < |named| && HoldsLast(start, named, n, out)
    ensures HoldsLast(start, named, n + 1, out + named[n])
  {
    forall key: string, v: T
      ensures Entry(out + named[n], key, v) <==> LastSaid(start, named, n + 1, key, v)
    {
      assert Entry(out, key, v) <==> LastSaid(start, named, n, key, v);
      SaidStep(start, named, n, key, v);
      hide LastSaid;
    }
  }

  /** One event adds what it says to the fields and to the usage. */
  lemma TablesStep(rd: Reader, es: seq<Event>, n: nat, st: State, next: State)
    requires n < |es| && WellFormed(es, n + 1) && Handle(rd, st, es[n]) == Some(next)
    requires st.message.Some? && st.message.value.usage.Some?
    ensures && next.message.Some? && next.message.value.usage.Some?
            && next.message.value.fields == st.message.value.fields + FieldsNamed(es)[n]
            && next.message.value.usage.value == st.message.value.usage.value + UsageNamed(es)[n]
  {
    hide FieldsNamed, UsageNamed;
    var m := st.message.value;
    assert m.fields + map[] == m.fields && m.usage.value + map[] == m.usage.value;
  }

  /**
    Each field of the message, and each entry of its usage, has the value of the last `message_delta` that names it,
    else the one the message started with; no other is there.
   */
  lemma {:induction false} TablesTracked(rd: Reader, m: Reply, es: seq<Event>, n: nat)
    requires n <= |es| && WellFormed(es, n) && m.content == [] && m.usage.Some?
    ensures var r := Handled(rd, EMPTY.(message := Some(m)), es, n);
            && r.Some? && r.value.message.Some? && r.value.message.value.usage.Some?
            && HoldsLast(m.fields, FieldsNamed(es), n, r.value.message.value.fields)
            && HoldsLast(m.usage.value, UsageNamed(es), n, r.value.message.value.usage.value)
  {
    hide BlocksTrack, ArgumentsTrack, UnparsedTrack;
    if n > 0 {
      TablesTracked(rd, m, es, n - 1);
      Tracked(rd, m, es, n);
      hide HoldsLast;
      var st := Handled(rd, EMPTY.(message := Some(m)), es, n - 1).value;
      var next := Handle(rd, st, es[n - 1]).value;
      hide Handle;
      TablesStep(rd, es, n - 1, st, next);
      HoldsStep(m.fields, FieldsNamed(es), n - 1, st.message.value.fields);
      HoldsStep(m.usage.value, UsageNamed(es), n - 1, st.message.value.usage.value);
    }
  }

  // ----- dropping the calls that do not parse -----

  predicate Has(l: List<int>, x: int) {
    l.Cons? && (l.head == x || Has(l.tail, x))
  }

  predicate Falling(l: List<int>) {
    l.Cons? && l.tail.Cons? ==> l.head > l.tail.head && Falling(l.tail)
  }

  lemma {:induction false} InsertKeeps(x: int, l: List<int>)
    requires Falling(l) && !Has(l, x)
    ensures Falling(Insert(x, l)) && forall y :: Has(Insert(x, l), y) <==> y == x || Has(l, y)
  {
    if l.Cons? && x < l.head {
      FallingTail(l);
      InsertKeeps(x, l.tail);
    }
  }

  lemma FallingTail(l: List<int>)
    requires Falling(l) && l.Cons?
    ensures Falling(l.tail)
  {
  }

  lemma {:induction false} HeadLargest(l: List<int>, x: int)
    requires Falling(l) && l.Cons? && Has(l.tail, x)
    ensures x < l.head
  {
    if l.tail.head != x {
      HeadLargest(l.tail, x);
    }
  }

  lemma {:induction false} DescendingIs(s: seq<int>, n: nat)
    requires n <= |s| && forall a, b :: 0 <= a < b < |s| ==> s[a] != s[b]
    ensures Falling(Descending(s, n)) && forall y :: Has(Descending(s, n), y) <==> y in s[..n]
  {
    if n > 0 {
      DescendingIs(s, n - 1);
      InsertKeeps(s[n - 1], Descending(s, n - 1));
      assert s[..n] == s[..n - 1] + [s[n - 1]];
    }
  }

  /** The first `m` blocks without the bad ones. */
  function Kept(content: seq<Part>, bad: set<int>, m: nat): seq<Part>
    requires m <= |content|
  {
    if m == 0 then [] else Kept(content, bad, m - 1) + if m - 1 in bad then [] else [content[m - 1]]
  }

  lemma {:induction false} KeptGap(content: seq<Part>, bad: set<int>, h: nat, m: nat)
    requires h <= m <= |content| && forall k :: h <= k < m ==> k !in bad
    ensures Kept(content, bad, m) == Kept(content, bad, h) + content[h..m]
    decreases m - h
  {
    if h < m {
      KeptGap(content, bad, h, m - 1);
      assert content[h..m] == content[h..m - 1] + [content[m - 1]];
    }
  }

  lemma DeleteInside(content: seq<Part>, h: nat, m: nat, tail: seq<Part>)
    requires h < m <= |content|
    ensures DeleteAt(content[..m] + tail, h) == content[..h] + (content[h + 1..m] + tail)
  {
  }

  /** Deleting from the back leaves exactly the blocks that are not bad, in order. */
  lemma {:induction false} DeletesBad(content: seq<Part>, bad: set<int>, m: nat, tail: seq<Part>, l: List<int>)
    requires m <= |content| && Falling(l) && forall x :: Has(l, x) <==> x in bad && 0 <= x < m
    ensures DeleteAll(content[..m] + tail, l) == Some(Kept(content, bad, m) + tail)
    decreases l
  {
    if l.Nil? {
      assert forall k :: 0 <= k < m ==> !Has(l, k);
      KeptGap(content, bad, 0, m);
      assert content[0..m] == content[..m] && [] + content[..m] == content[..m];
    } else {
      var h := l.head;
      assert Has(l, h);
      FallingTail(l);
      forall x ensures Has(l.tail, x) <==> x in bad && 0 <= x < h {
        if Has(l.tail, x) {
          HeadLargest(l, x);
        }
        assert Has(l, x) <==> x in bad && 0 <= x < m;
      }
      DeletesBad(content, bad, h, content[h + 1..m] + tail, l.tail);
      DeleteInside(content, h, m, tail);
      forall k | h + 1 <= k < m ensures k !in bad {
        if Has(l, k) {
          HeadLargest(l, k);
        }
      }
      KeptGap(content, bad, h + 1, m);
      assert Kept(content, bad, h + 1) == Kept(content, bad, h);
      assert Kept(content, bad, h) + (content[h + 1..m] + tail) == Kept(content, bad, h) + content[h + 1..m] + tail;
    }
  }

  // ----- the whole message -----

  /** Every block that got arguments stopped. */
  predicate ArgumentsDone(es: seq<Event>, n: nat)
    requires n <= |es|
  {
    forall i :: 0 <= i < Opened(es, n) && Pieces(es, n, i, OfJson).Some? ==> StoppedBy(es, n, i)
  }

  lemma NoneOpen(es: seq<Event>, n: nat, arguments: map<int, string>)
    requires n <= |es| && WellFormed(es, n) && ArgumentsTrack(es, n, arguments)
    ensures arguments == map[] <==> ArgumentsDone(es, n)
  {
    if ArgumentsDone(es, n) {
      forall i: int ensures i !in arguments {
        if !(0 <= i < Opened(es, n)) {
          NothingYet(es, n, i);
        }
      }
    } else {
      var i :| 0 <= i < Opened(es, n) && Pieces(es, n, i, OfJson).Some? && !StoppedBy(es, n, i);
      assert i in arguments;
    }
  }

  /** The last stop reason the stream names is there for something: no null, no empty text, no false JSON. */
  ghost predicate StopSaid(m: Reply, es: seq<Event>) {
    exists v :: && LastSaid(m.fields, FieldsNamed(es), |es|, "stop_reason", v)
                && v != Null && v != Text("") && (v.Json? ==> v.truthy)
  }

  lemma StopSaidIs(m: Reply, es: seq<Event>, end: Reply)
    requires HoldsLast(m.fields, FieldsNamed(es), |es|, end.fields)
    ensures Stopped(end) <==> StopSaid(m, es)
  {
    hide LastSaid, FieldsNamed;
    assert StopSaid(m, es) ==> exists v :: Entry(end.fields, "stop_reason", v) && Truthy(v) by {
      if v :| && LastSaid(m.fields, FieldsNamed(es), |es|, "stop_reason", v)
              && v != Null && v != Text("") && (v.Json? ==> v.truthy) {
        assert Entry(end.fields, "stop_reason", v);
      }
    }
    if Stopped(end) {
      assert Entry(end.fields, "stop_reason", end.fields["stop_reason"]);
    }
  }

  /** A finished call with only white space for arguments has an empty object; any other what its pieces parse to. */
  lemma CallHas(rd: Reader, es: seq<Event>, n: nat, i: nat, json: string)
    requires n <= |es| && i < Opened(es, n) && StoppedBy(es, n, i) && Pieces(es, n, i, OfJson) == Some(json)
    ensures if forall k :: 0 <= k < |json| ==> Space(json[k])
            then !Unparsed(rd, es, n, i) && Rebuilt(rd, es, n, i).input == Some("{}")
            else && (Unparsed(rd, es, n, i) <==> rd.input(json).None?)
                 && (!Unparsed(rd, es, n, i) ==> Rebuilt(rd, es, n, i).input == rd.input(json))
  {
  }

  /** Block `i` of the message, dropped or not. */
  ghost predicate Spelled(rd: Reader, es: seq<Event>, blocks: seq<Part>) {
    |blocks| == Opened(es, |es|) && forall i :: 0 <= i < |blocks| ==> blocks[i] == Rebuilt(rd, es, |es|, i)
  }

  /**
    A message read to its `message_stop` holds every block as its own pieces spell it, in order, but for the tool calls
    whose arguments do not parse, and every field and usage entry as last said. It is complete exactly when the last
    stop reason said is neither null, empty nor otherwise false, and no arguments are left open.
   */
  lemma Reassembled(rd: Reader, m: Reply, es: seq<Event>)
    requires WellFormed(es, |es|) && m.content == [] && m.usage.Some?
    ensures var mid := Handled(rd, EMPTY.(message := Some(m)), es, |es|);
            && mid.Some? && Handle(rd, mid.value, MessageStop).Some?
            && var end := Handle(rd, mid.value, MessageStop).value;
            && end.message.Some?
            && (exists blocks, bad: set<int> ::
                  && Spelled(rd, es, blocks) && end.message.value.content == Kept(blocks, bad, |blocks|)
                  && forall i: int :: i in bad <==> Unparsed(rd, es, |es|, i))
            && HoldsLast(m.fields, FieldsNamed(es), |es|, end.message.value.fields)
            && end.message.value.usage.Some?
            && HoldsLast(m.usage.value, UsageNamed(es), |es|, end.message.value.usage.value)
            && (end.complete <==> StopSaid(m, es) && ArgumentsDone(es, |es|))
  {
    var n := |es|;
    Tracked(rd, m, es, n);
    TablesTracked(rd, m, es, n);
    var st := Handled(rd, EMPTY.(message := Some(m)), es, n).value;
    StopSaidIs(m, es, st.message.value);
    DropsUnparsed(rd, es, st);
    NoneOpen(es, n, st.arguments);
    hide HoldsLast, StopSaid, FieldsNamed, UsageNamed, Spelled, DeleteAll, Descending;
    hide BlocksTrack, ArgumentsTrack, UnparsedTrack, Handled, Unparsed, Kept, ArgumentsDone, WellFormed;
  }

  /** At `message_stop` the blocks whose arguments did not parse go, and no others. */
  lemma DropsUnparsed(rd: Reader, es: seq<Event>, st: State)
    requires WellFormed(es, |es|) && BlocksTrack(rd, es, |es|, st) && UnparsedTrack(rd, es, |es|, st.unparsed)
    ensures var blocks, bad := st.message.value.content, set i | i in st.unparsed;
            && Spelled(rd, es, blocks) && (forall i: int :: i in bad <==> Unparsed(rd, es, |es|, i))
            && DeleteAll(blocks, Descending(st.unparsed, |st.unparsed|)) == Some(Kept(blocks, bad, |blocks|))
  {
    hide Rebuilt;
    var n, blocks, bad := |es|, st.message.value.content, set i | i in st.unparsed;
    DescendingIs(st.unparsed, |st.unparsed|);
    var l := Descending(st.unparsed, |st.unparsed|);
    assert st.unparsed[..|st.unparsed|] == st.unparsed;
    forall x ensures Has(l, x) <==> x in bad && 0 <= x < |blocks| {
      if Has(l, x) && !(0 <= x < |blocks|) {
        NothingYet(es, n, x);
      }
    }
    DeletesBad(blocks, bad, |blocks|, [], l);
    assert blocks[..|blocks|] + [] == blocks && Kept(blocks, bad, |blocks|) + [] == Kept(blocks, bad, |blocks|);
  }

  // ----- from the text of the stream -----

  /** `ws` are the events of one message: its start, `es`, its stop. */
  ghost predicate WholeMessage(ws: seq<Written>, m: Reply, es: seq<Event>) {
    && |ws| == |es| + 2 && ws[0].event == MessageStart(m) && ws[|es| + 1].event == MessageStop
    && forall k :: 1 <= k <= |es| ==> ws[k].event == es[k - 1]
  }

  lemma {:induction false} RunHandled(rd: Reader, ws: seq<Written>, m: Reply, es: seq<Event>, n: nat)
    requires WholeMessage(ws, m, es) && n <= |es|
    ensures Run(rd, EMPTY, ws, 0)
         == match Handled(rd, EMPTY.(message := Some(m)), es, n)
            case None => None
            case Some(mid) => Run(rd, mid, ws, n + 1)
  {
    if n > 0 {
      RunHandled(rd, ws, m, es, n - 1);
    }
  }

  /**
    A message written as server-sent events and cut into chunks anywhere is rebuilt: `Reassembled` says what it holds.
   */
  lemma StreamReassembled(rd: Reader, ws: seq<Written>, chunks: seq<string>, m: Reply, es: seq<Event>)
    requires WholeMessage(ws, m, es) && WellFormed(es, |es|) && m.content == [] && m.usage.Some?
    requires (forall k :: 0 <= k < |ws| ==> Readable(rd, ws[k])) && Spells(Joined(chunks, |chunks|), ws)
    ensures var mid := Handled(rd, EMPTY.(message := Some(m)), es, |es|);
            && mid.Some? && Handle(rd, mid.value, MessageStop).Some?
            && FedAll(Draining(Taking(rd)), EMPTY, chunks, |chunks|)
                == Live(Handle(rd, mid.value, MessageStop).value, "")
  {
    hide Spelled;
    hide Handle;
    hide Handled;
    hide Readable;
    hide Spells;
    hide WellFormed;
    hide HoldsLast;
    hide StopSaid;
    hide ArgumentsDone;
    hide Run;
    StreamRoundTrip(rd, ws, chunks);
    RunHandled(rd, ws, m, es, |es|);
    Reassembled(rd, m, es);
    RunLast(rd, Handled(rd, EMPTY.(message := Some(m)), es, |es|).value, ws, |es| + 1);
  }

  lemma RunLast(rd: Reader, st: State, ws: seq<Written>, i: nat)
    requires i + 1 == |ws|
    ensures Run(rd, st, ws, i) == Handle(rd, st, ws[i].event)
  {
    hide Handle;
  }
}
