/**
  Server-sent event framing as `Capture.feed` reads it: frames cut at blank lines, payloads taken from `data:` lines.
 */
module Framing {
  import opened Basics

  // ----- the blank line between frames -----

  /** How long a match of `\r?\n\r?\n` at `p` is; 0 when there is none. */
  function SeparatorAt(s: string, p: nat): (n: nat)
    ensures n > 0 ==> 2 <= n <= 4 && p + n <= |s|
  {
    var first := if p < |s| && s[p] == '\r' then p + 1 else p;
    if first >= |s| || s[first] != '\n' then 0
    else
      var second := if first + 1 < |s| && s[first + 1] == '\r' then first + 2 else first + 1;
      if second >= |s| || s[second] != '\n' then 0 else second + 1 - p
  }

  /** A separator is two line ends in a row, each with a carriage return or without. */
  lemma SeparatorIs(s: string, p: nat, n: nat)
    requires n > 0
    ensures SeparatorAt(s, p) == n
       <==> p + n <= |s| && (s[p..p + n] == "\n\n" || s[p..p + n] == "\r\n\n" || s[p..p + n] == "\n\r\n"
                             || s[p..p + n] == "\r\n\r\n")
  {
    if p + n <= |s| {
      var cut := s[p..p + n];
      assert |cut| == n && forall k :: 0 <= k < n ==> cut[k] == s[p + k];
      if n == 2 {
        assert cut == [s[p], s[p + 1]];
      } else if n == 3 {
        assert cut == [s[p], s[p + 1], s[p + 2]];
      } else if n == 4 {
        assert cut == [s[p], s[p + 1], s[p + 2], s[p + 3]];
      }
    }
  }

  /** The separator lengths at the first `n` indices. */
  function CutsTo(s: string, n: nat): (r: seq<nat>)
    requires n <= |s|
    ensures |r| == n && forall p :: 0 <= p < n ==> p + r[p] <= |s|
  {
    if n == 0 then [] else CutsTo(s, n - 1) + [SeparatorAt(s, n - 1)]
  }

  function Cuts(s: string): (r: seq<nat>)
    ensures |r| == |s| && Fits(r)
  {
    CutsTo(s, |s|)
  }

  lemma {:induction false} CutsToAt(s: string, n: nat, p: nat)
    requires p < n <= |s|
    ensures CutsTo(s, n)[p] == SeparatorAt(s, p)
  {
    if p < n - 1 {
      CutsToAt(s, n - 1, p);
    }
  }

  lemma CutsAre(s: string)
    ensures forall p :: 0 <= p < |s| ==> Cuts(s)[p] == SeparatorAt(s, p)
  {
    forall p | 0 <= p < |s| ensures Cuts(s)[p] == SeparatorAt(s, p) {
      CutsToAt(s, |s|, p);
    }
  }

  predicate Fits(cuts: seq<nat>) {
    forall p :: 0 <= p < |cuts| ==> p + cuts[p] <= |cuts|
  }

  /** Where the leftmost separator from `i` on starts, or the length. */
  function FirstCut(cuts: seq<nat>, i: nat): (r: nat)
    requires i <= |cuts|
    ensures i <= r <= |cuts| && (r < |cuts| ==> cuts[r] > 0)
    decreases |cuts| - i
  {
    if i == |cuts| || cuts[i] > 0 then i else FirstCut(cuts, i + 1)
  }

  lemma {:induction false} FirstCutIs(cuts: seq<nat>, i: nat, k: nat)
    requires i <= k <= |cuts| && (k < |cuts| ==> cuts[k] > 0) && forall x :: i <= x < k ==> cuts[x] == 0
    ensures FirstCut(cuts, i) == k
    decreases k - i
  {
    if i < k {
      FirstCutIs(cuts, i + 1, k);
    }
  }

  lemma {:induction false} NoneBefore(cuts: seq<nat>, i: nat)
    requires i <= |cuts|
    ensures forall x :: i <= x < FirstCut(cuts, i) ==> cuts[x] == 0
    decreases |cuts| - i
  {
    if i < |cuts| && cuts[i] == 0 {
      NoneBefore(cuts, i + 1);
    }
  }

  lemma SeparatorWithin(t: string, m: nat, p: nat)
    requires m <= |t| && SeparatorAt(t[..m], p) > 0
    ensures SeparatorAt(t, p) == SeparatorAt(t[..m], p)
  {
  }

  lemma SeparatorBefore(t: string, m: nat, p: nat, x: nat)
    requires x < p && p <= m <= |t| && SeparatorAt(t[..m], p) > 0 && SeparatorAt(t[..m], x) == 0
    ensures SeparatorAt(t, x) == 0
  {
  }

  /** A whole separator of the first `m` characters is the first one of the whole text too. */
  lemma CutStays(t: string, m: nat, i: nat)
    requires i <= m <= |t| && FirstCut(Cuts(t[..m]), i) < m
    ensures var p := FirstCut(Cuts(t[..m]), i); FirstCut(Cuts(t), i) == p && Cuts(t)[p] == Cuts(t[..m])[p]
  {
    var a, c := Cuts(t[..m]), Cuts(t);
    var p := FirstCut(a, i);
    CutsAre(t[..m]);
    CutsAre(t);
    assert a[p] == SeparatorAt(t[..m], p);
    SeparatorWithin(t, m, p);
    NoneBefore(a, i);
    forall x | i <= x < p ensures c[x] == 0 {
      assert a[x] == SeparatorAt(t[..m], x);
      SeparatorBefore(t, m, p, x);
    }
    FirstCutIs(c, i, p);
  }

  lemma CutsShift(s: string, k: nat)
    requires k <= |s|
    ensures Cuts(s[k..]) == Cuts(s)[k..]
  {
    CutsAre(s);
    CutsAre(s[k..]);
    forall p | 0 <= p < |s| - k ensures Cuts(s[k..])[p] == Cuts(s)[k..][p] {
      SeparatorShift(s, k, k + p);
    }
  }

  lemma SeparatorShift(s: string, k: nat, i: nat)
    requires k <= i <= |s|
    ensures SeparatorAt(s[k..], i - k) == SeparatorAt(s, i)
  {
  }

  lemma {:induction false} FirstCutShift(cuts: seq<nat>, k: nat, i: nat)
    requires k <= i <= |cuts|
    ensures k + FirstCut(cuts[k..], i - k) == FirstCut(cuts, i)
    decreases |cuts| - i
  {
    if i < |cuts| && cuts[i] == 0 {
      FirstCutShift(cuts, k, i + 1);
    }
  }

  // ----- the payload of a frame -----

  /** Where Python's `splitlines` ends a line. */
  predicate Break(c: char) {
    '\n' <= c <= '\r' || '\U{1c}' <= c <= '\U{1e}' || c == '\U{85}' || c == '\U{2028}' || c == '\U{2029}'
  }

  /** The ten characters that end a line. */
  lemma BreaksAre(c: char)
    ensures Break(c)
       <==> c in ['\n', '\U{b}', '\U{c}', '\r', '\U{1c}', '\U{1d}', '\U{1e}', '\U{85}', '\U{2028}', '\U{2029}']
  {
    assert '\n' <= c <= '\r' ==> c as int in [10, 11, 12, 13];
    assert '\U{1c}' <= c <= '\U{1e}' ==> c as int in [28, 29, 30];
  }

  predicate Unbroken(s: string) {
    forall k :: 0 <= k < |s| ==> !Break(s[k])
  }

  /** The end of the line that holds index `i`. */
  function LineEnd(s: string, i: nat): (r: nat)
    requires i <= |s|
    ensures i <= r <= |s| && (r < |s| ==> Break(s[r])) && forall k :: i <= k < r ==> !Break(s[k])
    decreases |s| - i
  {
    if i == |s| || Break(s[i]) then i else LineEnd(s, i + 1)
  }

  /** Where the line after the one ending at `end` starts. */
  function NextLine(s: string, end: nat): (r: nat)
    requires end <= |s|
    ensures if end < |s| then end < r <= |s| else r == end
  {
    if end == |s| then end
    else if s[end] == '\r' && end + 1 < |s| && s[end + 1] == '\n' then end + 2 else end + 1
  }

  const FIELD := "data:"

  function Unindented(s: string): (r: string)
    ensures |r| <= |s|
  {
    if s != [] && s[0] == ' ' then Unindented(s[1..]) else s
  }

  /** What the `data:` lines from index `i` on carry. */
  function DataLines(s: string, i: nat): List<string>
    requires i <= |s|
    decreases |s| - i
  {
    if i == |s| then Nil
    else
      var end := LineEnd(s, i);
      var line, rest := s[i..end], DataLines(s, NextLine(s, end));
      if StartsWith(line, FIELD) then Cons(Unindented(line[|FIELD|..]), rest) else rest
  }

  function JoinLines(l: List<string>): string {
    if l.Nil? then "" else if l.tail.Nil? then l.head else l.head + "\n" + JoinLines(l.tail)
  }

  /** The payload of a frame; empty when it has no `data:` line. */
  function Data(frame: string): string {
    JoinLines(DataLines(frame, 0))
  }

  /** Every data line costs at least its field name. */
  lemma {:induction false} DataIsShorter(s: string, i: nat)
    requires i <= |s|
    ensures DataLines(s, i).Cons? ==> |JoinLines(DataLines(s, i))| + |FIELD| <= |s| - i
    decreases |s| - i
  {
    if i < |s| {
      DataIsShorter(s, NextLine(s, LineEnd(s, i)));
    }
  }

  /** What a `data:` line gives back unchanged. */
  predicate Clean(payload: string) {
    Unbroken(payload) && !StartsWith(payload, " ")
  }

  /** A one-line payload comes back exactly when nothing in it ends a line for `splitlines` and it is not indented. */
  lemma PayloadComesBack(payload: string)
    ensures Data("data: " + payload) == payload <==> Clean(payload)
  {
    var s := "data: " + payload;
    var end := LineEnd(s, 0);
    assert forall k :: 6 <= k < |s| ==> s[k] == payload[k - 6];
    assert s[..6] == "data: " && end >= 6;
    var first, rest := Unindented(payload[..end - 6]), DataLines(s, NextLine(s, end));
    FirstLine(payload, end);
    if end == |s| {
      assert payload[..end - 6] == payload;
      assert forall k :: 0 <= k < |payload| ==> payload[k] == s[k + 6];
      UnindentedIs(payload);
    } else {
      DataIsShorter(s, NextLine(s, end));
      assert |JoinLines(Cons(first, rest))| <= |first| + if rest.Nil? then 0 else 1 + |JoinLines(rest)|;
      assert Break(payload[end - 6]);
    }
  }

  lemma FirstLine(payload: string, end: nat)
    requires end == LineEnd("data: " + payload, 0) && end >= 6
    ensures var s := "data: " + payload;
            DataLines(s, 0) == Cons(Unindented(payload[..end - 6]), DataLines(s, NextLine(s, end)))
  {
    var s := "data: " + payload;
    var line := s[..end];
    assert line == s[0..end] && line[..5] == FIELD && line[5..] == [' '] + payload[..end - 6];
    assert line[5..][1..] == payload[..end - 6];
  }

  lemma UnindentedIs(s: string)
    ensures Unindented(s) == s <==> !StartsWith(s, " ")
  {
    if s != [] && s[0] == ' ' {
      assert |Unindented(s)| <= |s[1..]|;
    }
  }

  /** A raw U+2028, which JSON allows inside a string, cuts the payload short. */
  lemma LineSeparatorCutsPayload()
    ensures Data("data: \"a\U{2028}b\"") == "\"a"
  {
    var s := "data: \"a\U{2028}b\"";
    assert !Break(s[0]) && !Break(s[1]) && !Break(s[2]) && !Break(s[3]) && !Break(s[4]) && !Break(s[5]) && !Break(s[6])
           && !Break(s[7]) && Break(s[8]) && !Break(s[9]) && !Break(s[10]);
    assert LineEnd(s, 0) == 8;
    assert LineEnd(s, 9) == 11;
    assert s[..8][..5] == FIELD && s[..8][5..] == " \"a" && " \"a"[1..] == "\"a";
    assert s[9..11] == "b\"";
  }

  // ----- one frame as the API writes it -----

  /** A line end: LF, or CR LF. */
  function Eol(crlf: bool): string {
    if crlf then "\r\n" else "\n"
  }

  function FrameBody(name: string, payload: string, crlf: bool): string {
    "event: " + name + Eol(crlf) + ("data: " + payload)
  }

  lemma {:induction false} LineEndIs(s: string, i: nat, e: nat)
    requires i <= e <= |s| && (e < |s| ==> Break(s[e])) && forall k :: i <= k < e ==> !Break(s[k])
    ensures LineEnd(s, i) == e
    decreases e - i
  {
    if i < e {
      LineEndIs(s, i + 1, e);
    }
  }

  lemma FrameData(name: string, payload: string, crlf: bool)
    requires Unbroken(name) && Clean(payload)
    ensures Data(FrameBody(name, payload, crlf)) == payload
  {
    var s := FrameBody(name, payload, crlf);
    var h, line := "event: " + name, "data: " + payload;
    var e := |h|;
    var next := e + |Eol(crlf)|;
    assert s[..e] == h && s[next..] == line;
    assert forall k :: 0 <= k < e ==> s[k] == h[k];
    assert s[e] == Eol(crlf)[0] && s[next] == line[0] == 'd' && (crlf ==> s[e + 1] == '\n');
    LineEndIs(s, 0, e);
    assert NextLine(s, e) == next;
    assert s[0..e] == h && h[0] == 'e';
    LastLine(s, next, payload);
  }

  /** A last line that is a clean data line. */
  lemma LastLine(s: string, i: nat, payload: string)
    requires i < |s| && s[i..] == "data: " + payload && Clean(payload)
    ensures DataLines(s, i) == Cons(payload, Nil)
  {
    var line := s[i..];
    assert forall k :: i <= k < |s| ==> s[k] == line[k - i];
    assert line[..6] == "data: " && line[6..] == payload;
    LineEndIs(s, i, |s|);
    assert s[i..|s|] == line && line[..5] == FIELD;
    assert line[5..] == [' '] + payload && line[5..][1..] == payload;
    UnindentedIs(payload);
  }

  /** What is left of a payload has lost its leading spaces and nothing else. */
  lemma {:induction false} UnindentedDrops(s: string)
    ensures var r := Unindented(s);
            && s[|s| - |r|..] == r && (forall k :: 0 <= k < |s| - |r| ==> s[k] == ' ') && (r != "" ==> r[0] != ' ')
  {
    if s != [] && s[0] == ' ' {
      var r := Unindented(s[1..]);
      UnindentedDrops(s[1..]);
      assert s[|s| - |r|..] == s[1..][|s[1..]| - |r|..];
      forall k | 0 <= k < |s| - |r| ensures s[k] == ' ' {
        assert k > 0 ==> s[k] == s[1..][k - 1];
      }
    }
  }

  /** The lines from index `i` on; every one but the last has its line end. */
  function LinesFrom(lines: seq<string>, crlf: seq<bool>, i: nat): string
    requires |lines| == |crlf|
    decreases |lines| - i
  {
    if i >= |lines| then ""
    else if i + 1 == |lines| then lines[i]
    else lines[i] + (Eol(crlf[i]) + LinesFrom(lines, crlf, i + 1))
  }

  /** What a line carries, before `rest`: what follows its field name, if that is the one. */
  function LineCarries(line: string, rest: List<string>): List<string> {
    if |line| >= 5 && line[..5] == "data:" then Cons(Unindented(line[5..]), rest) else rest
  }

  function Carried(lines: seq<string>, i: nat): List<string>
    decreases |lines| - i
  {
    if i >= |lines| then Nil else LineCarries(lines[i], Carried(lines, i + 1))
  }

  lemma LineTaken(s: string, p: nat, line: string, crlf: bool, after: string)
    requires p <= |s| && s[p..] == line + (Eol(crlf) + after) && Unbroken(line)
    ensures var next := p + |line| + |Eol(crlf)|;
            next <= |s| && s[next..] == after && DataLines(s, p) == LineCarries(line, DataLines(s, next))
  {
    LineAt(s, p, line, crlf, after);
    hide LineEnd, NextLine, Unindented, Break, Unbroken;
  }

  lemma LineAt(s: string, p: nat, line: string, crlf: bool, after: string)
    requires p <= |s| && s[p..] == line + (Eol(crlf) + after) && Unbroken(line)
    ensures var e, next := p + |line|, p + |line| + |Eol(crlf)|;
            e < next <= |s| && LineEnd(s, p) == e && s[p..e] == line && NextLine(s, e) == next && s[next..] == after
  {
    hide LineEnd;
    var e, end, tail := p + |line|, Eol(crlf), line + (Eol(crlf) + after);
    assert |tail| == |line| + |end| + |after|;
    assert forall k :: 0 <= k < |tail| ==> s[p + k] == tail[k];
    assert forall k :: 0 <= k < |line| ==> s[p + k] == line[k];
    assert s[e] == end[0] && (crlf ==> s[e + 1] == end[1]);
    LineEndIs(s, p, e);
    assert s[p..e] == line && s[e + |end|..] == after;
  }

  lemma LastTaken(s: string, p: nat, line: string)
    requires p <= |s| && s[p..] == line && Unbroken(line)
    ensures DataLines(s, p) == LineCarries(line, Nil)
  {
    assert forall k :: p <= k < |s| ==> s[k] == line[k - p];
    LineEndIs(s, p, |s|);
    assert s[p..|s|] == line;
  }

  /** A frame carries what its `data:` lines carry, in order; its other lines carry nothing. */
  lemma {:induction false} LinesCarry(s: string, p: nat, lines: seq<string>, crlf: seq<bool>, i: nat)
    requires |lines| == |crlf| && i < |lines| && forall k :: 0 <= k < |lines| ==> Unbroken(lines[k])
    requires p <= |s| && s[p..] == LinesFrom(lines, crlf, i)
    ensures DataLines(s, p) == Carried(lines, i)
    decreases |lines| - i
  {
    hide LineCarries, DataLines, Eol, Unbroken, LinesFrom, Carried;
    CarriedOn(lines, crlf, i);
    if i + 1 < |lines| {
      LineTaken(s, p, lines[i], crlf[i], LinesFrom(lines, crlf, i + 1));
      LinesCarry(s, p + |lines[i]| + |Eol(crlf[i])|, lines, crlf, i + 1);
    } else {
      LastTaken(s, p, lines[i]);
    }
  }

  lemma CarriedOn(lines: seq<string>, crlf: seq<bool>, i: nat)
    requires |lines| == |crlf| && i < |lines|
    ensures Carried(lines, i) == LineCarries(lines[i], if i + 1 < |lines| then Carried(lines, i + 1) else Nil)
    ensures LinesFrom(lines, crlf, i)
         == if i + 1 < |lines| then lines[i] + (Eol(crlf[i]) + LinesFrom(lines, crlf, i + 1)) else lines[i]
  {
    hide LineCarries, Eol;
    assert Carried(lines, |lines|) == Nil;
  }

  /** Two data lines are joined by one line feed. */
  lemma TwoLinesJoin(a: string, b: string, crlf: bool)
    requires Clean(a) && Clean(b)
    ensures Data("data: " + a + (Eol(crlf) + ("data: " + b))) == a + "\n" + b
  {
    hide DataLines, LineCarries, Clean;
    var first, second := "data: " + a, "data: " + b;
    var s := first + (Eol(crlf) + second);
    CarriesPayload(a, Cons(b, Nil));
    CarriesPayload(b, Nil);
    assert s[0..] == s;
    LineTaken(s, 0, first, crlf, second);
    LastTaken(s, |first| + |Eol(crlf)|, second);
    assert JoinLines(Cons(b, Nil)) == b;
  }

  lemma CarriesPayload(payload: string, rest: List<string>)
    requires Clean(payload)
    ensures Unbroken("data: " + payload) && LineCarries("data: " + payload, rest) == Cons(payload, rest)
  {
    var line := "data: " + payload;
    UnbrokenLine(payload);
    assert line[..5] == "data:" && line[5..] == " " + payload && (" " + payload)[1..] == payload;
    UnindentedIs(payload);
  }

  lemma UnbrokenLine(payload: string)
    requires Unbroken(payload)
    ensures Unbroken("data: " + payload)
  {
    var line := "data: " + payload;
    forall k | 0 <= k < |line| ensures !Break(line[k]) {
      if k >= 6 {
        assert line[k] == payload[k - 6];
      }
    }
  }

  lemma FrameCompact(name: string, payload: string, crlf: bool)
    requires Unbroken(name) && Clean(payload)
    ensures Compact(FrameBody(name, payload, crlf))
  {
    var body, h, line := FrameBody(name, payload, crlf), "event: " + name, "data: " + payload;
    var e, n := |h|, |Eol(crlf)|;
    assert forall k :: 0 <= k < e ==> body[k] == h[k];
    assert body[e..][..n] == Eol(crlf);
    assert forall k :: e + n <= k < |body| ==> body[k] == line[k - e - n];
    LinesCompact(body, e, crlf);
  }

  lemma LinesCompact(s: string, e: nat, crlf: bool)
    requires var n := |Eol(crlf)|;
             e + n < |s| && s[e] == Eol(crlf)[0] && (crlf ==> s[e + 1] == '\n')
             && (forall k :: 0 <= k < e ==> !Break(s[k])) && forall k :: e + n <= k < |s| ==> !Break(s[k])
    ensures Compact(s)
  {
    CutsAre(s);
    FirstCutIs(Cuts(s), 0, |s|);
  }

  // ----- the stream -----

  /** How far a text was read: what its frames did, and where the frame that is not whole yet starts. */
  datatype Stop<S> = At(state: S, from: nat) | Broken

  /** Every whole frame from index `i` on taken, in order; `take` is None when it raises. */
  function DrainFrom<S>(take: (S, string) -> Option<S>, st: S, s: string, cuts: seq<nat>, i: nat): (r: Stop<S>)
    requires i <= |s| == |cuts| && Fits(cuts)
    ensures r.At? ==> i <= r.from <= |s|
    decreases |s| - i
  {
    var p := FirstCut(cuts, i);
    if p == |s| then At(st, i)
    else
      match take(st, s[i..p])
      case None => Broken
      case Some(next) => DrainFrom(take, next, s, cuts, p + cuts[p])
  }

  datatype Outcome<S> = Live(state: S, pending: string) | Raised

  /** What a reading of `s` leaves. */
  function Ended<S>(s: string, r: Stop<S>): Outcome<S>
    requires r.At? ==> r.from <= |s|
  {
    match r
    case Broken => Raised
    case At(end, i) => Live(end, s[i..])
  }

  function Drain<S>(take: (S, string) -> Option<S>, st: S, pending: string): Outcome<S> {
    Ended(pending, DrainFrom(take, st, pending, Cuts(pending), 0))
  }

  function Draining<S>(take: (S, string) -> Option<S>): (S, string) -> Outcome<S> {
    (st: S, pending: string) => Drain(take, st, pending)
  }

  /** One more chunk. */
  function Fed<S>(drain: (S, string) -> Outcome<S>, o: Outcome<S>, chunk: string): Outcome<S> {
    if o.Raised? then Raised else drain(o.state, o.pending + chunk)
  }

  /** After the first `n` chunks. */
  function FedAll<S>(drain: (S, string) -> Outcome<S>, st: S, chunks: seq<string>, n: nat): Outcome<S>
    requires n <= |chunks|
  {
    if n == 0 then Live(st, "") else Fed(drain, FedAll(drain, st, chunks, n - 1), chunks[n - 1])
  }

  function Joined(chunks: seq<string>, n: nat): string
    requires n <= |chunks|
  {
    if n == 0 then "" else Joined(chunks, n - 1) + chunks[n - 1]
  }

  /** Every separator of the first text is one of the second, and the first from any index on. */
  ghost predicate Stay(a: seq<nat>, c: seq<nat>) {
    && |a| <= |c|
    && forall i :: 0 <= i <= |a| && FirstCut(a, i) < |a| ==>
         FirstCut(c, i) == FirstCut(a, i) && c[FirstCut(a, i)] == a[FirstCut(a, i)]
  }

  /** Reading on after more text came is reading all of it. */
  lemma {:induction false} DrainOn<S>(
      take: (S, string) -> Option<S>, st: S, a: string, x: seq<nat>, t: string, c: seq<nat>, i: nat)
    requires i <= |a| == |x| && |t| == |c| && Fits(x) && Fits(c) && Stay(x, c) && t[..|a|] == a
    ensures DrainFrom(take, st, t, c, i)
         == match DrainFrom(take, st, a, x, i) case Broken => Broken case At(mid, k) => DrainFrom(take, mid, t, c, k)
    decreases |a| - i
  {
    hide DrainFrom;
    hide FirstCut;
    var p := FirstCut(x, i);
    DrainStep(take, st, a, x, i, p);
    if p < |a| {
      DrainStep(take, st, t, c, i, p);
      SliceStays(a, t, i, p);
      match take(st, t[i..p])
      case None =>
      case Some(next) => DrainOn(take, next, a, x, t, c, p + x[p]);
    }
  }

  lemma SliceStays(a: string, t: string, i: nat, p: nat)
    requires i <= p <= |a| <= |t| && t[..|a|] == a
    ensures a[i..p] == t[i..p]
  {
  }

  /** What was read before does not matter. */
  lemma {:induction false} DrainShift<S>(take: (S, string) -> Option<S>, st: S, s: string, cuts: seq<nat>, k: nat,
      i: nat)
    requires k <= i <= |s| == |cuts| && Fits(cuts)
    ensures DrainFrom(take, st, s[k..], cuts[k..], i - k)
         == match DrainFrom(take, st, s, cuts, i) case Broken => Broken case At(end, j) => At(end, j - k)
    decreases |s| - i
  {
    hide DrainFrom;
    hide FirstCut;
    FirstCutShift(cuts, k, i);
    var p := FirstCut(cuts, i);
    DrainStep(take, st, s, cuts, i, p);
    DrainStep(take, st, s[k..], cuts[k..], i - k, p - k);
    if p < |s| {
      SliceShift(s, k, i, p);
      match take(st, s[i..p])
      case None =>
      case Some(next) => DrainShift(take, next, s, cuts, k, p + cuts[p]);
    }
  }

  lemma SliceShift(s: string, k: nat, i: nat, end: nat)
    requires k <= i <= end <= |s|
    ensures s[k..][i - k..end - k] == s[i..end]
  {
  }

  lemma EndedShift<S>(s: string, k: nat, r: Stop<S>)
    requires k <= |s| && (r.At? ==> k <= r.from <= |s|)
    ensures Ended(s[k..], match r case Broken => Broken case At(end, j) => At(end, j - k)) == Ended(s, r)
  {
    if r.At? {
      assert s[k..][r.from - k..] == s[r.from..];
    }
  }

  /** What was read from index `i` on, as a text of its own. */
  lemma DrainRest<S>(take: (S, string) -> Option<S>, st: S, s: string, cuts: seq<nat>, i: nat)
    requires i <= |s| && cuts == Cuts(s)
    ensures Drain(take, st, s[i..]) == Ended(s, DrainFrom(take, st, s, cuts, i))
  {
    CutsShift(s, i);
    DrainShift(take, st, s, cuts, i, i);
    EndedShift(s, i, DrainFrom(take, st, s, cuts, i));
  }

  lemma CutsStay(a: string, t: string)
    requires |a| <= |t| && t[..|a|] == a
    ensures Stay(Cuts(a), Cuts(t))
  {
    forall i | 0 <= i <= |a| && FirstCut(Cuts(a), i) < |a|
      ensures var p := FirstCut(Cuts(a), i); FirstCut(Cuts(t), i) == p && Cuts(t)[p] == Cuts(a)[p]
    {
      CutStays(t, |a|, i);
    }
  }

  lemma CutOfRest(whole: string, from: nat, pending: string, p: nat)
    requires from <= |whole| && pending == whole[from..] && p == FirstCut(Cuts(pending), 0)
    ensures FirstCut(Cuts(whole), from) == from + p && pending[..p] == whole[from..from + p]
    ensures p < |pending| ==>
              var n := Cuts(pending)[p];
              Cuts(whole)[from + p] == n && from + p + n <= |whole| && pending[p + n..] == whole[from + p + n..]
  {
    CutsShift(whole, from);
    FirstCutShift(Cuts(whole), from, from);
  }

  /** One turn of the reading loop: the text from index `from` on, up to the separator at `to`. */
  lemma DrainStep<S>(take: (S, string) -> Option<S>, st: S, whole: string, cuts: seq<nat>, from: nat, to: nat)
    requires from <= |whole| == |cuts| && Fits(cuts) && FirstCut(cuts, from) == to
    ensures to == |whole| ==> DrainFrom(take, st, whole, cuts, from) == At(st, from)
    ensures to < |whole| ==>
              DrainFrom(take, st, whole, cuts, from)
              == match take(st, whole[from..to])
                 case None => Broken
                 case Some(mid) => DrainFrom(take, mid, whole, cuts, to + cuts[to])
  {
  }

  /**
    The reading loop: what is pending is the text from index `from` on, and reading it on leaves what reading it all
    does.
   */
  ghost predicate Partway<S>(take: (S, string) -> Option<S>, st: S, whole: string, from: nat, pending: string,
      end: Outcome<S>) {
    from <= |whole| && pending == whole[from..] && Ended(whole, DrainFrom(take, st, whole, Cuts(whole), from)) == end
  }

  lemma PartwayStarts<S>(take: (S, string) -> Option<S>, st: S, whole: string)
    ensures Partway(take, st, whole, 0, whole, Drain(take, st, whole))
  {
    assert whole[0..] == whole;
  }

  lemma PartwayEnds<S>(take: (S, string) -> Option<S>, st: S, whole: string, from: nat, pending: string,
      end: Outcome<S>)
    requires Partway(take, st, whole, from, pending, end) && FirstCut(Cuts(pending), 0) == |pending|
    ensures end == Live(st, pending)
  {
    CutOfRest(whole, from, pending, |pending|);
  }

  lemma PartwayStep<S>(
      take: (S, string) -> Option<S>, st: S, whole: string, from: nat, pending: string, end: Outcome<S>, p: nat)
      returns (next: nat)
    requires Partway(take, st, whole, from, pending, end) && FirstCut(Cuts(pending), 0) == p < |pending|
    ensures take(st, pending[..p]).None? ==> end == Raised
    ensures take(st, pending[..p]).Some? ==>
              Partway(take, take(st, pending[..p]).value, whole, next, pending[p + Cuts(pending)[p]..], end)
    ensures from < next <= |whole|
  {
    hide FirstCut;
    hide Cuts;
    hide DrainFrom;
    CutOfRest(whole, from, pending, p);
    DrainStep(take, st, whole, Cuts(whole), from, from + p);
    next := from + p + Cuts(pending)[p];
  }

  lemma Resume<S>(take: (S, string) -> Option<S>, st: S, a: string, b: string, t: string, k: nat)
    requires k <= |a| && t == a + b
    ensures Drain(take, st, a[k..] + b) == Ended(t, DrainFrom(take, st, t, Cuts(t), k))
  {
    assert t[k..] == a[k..] + b;
    DrainRest(take, st, t, Cuts(t), k);
  }

  lemma DrainMore<S>(take: (S, string) -> Option<S>, st: S, a: string, b: string, t: string)
    requires t == a + b
    ensures Drain(take, st, t) == Fed(Draining(take), Drain(take, st, a), b)
  {
    var x, c := Cuts(a), Cuts(t);
    CutsStay(a, t);
    DrainOn(take, st, a, x, t, c, 0);
    var r := DrainFrom(take, st, a, x, 0);
    if r.At? {
      Resume(take, r.state, a, b, t, r.from);
    }
  }

  lemma {:induction false} FedJoined<S>(drain: (S, string) -> Outcome<S>, st: S, chunks: seq<string>, n: nat)
    requires n <= |chunks| && drain(st, "") == Live(st, "")
    requires forall a, b :: drain(st, a + b) == Fed(drain, drain(st, a), b)
    ensures FedAll(drain, st, chunks, n) == drain(st, Joined(chunks, n))
  {
    if n > 0 {
      FedJoined(drain, st, chunks, n - 1);
      assert drain(st, Joined(chunks, n - 1) + chunks[n - 1])
          == Fed(drain, drain(st, Joined(chunks, n - 1)), chunks[n - 1]);
    }
  }

  /** Where the text is cut into chunks does not matter, inside a line end or not. */
  lemma ChunksDoNotMatter<S>(take: (S, string) -> Option<S>, st: S, chunks: seq<string>)
    ensures FedAll(Draining(take), st, chunks, |chunks|) == Drain(take, st, Joined(chunks, |chunks|))
  {
    var drain := Draining(take);
    DrainNothing(take, st);
    forall a, b ensures drain(st, a + b) == Fed(drain, drain(st, a), b) {
      DrainMore(take, st, a, b, a + b);
    }
    FedJoined(drain, st, chunks, |chunks|);
  }

  lemma DrainNothing<S>(take: (S, string) -> Option<S>, st: S)
    ensures Drain(take, st, "") == Live(st, "")
  {
  }

  // ----- the encoded stream -----

  /** A text that starts no separator, not even with line ends after it. */
  predicate Compact(body: string) {
    body != "" && body[|body| - 1] != '\r' && body[|body| - 1] != '\n' && FirstCut(Cuts(body), 0) == |body|
  }

  /** A frame's last line end, and the blank line after it. */
  predicate BlankAt(t: string, p: nat, crlf: bool) {
    if crlf then p + 4 <= |t| && t[p] == '\r' && t[p + 1] == '\n' && t[p + 2] == '\r' && t[p + 3] == '\n'
    else p + 2 <= |t| && t[p] == '\n' && t[p + 1] == '\n'
  }

  /**
    From index `from` on, a text is made of the frames from index `i` on, each with a blank line after it;
    `crlf[k]` tells how the lines of frame `k` end.
   */
  ghost predicate Encodes(t: string, from: nat, frames: seq<string>, crlf: seq<bool>, i: nat)
    requires |frames| == |crlf| && from <= |t|
    decreases |frames| - i
  {
    if i >= |frames| then from == |t|
    else
      var to := from + |frames[i]|;
      && BlankAt(t, to, crlf[i]) && t[from..to] == frames[i]
      && Encodes(t, to + if crlf[i] then 4 else 2, frames, crlf, i + 1)
  }

  /** The frames from index `i` on as they are written: each with its line end twice after it. */
  function TextOf(frames: seq<string>, crlf: seq<bool>, i: nat): string
    requires |frames| == |crlf|
    decreases |frames| - i
  {
    if i >= |frames| then "" else frames[i] + (Eol(crlf[i]) + Eol(crlf[i]) + TextOf(frames, crlf, i + 1))
  }

  /** What is written that way is made of these frames. */
  lemma {:induction false} TextEncodes(t: string, from: nat, frames: seq<string>, crlf: seq<bool>, i: nat)
    requires |frames| == |crlf| && from <= |t| && t[from..] == TextOf(frames, crlf, i)
    ensures Encodes(t, from, frames, crlf, i)
    decreases |frames| - i
  {
    if i < |frames| {
      var body, end, after := frames[i], Eol(crlf[i]) + Eol(crlf[i]), TextOf(frames, crlf, i + 1);
      FrameWritten(t, from, body, crlf[i], end, after);
      TextEncodes(t, from + |body| + |end|, frames, crlf, i + 1);
    }
  }

  lemma FrameWritten(t: string, from: nat, body: string, crlf: bool, end: string, after: string)
    requires from <= |t| && t[from..] == body + (end + after) && end == Eol(crlf) + Eol(crlf)
    ensures var to := from + |body|;
            && |end| == (if crlf then 4 else 2) && to + |end| <= |t| && BlankAt(t, to, crlf) && t[from..to] == body
            && t[to + |end|..] == after
  {
    var to, whole := from + |body|, body + (end + after);
    assert |whole| == |t| - from;
    assert forall k :: 0 <= k < |whole| ==> t[from + k] == whole[k];
    assert forall k :: 0 <= k < |end| ==> t[to + k] == end[k];
    assert t[to + |end|..] == after;
  }

  /** The frames from index `i` on, taken one after the other. */
  function RunFrames<S>(take: (S, string) -> Option<S>, st: S, frames: seq<string>, i: nat): Option<S>
    decreases |frames| - i
  {
    if i >= |frames| then Some(st)
    else
      match take(st, frames[i])
      case None => None
      case Some(next) => RunFrames(take, next, frames, i + 1)
  }

  /** From index `from` of a text on, the frames from index `i` on lie one after the other, and nothing follows. */
  ghost predicate Laid(t: string, cuts: seq<nat>, from: nat, frames: seq<string>, i: nat)
    requires from <= |t| == |cuts| && Fits(cuts)
    decreases |frames| - i
  {
    if i >= |frames| then from == |t|
    else
      var to := FirstCut(cuts, from);
      to < |t| && t[from..to] == frames[i] && Laid(t, cuts, to + cuts[to], frames, i + 1)
  }

  lemma {:induction false} DrainLaid<S>(
      take: (S, string) -> Option<S>, st: S, t: string, cuts: seq<nat>, from: nat, frames: seq<string>, i: nat)
    requires from <= |t| == |cuts| && Fits(cuts) && Laid(t, cuts, from, frames, i)
    ensures DrainFrom(take, st, t, cuts, from)
         == match RunFrames(take, st, frames, i) case None => Broken case Some(end) => At(end, |t|)
    decreases |frames| - i
  {
    if i < |frames| {
      var to := FirstCut(cuts, from);
      match take(st, frames[i])
      case None =>
      case Some(next) => DrainLaid(take, next, t, cuts, to + cuts[to], frames, i + 1);
    }
  }

  lemma QuietBody(t: string, from: nat, to: nat, x: nat)
    requires from <= x < to <= |t| && Compact(t[from..to])
    ensures SeparatorAt(t, x) == 0
  {
    var body := t[from..to];
    CutsAre(body);
    NoneBefore(Cuts(body), 0);
    assert Cuts(body)[x - from] == SeparatorAt(body, x - from) == 0;
    assert t[to - 1] == body[|body| - 1];
  }

  /** A compact text ends at the blank line after it. */
  lemma FrameEnds(t: string, cuts: seq<nat>, from: nat, to: nat, body: string, crlf: bool)
    requires from <= to <= |t| && t[from..to] == body && Compact(body) && BlankAt(t, to, crlf) && cuts == Cuts(t)
    ensures FirstCut(cuts, from) == to < |t| && cuts[to] == if crlf then 4 else 2
  {
    CutsAre(t);
    forall x | from <= x < to ensures cuts[x] == 0 {
      QuietBody(t, from, to, x);
    }
    assert SeparatorAt(t, to) == if crlf then 4 else 2;
    FirstCutIs(cuts, from, to);
  }

  lemma {:induction false} StreamLaid(t: string, cuts: seq<nat>, from: nat, frames: seq<string>, crlf: seq<bool>,
      i: nat)
    requires from <= |t| && |frames| == |crlf| && Encodes(t, from, frames, crlf, i) && cuts == Cuts(t)
    requires forall k :: 0 <= k < |frames| ==> Compact(frames[k])
    ensures Laid(t, cuts, from, frames, i)
    decreases |frames| - i
  {
    if i < |frames| {
      var to := from + |frames[i]|;
      FrameEnds(t, cuts, from, to, frames[i], crlf[i]);
      StreamLaid(t, cuts, to + cuts[to], frames, crlf, i + 1);
    }
  }

  /** A stream is read frame by frame, and nothing of it is left. */
  lemma StreamRuns<S>(take: (S, string) -> Option<S>, st: S, frames: seq<string>, crlf: seq<bool>, t: string)
    requires |frames| == |crlf| && Encodes(t, 0, frames, crlf, 0)
    requires forall k :: 0 <= k < |frames| ==> Compact(frames[k])
    ensures Drain(take, st, t)
         == match RunFrames(take, st, frames, 0) case None => Raised case Some(end) => Live(end, "")
  {
    StreamLaid(t, Cuts(t), 0, frames, crlf, 0);
    DrainLaid(take, st, t, Cuts(t), 0, frames, 0);
  }
}
