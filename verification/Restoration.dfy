/** `restore_queried_turn`: align the turn native sent with the frame the host queried. */
module Restoration {
  import opened Basics
  import opened Wire

  // ----- what native may do to a frame, without reference to the matcher -----

  /** A frame read left to right: a maximal run of bare text opens and gives its characters. */
  datatype Atom = Open | Ch(c: char) | Prot(block: Block)

  function Chars(s: string): (r: seq<Atom>)
    ensures |r| == |s| && forall k :: 0 <= k < |s| ==> r[k] == Ch(s[k])
  {
    seq(|s|, k requires 0 <= k < |s| => Ch(s[k]))
  }

  function FlatOne(b: Block, inRun: bool): seq<Atom> {
    if !Bare(b) then [Prot(b)] else (if inRun then [] else [Open]) + Chars(b.text)
  }

  function Flat(bs: seq<Block>, inRun: bool): seq<Atom> {
    if bs == [] then []
    else FlatOne(bs[0], inRun) + Flat(bs[1..], Bare(bs[0]))
  }

  lemma {:induction false} FlatFrom(bs: seq<Block>, inRun: bool)
    ensures forall k :: 0 <= k < |Flat(bs, inRun)| && Flat(bs, inRun)[k].Prot? ==> Flat(bs, inRun)[k].block in bs
  {
    if bs != [] {
      FlatFrom(bs[1..], Bare(bs[0]));
    }
  }

  /** The whole frame as atoms. */
  function Atoms(bs: seq<Block>): (r: seq<Atom>)
    ensures forall k :: 0 <= k < |r| && r[k].Prot? ==> r[k].block in bs
  {
    FlatFrom(bs, false);
    Flat(bs, false)
  }

  predicate AllBare(bs: seq<Block>) {
    forall k :: 0 <= k < |bs| ==> Bare(bs[k])
  }

  /** A missing `is_error` means false; anything but a boolean has no meaning. */
  predicate SameFlag(a: Flag, b: Flag) {
    !a.Invalid? && !b.Invalid? && (a == Bool(true) <==> b == Bool(true))
  }

  function Join(bs: seq<Block>): string
    requires AllBare(bs)
  {
    if bs == [] then "" else bs[0].text + Join(bs[1..])
  }

  /** The text of a string, or of a list of bare text blocks. */
  function AllText(c: Content): Option<string> {
    match c
    case Str(s) => Some(s)
    case Parts(bs) => if AllBare(bs) then Some(Join(bs)) else None
    case _ => None
  }

  /** How many texts a list begins with, marked or not. */
  function TextLength(bs: seq<Block>): (n: nat)
    ensures n <= |bs| && (n < |bs| ==> !Soft(bs[n]))
    ensures forall k :: 0 <= k < n ==> Soft(bs[k])
  {
    if bs != [] && Soft(bs[0]) then 1 + TextLength(bs[1..]) else 0
  }

  /** How many bare text blocks a list begins with. */
  function RunLength(bs: seq<Block>): (n: nat)
    ensures n <= |bs|
    ensures forall k :: 0 <= k < n ==> Bare(bs[k])
    ensures n < |bs| ==> !Bare(bs[n])
  {
    if bs != [] && Bare(bs[0]) then 1 + RunLength(bs[1..]) else 0
  }

  /** How many marked texts a run begins with. */
  function Lead(run: seq<Block>): (n: nat)
    ensures n <= |run| && (n < |run| ==> !Marked(run[n]))
    ensures forall k :: 0 <= k < n ==> Marked(run[k])
  {
    if run != [] && Marked(run[0]) then 1 + Lead(run[1..]) else 0
  }

  /**
    What native may make of bare text of the host's: its marked texts come first and are, one for one, the host's first
    texts; what bare text both have left says the same. A frame's last texts may go on, in bare text.
   */
  ghost predicate BareFits(sent: seq<Block>, host: seq<Block>, last: bool) {
    var n := Lead(sent);
    && AllBare(host) && AllBare(sent[n..]) && n <= |host|
    && (forall k :: 0 <= k < n ==> Plain(sent[k]) == host[k])
    && if n == |host| then last || n == |sent|
       else n < |sent| && if last then Join(host[n..]) <= Join(sent[n..]) else Join(host[n..]) == Join(sent[n..])
  }

  /** How many of native's texts stand against the host's first `b`, which are bare, when a marked one comes next. */
  function Taken(sent: seq<Block>, b: nat): (j: nat)
    ensures j <= |sent|
  {
    var n := Lead(sent);
    if n >= b then b else n + RunLength(sent[n..])
  }

  /** The same text, under marks that do not differ. */
  predicate TextAgrees(sent: Block, host: Block) {
    sent.Text? && Plain(sent) == Plain(host) && (sent.mark.Some? && host.mark.Some? ==> sent.mark == host.mark)
  }

  /**
    What native may make of a run of texts of the host's: each one the host marked is one whole text of native's, and
    the bare texts between two of them fit on their own.
   */
  ghost predicate RunFits(sent: seq<Block>, host: seq<Block>, last: bool)
    decreases |host|
  {
    var b := RunLength(host);
    if b == |host| then BareFits(sent, host, last)
    else
      var j := Taken(sent, b);
      && j < |sent| && BareFits(sent[..j], host[..b], false) && TextAgrees(sent[j], host[b])
      && RunFits(sent[j + 1..], host[b + 1..], last)
  }

  /**
    What native sent is the host's frame: the next run of texts fits the host's, then so does the protected block, and
    so on; only the last run may go on. The same inside every tool result.
   */
  ghost predicate Fits(sent: seq<Block>, host: seq<Block>)
    decreases host, 3
  {
    var n, m := TextLength(sent), TextLength(host);
    RunFits(sent[..n], host[..m], m == |host|) && RestFits(sent, host, n, m)
  }

  /** What comes after the first run, of `n` texts of native's and `m` of the host's. */
  ghost predicate RestFits(sent: seq<Block>, host: seq<Block>, n: nat, m: nat)
    requires n <= |sent| && m <= |host|
    decreases host, 2
  {
    && (n == |sent| <==> m == |host|)
    && (m < |host| && n < |sent| ==> BlockFits(sent[n], host[m]) && Fits(sent[n + 1..], host[m + 1..]))
  }

  /**
    Native's block is the host's: the same but for marks, which only must not differ, and but for what a result holds.
   */
  ghost predicate BlockFits(sent: Block, host: Block)
    decreases host, 1
  {
    && !sent.Loose? && !host.Loose?
    && (sent.mark.Some? && host.mark.Some? ==> sent.mark == host.mark)
    && if host.ToolResult? then
         && sent.ToolResult? && sent.id == host.id && sent.rest == host.rest
         && SameFlag(sent.isError, host.isError)
         && ContentFits(sent.content, host.content)
       else
         Plain(sent) == Plain(host)
  }

  ghost predicate ContentFits(sent: Content, host: Content)
    decreases host, 1
  {
    if sent.NoContent? || host.NoContent? then sent == host
    else if sent.Str? || host.Str? then
      AllText(sent).Some? && AllText(host).Some? && AllText(host).value <= AllText(sent).value
    else if sent.Parts? && host.Parts? then Fits(sent.blocks, host.blocks)
    else sent == host
  }

  /** Remove every mark, nested ones included. */
  function Erase(b: Block): Block
    decreases b, 1
  {
    match b
    case ToolResult(_, _, c, _, _) => b.(mark := None, content := EraseContent(c))
    case _ => Plain(b)
  }

  function EraseContent(c: Content): Content
    decreases c, 1
  {
    if c.Parts? then Parts(EraseAll(c.blocks)) else c
  }

  function EraseAll(bs: seq<Block>): (r: seq<Block>)
    decreases bs, 0
  {
    if bs == [] then [] else [Erase(bs[0])] + EraseAll(bs[1..])
  }

  // ----- what restoring must not lose -----

  function ReadOne(b: Block): seq<Atom> {
    if Soft(b) then Chars(b.text) else [Prot(b)]
  }

  function ReadAll(bs: seq<Block>): seq<Atom> {
    if bs == [] then [] else ReadOne(bs[0]) + ReadAll(bs[1..])
  }

  lemma {:induction false} ReadFrom(bs: seq<Block>)
    ensures forall k :: 0 <= k < |ReadAll(bs)| && ReadAll(bs)[k].Prot? ==> ReadAll(bs)[k].block in bs
  {
    if bs != [] {
      ReadFrom(bs[1..]);
    }
  }

  /** The frame as characters and protected blocks; marks on text are not read. */
  function Reading(bs: seq<Block>): (r: seq<Atom>)
    ensures forall k :: 0 <= k < |r| && r[k].Prot? ==> r[k].block in bs
  {
    ReadFrom(bs);
    ReadAll(bs)
  }

  /** A mark, and the stretch of the reading its block covers. */
  datatype Stamp = Stamp(from: nat, to: nat, mark: Mark)

  function Stamps(bs: seq<Block>, at: nat): set<Stamp> {
    if bs == [] then {}
    else
      var to := at + |ReadOne(bs[0])|;
      (if Marked(bs[0]) then {Stamp(at, to, bs[0].mark.value)} else {}) + Stamps(bs[1..], to)
  }

  /**
    `r` restores `host` out of `sent` and loses nothing: the host's reading is a prefix of native's, character by
    character and block by block; only characters are left over; every mark native placed is in `r` over the same
    stretch, and `r` has no marks but native's and the host's. The same holds inside every tool result.
   */
  ghost predicate Lossless(sent: seq<Block>, host: seq<Block>, r: seq<Block>)
    decreases host, 0
  {
    var fs, fh, fr := Reading(sent), Reading(host), Reading(r);
    && |fr| == |fh| <= |fs|
    && (forall k :: 0 <= k < |fh| && !fh[k].Prot? ==> fs[k] == fh[k] == fr[k])
    && (forall k :: 0 <= k < |fh| && fh[k].Prot? ==>
          fs[k].Prot? && fr[k].Prot? && LosslessBlock(fs[k].block, fh[k].block, fr[k].block))
    && (forall k :: |fh| <= k < |fs| ==> fs[k].Ch?)
    && Stamps(sent, 0) <= Stamps(r, 0) <= Stamps(sent, 0) + Stamps(host, 0)
  }

  ghost predicate LosslessBlock(sent: Block, host: Block, r: Block)
    decreases host, 1
  {
    if host.ToolResult? then
      && sent.ToolResult? && r.ToolResult?
      && sent.id == host.id == r.id && sent.rest == host.rest == r.rest
      && SameFlag(sent.isError, host.isError) && r.isError == host.isError
      && LosslessContent(sent.content, host.content, r.content)
    else
      Plain(sent) == Plain(host) == Plain(r)
  }

  ghost predicate LosslessContent(sent: Content, host: Content, r: Content)
    decreases host, 1
  {
    if sent.Parts? && host.Parts? then r.Parts? && Lossless(sent.blocks, host.blocks, r.blocks)
    else
      && r == host
      && (sent == host
          || (AllText(sent).Some? && AllText(host).Some? && AllText(host).value <= AllText(sent).value))
  }

  // ----- the matcher -----

  function RestoreSeq(sent: seq<Block>, host: seq<Block>): Option<seq<Block>>
    decreases host, 0
  {
    if host == [] then
      if AllBare(sent) then Some([]) else None
    else if sent == [] then None
    else if Bare(host[0]) && Bare(sent[0]) then
      var h, s := RunLength(host), RunLength(sent);
      var original, actual := Join(host[..h]), Join(sent[..s]);
      if !(if h == |host| then original <= actual else actual == original) then None
      else Prepend(host[..h], RestoreSeq(sent[s..], host[h..]))
    else
      match RestoreBlock(sent[0], host[0])
      case None => None
      case Some(b) => Prepend([b], RestoreSeq(sent[1..], host[1..]))
  }

  function Prepend(head: seq<Block>, tail: Option<seq<Block>>): Option<seq<Block>> {
    if tail.None? then None else Some(head + tail.value)
  }

  function RestoreBlock(sent: Block, host: Block): Option<Block>
    decreases host, 1
  {
    if sent.Loose? || host.Loose? then None
    else if host.ToolResult? then
      if !sent.ToolResult? || !SameFlag(sent.isError, host.isError) || sent.id != host.id || sent.rest != host.rest
      then None
      else if sent.content.NoContent? != host.content.NoContent? then None
      else if host.content.NoContent? then TakeMark(sent, host)
      else
        match RestoreContent(sent.content, host.content)
        case None => None
        case Some(c) => TakeMark(sent, host.(content := c))
    else if Plain(sent) != Plain(host) then None
    else TakeMark(sent, host)
  }

  function TakeMark(sent: Block, host: Block): Option<Block>
    requires !sent.Loose? && !host.Loose?
  {
    if sent.mark.None? then Some(host)
    else if host.mark.Some? && sent.mark != host.mark then None
    else Some(WithMark(host, sent.mark))
  }

  function RestoreContent(sent: Content, host: Content): Option<Content>
    decreases host, 1
  {
    if host.Str? || sent.Str? then
      var left, right := AllText(sent), AllText(host);
      if left.None? || right.None? || !(right.value <= left.value) then None else Some(host)
    else if sent.Parts? && host.Parts? then
      match RestoreSeq(sent.blocks, host.blocks)
      case None => None
      case Some(bs) => Some(Parts(bs))
    else if sent != host then None
    else Some(host)
  }

  // ----- reading runs -----

  lemma FlatCons(b: Block, rest: seq<Block>, inRun: bool)
    ensures Flat([b] + rest, inRun) == FlatOne(b, inRun) + Flat(rest, Bare(b))
  {
    assert ([b] + rest)[1..] == rest;
  }

  lemma AtomsAssoc(a: seq<Atom>, b: seq<Atom>, c: seq<Atom>)
    ensures a + (b + c) == (a + b) + c
  {
  }

  lemma {:induction false} FlatConcat(a: seq<Block>, b: seq<Block>, inRun: bool)
    ensures Flat(a + b, inRun) == Flat(a, inRun) + Flat(b, if a == [] then inRun else Bare(a[|a| - 1]))
  {
    if a == [] {
      assert a + b == b;
      assert [] + Flat(b, inRun) == Flat(b, inRun);
    } else {
      var next, end, head := Bare(a[0]), Bare(a[|a| - 1]), FlatOne(a[0], inRun);
      assert a + b == [a[0]] + (a[1..] + b);
      FlatCons(a[0], a[1..] + b, inRun);
      FlatConcat(a[1..], b, next);
      AtomsAssoc(head, Flat(a[1..], next), Flat(b, end));
    }
  }

  lemma {:induction false} FlatRun(bs: seq<Block>, inRun: bool)
    requires AllBare(bs)
    ensures Flat(bs, inRun) == (if inRun || bs == [] then [] else [Open]) + Chars(Join(bs))
  {
    if bs != [] {
      FlatRun(bs[1..], true);
      assert Chars(bs[0].text) + Chars(Join(bs[1..])) == Chars(Join(bs));
    }
  }

  /** `f` opens a run of exactly `text`: what follows, if anything, is a protected block. */
  ghost predicate RunAt(f: seq<Atom>, text: string) {
    && 1 + |text| <= |f| && f[0] == Open
    && (forall k :: 1 <= k <= |text| ==> f[k] == Ch(text[k - 1]))
    && (1 + |text| < |f| ==> f[1 + |text|].Prot?)
  }

  /** A list that begins with bare text reads as one run, then what follows it. */
  lemma FlatSplit(bs: seq<Block>) returns (text: string, rest: seq<Block>)
    requires bs != [] && Bare(bs[0])
    ensures text == Join(bs[..RunLength(bs)]) && rest == bs[RunLength(bs)..]
    ensures RunAt(Atoms(bs), text) && Atoms(bs)[1 + |text|..] == Atoms(rest)
    ensures RunLength(bs) == |bs| <==> |Atoms(bs)| == 1 + |text|
  {
    var n := RunLength(bs);
    text, rest := Join(bs[..n]), bs[n..];
    assert bs == bs[..n] + rest;
    FlatConcat(bs[..n], rest, false);
    FlatRun(bs[..n], false);
    RunAndRest(Atoms(bs), text, Atoms(rest));
    assert n < |bs| ==> rest[0] == bs[n];
  }

  lemma RunAndRest(f: seq<Atom>, text: string, rest: seq<Atom>)
    requires f == [Open] + Chars(text) + rest && (rest != [] ==> rest[0].Prot?)
    ensures RunAt(f, text) && f[1 + |text|..] == rest
  {
  }

  lemma {:induction false} ProtIn(bs: seq<Block>, inRun: bool, i: nat)
    requires i < |bs| && !Bare(bs[i])
    ensures Prot(bs[i]) in Flat(bs, inRun)
  {
    if i > 0 {
      ProtIn(bs[1..], Bare(bs[0]), i - 1);
    }
  }

  lemma OnlyText(bs: seq<Block>)
    ensures AllBare(bs) <==> forall x :: x in Atoms(bs) ==> !x.Prot?
  {
    if AllBare(bs) {
      FlatRun(bs, false);
    } else {
      var i :| 0 <= i < |bs| && !Bare(bs[i]);
      ProtIn(bs, false, i);
      assert Prot(bs[i]) in Atoms(bs);
    }
  }

  // ----- the matcher accepts exactly the frames native only added text to -----

  /** No mark sits on otherwise bare text, at any depth. */
  predicate Settled(bs: seq<Block>)
    decreases bs, 0
  {
    forall k :: 0 <= k < |bs| ==> SettledBlock(bs[k])
  }

  predicate SettledBlock(b: Block)
    decreases b, 1
  {
    && (Soft(b) ==> b.mark.None?)
    && (b.ToolResult? && b.content.Parts? ==> Settled(b.content.blocks))
  }

  /** `RestoreSeq` accepts if and only if what native sent fits the frame, whatever either side marked. */
  lemma {:induction false} Exact(sent: seq<Block>, host: seq<Block>)
    ensures RestoreSeq(sent, host).Some? <==> Fits(sent, host)
    decreases host, 0
  {
    if host == [] {
      ExactEnd(sent, host);
    } else if sent == [] {
      NothingFits(host[..TextLength(host)], TextLength(host) == |host|);
    } else if Bare(host[0]) && Bare(sent[0]) {
      Exact(sent[RunLength(sent)..], host[RunLength(host)..]);
      ExactRun(sent, host);
    } else {
      ExactBlock(sent[0], host[0]);
      Exact(sent[1..], host[1..]);
      ExactHead(sent, host);
    }
  }

  lemma ExactEnd(sent: seq<Block>, host: seq<Block>)
    requires host == []
    ensures RestoreSeq(sent, host).Some? <==> Fits(sent, host)
  {
    assert sent[..|sent|] == sent && sent[0..] == sent;
  }

  /** No texts fit no texts only. */
  lemma NothingFits(host: seq<Block>, last: bool)
    ensures RunFits([], host, last) ==> host == []
  {
  }

  lemma OnlyNothingFits(sent: seq<Block>)
    ensures RunFits(sent, [], false) ==> sent == []
  {
  }

  // ----- runs, one step at a time -----

  lemma {:induction false} RunInText(bs: seq<Block>)
    ensures RunLength(bs) <= TextLength(bs) && RunLength(bs[..TextLength(bs)]) == RunLength(bs)
  {
    if bs != [] && Soft(bs[0]) {
      RunInText(bs[1..]);
      assert bs[..TextLength(bs)][1..] == bs[1..][..TextLength(bs[1..])];
    }
  }

  lemma {:induction false} TextFrom(bs: seq<Block>, k: nat)
    requires k <= TextLength(bs)
    ensures TextLength(bs[k..]) == TextLength(bs) - k
  {
    if k == 0 {
      assert bs[0..] == bs;
    } else {
      TextFrom(bs[1..], k - 1);
      assert bs[1..][k - 1..] == bs[k..];
    }
  }

  /** A run of the host's with a mark in it, unfolded once. */
  lemma RunFitsStep(sent: seq<Block>, host: seq<Block>, last: bool, b: nat, j: nat)
    requires b == RunLength(host) < |host| && j == Taken(sent, b)
    ensures RunFits(sent, host, last)
        <==> && j < |sent| && BareFits(sent[..j], host[..b], false) && TextAgrees(sent[j], host[b])
             && RunFits(sent[j + 1..], host[b + 1..], last)
  {
    hide BareFits;
    hide TextAgrees;
    hide Taken;
    hide RunLength;
  }

  /** Runs that begin with bare text on both sides. */
  lemma RunFitsBare(sent: seq<Block>, host: seq<Block>, last: bool)
    requires sent != [] && host != [] && Bare(sent[0]) && Bare(host[0])
    ensures var s, b := RunLength(sent), RunLength(host);
            RunFits(sent, host, last)
            <==> if b == |host| then s == |sent| && BothSay(sent, host, last)
                 else BothSay(sent[..s], host[..b], false) && RunFits(sent[s..], host[b..], last)
  {
    var s, b := RunLength(sent), RunLength(host);
    assert Lead(sent) == 0 && sent[0..] == sent;
    hide BothSay;
    if b == |host| {
      BareRunFits(sent, host, last, s);
    } else {
      assert Taken(sent, b) == s;
      hide RunFits;
      hide RunLength;
      BareRunFits(sent[..s], host[..b], false, s);
      RunFitsStep(sent, host, last, b, s);
      MarkedRunFits(sent[s..], host[b..], last);
      hide BareFits;
      Tail(sent, s);
      Tail(host, b);
    }
  }

  lemma Tail(bs: seq<Block>, s: nat)
    requires s <= |bs|
    ensures s < |bs| ==> bs[s..][0] == bs[s] && bs[s..][1..] == bs[s + 1..]
  {
  }

  /** Bare texts that say the same, or the last ones, of which native's may go on. */
  ghost predicate BothSay(sent: seq<Block>, host: seq<Block>, last: bool) {
    && AllBare(sent) && AllBare(host)
    && if last then Join(host) <= Join(sent) else Join(host) == Join(sent)
  }

  /** Bare texts of the host's against a run of native's that begins with bare text. */
  lemma BareRunFits(sent: seq<Block>, host: seq<Block>, last: bool, s: nat)
    requires 0 < s <= |sent| && host != [] && AllBare(host) && AllBare(sent[..s]) && (s < |sent| ==> !Bare(sent[s]))
    ensures BareFits(sent, host, last) <==> s == |sent| && BothSay(sent, host, last)
  {
    assert Bare(sent[..s][0]);
    assert Lead(sent) == 0 && sent[0..] == sent && host[0..] == host && (s == |sent| ==> sent[..s] == sent);
  }

  /** A run of the host's that begins with a marked text. */
  lemma MarkedRunFits(sent: seq<Block>, host: seq<Block>, last: bool)
    requires host != [] && !Bare(host[0])
    ensures RunFits(sent, host, last)
        <==> sent != [] && TextAgrees(sent[0], host[0]) && RunFits(sent[1..], host[1..], last)
  {
    hide RunFits;
    hide BareFits;
    hide TextAgrees;
    assert RunLength(host) == 0;
    TakenNone(sent);
    RunFitsStep(sent, host, last, 0, 0);
    NoneFits();
    assert sent[..0] == [] && host[..0] == [];
  }

  lemma TakenNone(sent: seq<Block>)
    ensures Taken(sent, 0) == 0
  {
  }

  lemma NoneFits()
    ensures BareFits([], [], false)
  {
  }

  /** One text against one text, when not both are bare. */
  lemma RunFitsHead(sent: seq<Block>, host: seq<Block>, last: bool)
    requires sent != [] && host != [] && Soft(sent[0]) && Soft(host[0]) && !(Bare(sent[0]) && Bare(host[0]))
    ensures RunFits(sent, host, last) <==> TextAgrees(sent[0], host[0]) && RunFits(sent[1..], host[1..], last)
  {
    hide RunFits;
    hide BareFits;
    hide TextAgrees;
    if !Bare(host[0]) {
      MarkedRunFits(sent, host, last);
    } else if RunLength(host) == |host| {
      RunOne(host);
      BareRunOnly(sent, host, last);
      BareRunOnly(sent[1..], host[1..], last);
      BareFitsText(sent, host, last);
    } else {
      hide RunLength;
      hide Taken;
      var b, j := RunLength(host), Taken(sent, RunLength(host));
      RunOne(host);
      TakenOne(sent, b);
      RunFitsStep(sent, host, last, b, j);
      RunFitsStep(sent[1..], host[1..], last, b - 1, j - 1);
      SliceTo(host, 1, b);
      SliceFrom(host, 1, b);
      if j < |sent| {
        SliceTo(sent, 1, j);
        SliceFrom(sent, 1, j);
        BareFitsText(sent[..j], host[..b], false);
      }
    }
  }

  lemma RunOne(bs: seq<Block>)
    requires bs != [] && Bare(bs[0])
    ensures RunLength(bs) == 1 + RunLength(bs[1..])
  {
  }

  lemma BareRunOnly(sent: seq<Block>, host: seq<Block>, last: bool)
    requires RunLength(host) == |host|
    ensures RunFits(sent, host, last) <==> BareFits(sent, host, last)
  {
    hide BareFits;
  }

  lemma TakenOne(sent: seq<Block>, b: nat)
    requires sent != [] && Marked(sent[0]) && b > 0
    ensures Taken(sent, b) == 1 + Taken(sent[1..], b - 1)
  {
    assert sent[1..][Lead(sent) - 1..] == sent[Lead(sent)..];
  }

  lemma BareFitsText(sent: seq<Block>, host: seq<Block>, last: bool)
    requires sent != [] && host != [] && Soft(sent[0]) && Marked(sent[0]) && Bare(host[0])
    ensures BareFits(sent, host, last) <==> TextAgrees(sent[0], host[0]) && BareFits(sent[1..], host[1..], last)
  {
    hide Join;
    var n, x, y := Lead(sent), sent[1..], host[1..];
    assert Lead(x) == n - 1 && x[n - 1..] == sent[n..];
    assert n <= |host| ==> y[n - 1..] == host[n..];
    assert AllBare(host) <==> AllBare(y) by {
      assert forall k :: 1 <= k < |host| ==> host[k] == y[k - 1];
    }
    if BareFits(x, y, last) && Plain(sent[0]) == host[0] {
      forall k | 0 <= k < n ensures Plain(sent[k]) == host[k] {
        assert k > 0 ==> Plain(x[k - 1]) == y[k - 1];
      }
    }
    if BareFits(sent, host, last) {
      forall k | 0 <= k < n - 1 ensures Plain(x[k]) == y[k] {
        assert Plain(sent[k + 1]) == host[k + 1];
      }
    }
  }

  // ----- the matcher's steps -----

  lemma FitsAre(sent: seq<Block>, host: seq<Block>)
    ensures var n, m := TextLength(sent), TextLength(host);
            Fits(sent, host) <==> RunFits(sent[..n], host[..m], m == |host|) && RestFits(sent, host, n, m)
  {
    hide RunFits;
    hide RestFits;
    hide TextLength;
  }

  /** Taking what is left after `s`, up to `n` and from there. */
  lemma SliceTo(bs: seq<Block>, s: nat, n: nat)
    requires s <= n <= |bs|
    ensures bs[s..][..n - s] == bs[..n][s..]
  {
  }

  lemma SliceFrom(bs: seq<Block>, s: nat, n: nat)
    requires s <= n < |bs|
    ensures bs[s..][n - s] == bs[n] && bs[s..][n - s + 1..] == bs[n + 1..]
  {
  }

  /** The same rest, after `s` and `h` texts are cut off. */
  lemma SameRest(sent: seq<Block>, host: seq<Block>, s: nat, h: nat, n: nat, m: nat)
    requires s <= n <= |sent| && h <= m <= |host|
    ensures RestFits(sent[s..], host[h..], n - s, m - h) <==> RestFits(sent, host, n, m)
  {
    hide BlockFits;
    hide Fits;
    if n < |sent| && m < |host| {
      SliceFrom(sent, s, n);
      SliceFrom(host, h, m);
    }
  }

  /** A frame, when the run it begins with is cut after `s` and `h` texts. */
  lemma FitsFrom(sent: seq<Block>, host: seq<Block>, s: nat, h: nat)
    requires s <= TextLength(sent) && h <= TextLength(host)
    ensures var n, m := TextLength(sent), TextLength(host);
            Fits(sent[s..], host[h..])
            <==> RunFits(sent[..n][s..], host[..m][h..], m == |host|) && RestFits(sent, host, n, m)
  {
    hide RunFits;
    hide RestFits;
    hide Fits;
    hide TextLength;
    var n, m := TextLength(sent), TextLength(host);
    TextFrom(sent, s);
    TextFrom(host, h);
    SliceTo(sent, s, n);
    SliceTo(host, h, m);
    SameRest(sent, host, s, h, n, m);
    FitsAre(sent[s..], host[h..]);
  }

  /** Bare text on both sides: the whole run of one against the whole run of the other. */
  lemma ExactRun(sent: seq<Block>, host: seq<Block>)
    requires sent != [] && host != [] && Bare(sent[0]) && Bare(host[0])
    requires RestoreSeq(sent[RunLength(sent)..], host[RunLength(host)..]).Some?
             <==> Fits(sent[RunLength(sent)..], host[RunLength(host)..])
    ensures RestoreSeq(sent, host).Some? <==> Fits(sent, host)
  {
    hide RestFits;
    hide Fits;
    hide RunFits;
    hide BothSay;
    hide RestoreSeq;
    hide TextLength;
    var s, h, n, m := RunLength(sent), RunLength(host), TextLength(sent), TextLength(host);
    RunInText(sent);
    RunInText(host);
    RestoreRuns(sent, host);
    FitsAre(sent, host);
    RunFitsBare(sent[..n], host[..m], m == |host|);
    TakeTake(sent, s, n);
    TakeTake(host, h, m);
    FitsFrom(sent, host, s, h);
    if h == m {
      RunsMeet(sent, host, s, n, m);
    }
  }

  lemma TakeTake(bs: seq<Block>, s: nat, n: nat)
    requires s <= n <= |bs|
    ensures bs[..n][..s] == bs[..s] && (s < n ==> bs[..n][s] == bs[s])
  {
  }

  /** Where the host's run ends in front of a protected block, native's must too. */
  lemma RunsMeet(sent: seq<Block>, host: seq<Block>, s: nat, n: nat, m: nat)
    requires s == RunLength(sent) <= n == TextLength(sent) && m == TextLength(host)
    ensures s < n ==> RestoreSeq(sent[s..], host[m..]).None?
    ensures s == n ==> RunFits(sent[..n][s..], host[..m][m..], m == |host|)
  {
    if s < n {
      MarkedTextStays(sent[s..], host[m..]);
    } else {
      assert sent[..n][s..] == [] && host[..m][m..] == [];
      EmptyFits(m == |host|);
    }
  }

  lemma EmptyFits(last: bool)
    ensures RunFits([], [], last)
  {
  }

  lemma RestoreRuns(sent: seq<Block>, host: seq<Block>)
    requires sent != [] && host != [] && Bare(sent[0]) && Bare(host[0])
    ensures var s, h := RunLength(sent), RunLength(host);
            RestoreSeq(sent, host).Some?
            <==> BothSay(sent[..s], host[..h], h == |host|) && RestoreSeq(sent[s..], host[h..]).Some?
  {
    hide RestoreBlock;
    hide Join;
  }

  lemma MarkedTextStays(sent: seq<Block>, host: seq<Block>)
    requires sent != [] && Soft(sent[0]) && !Bare(sent[0]) && (host != [] ==> !Soft(host[0]))
    ensures RestoreSeq(sent, host).None?
  {
  }

  /** One block against one block: two protected ones, or two texts that are not both bare. */
  lemma ExactHead(sent: seq<Block>, host: seq<Block>)
    requires sent != [] && host != [] && !(Bare(sent[0]) && Bare(host[0]))
    requires RestoreBlock(sent[0], host[0]).Some? <==> BlockFits(sent[0], host[0])
    requires RestoreSeq(sent[1..], host[1..]).Some? <==> Fits(sent[1..], host[1..])
    ensures RestoreSeq(sent, host).Some? <==> Fits(sent, host)
  {
    hide RestoreBlock;
    hide Fits;
    hide RunFits;
    var n, m := TextLength(sent), TextLength(host);
    FitsAre(sent, host);
    assert sent[..0] == [] && host[..0] == [];
    if !Soft(sent[0]) && !Soft(host[0]) {
      EmptyFits(false);
    } else if Soft(sent[0]) && Soft(host[0]) {
      RunFitsHead(sent[..n], host[..m], m == |host|);
      FitsFrom(sent, host, 1, 1);
    } else if Soft(host[0]) {
      NothingFits(host[..m], m == |host|);
    } else {
      OnlyNothingFits(sent[..n]);
    }
  }

  lemma {:induction false} ExactBlock(sent: Block, host: Block)
    ensures RestoreBlock(sent, host).Some? <==> BlockFits(sent, host)
    decreases host, 1
  {
    if sent.ToolResult? && host.ToolResult? && sent.content.Parts? && host.content.Parts? {
      Exact(sent.content.blocks, host.content.blocks);
    }
  }

  // ----- what the matcher accepts, it restores without loss -----

  lemma {:induction false} ReadConcat(a: seq<Block>, b: seq<Block>)
    ensures Reading(a + b) == Reading(a) + Reading(b)
  {
    if a == [] {
      assert a + b == b;
    } else {
      assert (a + b)[1..] == a[1..] + b;
      ReadConcat(a[1..], b);
    }
  }

  lemma {:induction false} ReadRun(bs: seq<Block>)
    requires AllBare(bs)
    ensures Reading(bs) == Chars(Join(bs))
    ensures forall at: nat :: Stamps(bs, at) == {}
  {
    if bs != [] {
      ReadRun(bs[1..]);
      assert Chars(bs[0].text) + Chars(Join(bs[1..])) == Chars(Join(bs));
    }
  }

  lemma {:induction false} StampsConcat(a: seq<Block>, b: seq<Block>, at: nat)
    ensures Stamps(a + b, at) == Stamps(a, at) + Stamps(b, at + |Reading(a)|)
  {
    if a == [] {
      assert a + b == b;
    } else {
      assert (a + b)[1..] == a[1..] + b;
      StampsConcat(a[1..], b, at + |ReadOne(a[0])|);
    }
  }

  /** Three readings side by side: equal characters, related blocks, then characters that only `fs` has. */
  ghost predicate Along(fs: seq<Atom>, fh: seq<Atom>, fr: seq<Atom>, rel: (Block, Block, Block) -> bool) {
    && |fr| == |fh| <= |fs|
    && (forall k :: 0 <= k < |fh| && !fh[k].Prot? ==> fs[k] == fh[k] == fr[k])
    && (forall k :: 0 <= k < |fh| && fh[k].Prot? ==>
          fs[k].Prot? && fr[k].Prot? && rel(fs[k].block, fh[k].block, fr[k].block))
    && (forall k :: |fh| <= k < |fs| ==> fs[k].Ch?)
  }

  lemma AlongJoin(fs: seq<Atom>, fh: seq<Atom>, fr: seq<Atom>, gs: seq<Atom>, gh: seq<Atom>, gr: seq<Atom>,
                  rel: (Block, Block, Block) -> bool)
    requires Along(fs, fh, fr, rel) && Along(gs, gh, gr, rel) && |fs| == |fh|
    ensures Along(fs + gs, fh + gh, fr + gr, rel)
  {
  }

  ghost function BlockRelation(): (Block, Block, Block) -> bool {
    (s, h, r) => LosslessBlock(s, h, r)
  }

  /** The reading half of `Lossless`, for the tails of a frame. */
  ghost predicate Reads(sent: seq<Block>, host: seq<Block>, r: seq<Block>) {
    Along(Reading(sent), Reading(host), Reading(r), BlockRelation())
  }

  lemma {:induction false} Sound(sent: seq<Block>, host: seq<Block>, r: seq<Block>)
    requires RestoreSeq(sent, host) == Some(r)
    ensures Lossless(sent, host, r)
    decreases host, 2
  {
    SoundReading(sent, host, r);
    SoundStamps(sent, host, r, 0);
  }

  /** One step of the matcher: a run against a run, or a block against a block. */
  lemma Cut(sent: seq<Block>, host: seq<Block>, r: seq<Block>)
    returns (s1: seq<Block>, s2: seq<Block>, h1: seq<Block>, h2: seq<Block>, r1: seq<Block>, r2: seq<Block>)
    requires host != [] && RestoreSeq(sent, host) == Some(r)
    ensures sent == s1 + s2 && host == h1 + h2 && r == r1 + r2
    ensures h1 != [] && h2 == host[|h1|..] && RestoreSeq(s2, h2) == Some(r2)
    ensures || (AllBare(s1) && AllBare(h1) && r1 == h1
                && (Join(h1) == Join(s1) || (s2 == [] && h2 == [] && r2 == [] && Join(h1) <= Join(s1))))
            || (|s1| == |h1| == |r1| == 1 && h1[0] == host[0] && RestoreBlock(s1[0], h1[0]) == Some(r1[0]))
  {
    if Bare(host[0]) && Bare(sent[0]) {
      var h, s := RunLength(host), RunLength(sent);
      s1, s2, h1, h2 := sent[..s], sent[s..], host[..h], host[h..];
      r1, r2 := h1, RestoreSeq(s2, h2).value;
    } else {
      s1, s2, h1, h2 := sent[..1], sent[1..], host[..1], host[1..];
      r1, r2 := [RestoreBlock(sent[0], host[0]).value], RestoreSeq(s2, h2).value;
    }
  }

  lemma ReadsJoin(s1: seq<Block>, s2: seq<Block>, h1: seq<Block>, h2: seq<Block>, r1: seq<Block>, r2: seq<Block>)
    requires Reads(s1, h1, r1) && Reads(s2, h2, r2) && |Reading(s1)| == |Reading(h1)|
    ensures Reads(s1 + s2, h1 + h2, r1 + r2)
  {
    ReadConcat(s1, s2);
    ReadConcat(h1, h2);
    ReadConcat(r1, r2);
    AlongJoin(Reading(s1), Reading(h1), Reading(r1), Reading(s2), Reading(h2), Reading(r2), BlockRelation());
  }

  lemma {:induction false} SoundReading(sent: seq<Block>, host: seq<Block>, r: seq<Block>)
    requires RestoreSeq(sent, host) == Some(r)
    ensures Reads(sent, host, r)
    decreases host, 1
  {
    if host == [] {
      ReadRun(sent);
    } else {
      var s1, s2, h1, h2, r1, r2 := Cut(sent, host, r);
      if |s1| == |h1| == |r1| == 1 && RestoreBlock(s1[0], h1[0]) == Some(r1[0]) {
        SoundBlock(s1[0], h1[0], r1[0]);
        ReadsOne(s1, h1, r1);
      } else {
        ReadsRun(s1, h1);
        if Join(h1) != Join(s1) {
          assert s1 == sent && h1 == host && r1 == r;
          return;
        }
      }
      SoundReading(s2, h2, r2);
      ReadsJoin(s1, s2, h1, h2, r1, r2);
    }
  }

  lemma ReadsRun(s: seq<Block>, h: seq<Block>)
    requires AllBare(s) && AllBare(h) && Join(h) <= Join(s)
    ensures Reads(s, h, h) && (Join(h) == Join(s) ==> |Reading(s)| == |Reading(h)|)
  {
    ReadRun(s);
    ReadRun(h);
  }

  lemma ReadSingle(bs: seq<Block>)
    requires |bs| == 1
    ensures Reading(bs) == ReadOne(bs[0])
    ensures forall at: nat :: Stamps(bs, at)
              == if Marked(bs[0]) then {Stamp(at, at + |ReadOne(bs[0])|, bs[0].mark.value)} else {}
  {
    assert ReadAll(bs[1..]) == [];
    assert forall at: nat :: Stamps(bs[1..], at) == {};
  }

  lemma ReadsOne(s: seq<Block>, h: seq<Block>, r: seq<Block>)
    requires |s| == |h| == |r| == 1 && LosslessBlock(s[0], h[0], r[0])
    ensures Reads(s, h, r) && |Reading(s)| == |Reading(h)|
  {
    ReadSingle(s);
    ReadSingle(h);
    ReadSingle(r);
  }

  lemma {:induction false} SoundBlock(sent: Block, host: Block, r: Block)
    requires RestoreBlock(sent, host) == Some(r)
    ensures LosslessBlock(sent, host, r)
    decreases host, 3
  {
    if host.ToolResult? && sent.content.Parts? && host.content.Parts? {
      Sound(sent.content.blocks, host.content.blocks, r.content.blocks);
    }
  }

  ghost predicate StampsKept(sent: seq<Block>, host: seq<Block>, r: seq<Block>, at: nat) {
    Stamps(sent, at) <= Stamps(r, at) <= Stamps(sent, at) + Stamps(host, at)
  }

  lemma StampsJoin(s1: seq<Block>, s2: seq<Block>, h1: seq<Block>, h2: seq<Block>, r1: seq<Block>, r2: seq<Block>,
                   at: nat)
    requires |Reading(s1)| == |Reading(h1)| == |Reading(r1)|
    requires StampsKept(s1, h1, r1, at) && StampsKept(s2, h2, r2, at + |Reading(h1)|)
    ensures StampsKept(s1 + s2, h1 + h2, r1 + r2, at)
  {
    StampsConcat(s1, s2, at);
    StampsConcat(h1, h2, at);
    StampsConcat(r1, r2, at);
  }

  lemma {:induction false} SoundStamps(sent: seq<Block>, host: seq<Block>, r: seq<Block>, at: nat)
    requires RestoreSeq(sent, host) == Some(r)
    ensures StampsKept(sent, host, r, at)
    decreases host, 0
  {
    if host == [] {
      ReadRun(sent);
    } else {
      var s1, s2, h1, h2, r1, r2 := Cut(sent, host, r);
      if AllBare(s1) && AllBare(h1) && r1 == h1 {
        ReadRun(s1);
        ReadRun(h1);
        if Join(h1) != Join(s1) {
          assert sent == s1 && host == h1 && r == r1;
          return;
        }
      } else {
        StampsOne(s1, h1, r1, at);
      }
      SoundStamps(s2, h2, r2, at + |Reading(h1)|);
      StampsJoin(s1, s2, h1, h2, r1, r2, at);
    }
  }

  lemma StampsOne(s: seq<Block>, h: seq<Block>, r: seq<Block>, at: nat)
    requires |s| == |h| == |r| == 1 && RestoreBlock(s[0], h[0]) == Some(r[0])
    ensures |Reading(s)| == |Reading(h)| == |Reading(r)|
    ensures StampsKept(s, h, r, at)
  {
    ReadSingle(s);
    ReadSingle(h);
    ReadSingle(r);
  }

  lemma {:induction false} EraseConcat(a: seq<Block>, b: seq<Block>)
    ensures EraseAll(a + b) == EraseAll(a) + EraseAll(b)
  {
    if a == [] {
      assert a + b == b;
    } else {
      assert (a + b)[1..] == a[1..] + b;
      EraseConcat(a[1..], b);
    }
  }

  /** Marks apart, the restored turn is the frame the host queried. */
  lemma {:induction false} RestoresHost(sent: seq<Block>, host: seq<Block>, r: seq<Block>)
    requires RestoreSeq(sent, host) == Some(r)
    ensures EraseAll(r) == EraseAll(host) && |r| == |host|
    decreases host, 0
  {
    if host != [] {
      var s1, s2, h1, h2, r1, r2 := Cut(sent, host, r);
      RestoresHost(s2, h2, r2);
      EraseConcat(h1, h2);
      EraseConcat(r1, r2);
      if |s1| == |h1| == |r1| == 1 && RestoreBlock(s1[0], h1[0]) == Some(r1[0]) {
        RestoresHostBlock(s1[0], h1[0], r1[0]);
        assert EraseAll(r1) == [Erase(r1[0])] && EraseAll(h1) == [Erase(h1[0])];
      }
    }
  }

  lemma {:induction false} RestoresHostBlock(sent: Block, host: Block, r: Block)
    requires RestoreBlock(sent, host) == Some(r)
    ensures Erase(r) == Erase(host)
    decreases host, 1
  {
    if host.ToolResult? && sent.content.Parts? && host.content.Parts? {
      RestoresHost(sent.content.blocks, host.content.blocks, r.content.blocks);
    }
  }

  // ----- restoring is a normaliser -----

  /** Objects only, and no `is_error` that is not a boolean, at any depth. */
  predicate Restorable(bs: seq<Block>)
    decreases bs, 0
  {
    forall k :: 0 <= k < |bs| ==> RestorableBlock(bs[k])
  }

  predicate RestorableBlock(b: Block)
    decreases b, 1
  {
    && !b.Loose?
    && (b.ToolResult? ==> !b.isError.Invalid? && (b.content.Parts? ==> Restorable(b.content.blocks)))
  }

  lemma {:induction false} RunOfPrefix(bs: seq<Block>, tail: seq<Block>)
    requires bs != [] && Bare(bs[0]) && AllBare(tail)
    ensures var n := RunLength(bs);
            RunLength(bs + tail) == if n == |bs| then |bs| + |tail| else n
  {
    if |bs| > 1 && Bare(bs[1]) {
      RunOfPrefix(bs[1..], tail);
      assert (bs + tail)[1..] == bs[1..] + tail;
    } else if |bs| == 1 {
      assert (bs + tail)[1..] == tail;
      RunOfBare(tail);
    } else {
      assert (bs + tail)[1..][0] == bs[1];
    }
  }

  lemma {:induction false} RunOfBare(bs: seq<Block>)
    requires AllBare(bs)
    ensures RunLength(bs) == |bs|
  {
    if bs != [] {
      RunOfBare(bs[1..]);
    }
  }

  lemma {:induction false} JoinConcat(a: seq<Block>, b: seq<Block>)
    requires AllBare(a) && AllBare(b)
    ensures AllBare(a + b) && Join(a + b) == Join(a) + Join(b)
  {
    if a == [] {
      assert a + b == b;
    } else {
      assert (a + b)[1..] == a[1..] + b;
      JoinConcat(a[1..], b);
    }
  }

  /** The host's own frame, with any bare text after it, restores to the host's frame. */
  lemma {:induction false} Extends(host: seq<Block>, tail: seq<Block>)
    requires Restorable(host) && AllBare(tail)
    ensures RestoreSeq(host + tail, host) == Some(host)
    decreases host, 0
  {
    if host == [] {
      assert host + tail == tail;
    } else if Bare(host[0]) {
      var h := RunLength(host);
      RunOfPrefix(host, tail);
      if h == |host| {
        ExtendsRun(host, tail);
      } else {
        Extends(host[h..], tail);
        ExtendsPast(host, tail);
      }
    } else {
      ExtendsBlock(host[0]);
      Extends(host[1..], tail);
      assert (host + tail)[1..] == host[1..] + tail && (host + tail)[0] == host[0];
      assert [host[0]] + host[1..] == host;
    }
  }

  lemma ExtendsRun(host: seq<Block>, tail: seq<Block>)
    requires host != [] && AllBare(host) && AllBare(tail)
    ensures RestoreSeq(host + tail, host) == Some(host)
  {
    var sent := host + tail;
    RunOfBare(host);
    JoinConcat(host, tail);
    RunOfBare(sent);
    assert host[..|host|] == host && sent[..|sent|] == sent && host[|host|..] == [] && sent[|sent|..] == [];
    assert host + [] == host;
  }

  lemma ExtendsPast(host: seq<Block>, tail: seq<Block>)
    requires host != [] && Bare(host[0]) && RunLength(host) < |host| && RunLength(host + tail) == RunLength(host)
    requires RestoreSeq(host[RunLength(host)..] + tail, host[RunLength(host)..]) == Some(host[RunLength(host)..])
    ensures RestoreSeq(host + tail, host) == Some(host)
  {
    hide RestoreSeq;
    hide RunLength;
    var h, sent := RunLength(host), host + tail;
    assert sent[h..] == host[h..] + tail && sent[..h] == host[..h];
    SameRunFirst(sent, host, h);
    calc {
      RestoreSeq(sent, host);
    ==
      Prepend(host[..h], RestoreSeq(host[h..] + tail, host[h..]));
    ==
      Some(host[..h] + host[h..]);
    ==  { assert host[..h] + host[h..] == host; }
      Some(host);
    }
  }

  lemma SameRunFirst(sent: seq<Block>, host: seq<Block>, h: nat)
    requires sent != [] && host != [] && Bare(sent[0]) && Bare(host[0])
    requires RunLength(sent) == h == RunLength(host) && sent[..h] == host[..h]
    ensures RestoreSeq(sent, host) == Prepend(host[..h], RestoreSeq(sent[h..], host[h..]))
  {
    hide RestoreBlock;
    hide Join;
    hide AllBare;
    hide Prepend;
  }

  lemma {:induction false} ExtendsBlock(host: Block)
    requires RestorableBlock(host)
    ensures RestoreBlock(host, host) == Some(host)
    decreases host, 1
  {
    if host.ToolResult? && host.content.Parts? {
      Extends(host.content.blocks, []);
      assert host.content.blocks + [] == host.content.blocks;
    }
  }

  /** A frame restores from itself if and only if its blocks are objects with boolean error flags. */
  lemma {:induction false} SelfRestoring(host: seq<Block>)
    ensures RestoreSeq(host, host) == Some(host) <==> Restorable(host)
  {
    if Restorable(host) {
      Extends(host, []);
      assert host + [] == host;
    }
    if RestoreSeq(host, host).Some? {
      AcceptedRestorable(host, host);
    }
  }

  /** Only a frame of objects with boolean error flags is ever restored. */
  lemma {:induction false} AcceptedRestorable(sent: seq<Block>, host: seq<Block>)
    requires RestoreSeq(sent, host).Some?
    ensures Restorable(host)
    decreases host, 0
  {
    if host == [] {
    } else if Bare(host[0]) && Bare(sent[0]) {
      var h, s := RunLength(host), RunLength(sent);
      AcceptedRestorable(sent[s..], host[h..]);
      assert forall k :: h <= k < |host| ==> host[k] == host[h..][k - h];
    } else {
      AcceptedRestorableBlock(sent[0], host[0]);
      AcceptedRestorable(sent[1..], host[1..]);
      assert forall k :: 1 <= k < |host| ==> host[k] == host[1..][k - 1];
    }
  }

  lemma {:induction false} AcceptedRestorableBlock(sent: Block, host: Block)
    requires RestoreBlock(sent, host).Some?
    ensures RestorableBlock(host)
    decreases host, 1
  {
    if host.ToolResult? && host.content.Parts? && sent.content.Parts? {
      AcceptedRestorable(sent.content.blocks, host.content.blocks);
    }
  }

  /** Restoring a restored turn changes nothing. */
  lemma {:induction false} Idempotent(sent: seq<Block>, host: seq<Block>, r: seq<Block>)
    requires RestoreSeq(sent, host) == Some(r)
    ensures RestoreSeq(r, host) == Some(r)
    decreases host, 0
  {
    if host == [] {
    } else if Bare(host[0]) && Bare(sent[0]) {
      var h, s := RunLength(host), RunLength(sent);
      var tail := RestoreSeq(sent[s..], host[h..]).value;
      Idempotent(sent[s..], host[h..], tail);
      if h < |host| {
        KeepsProtected(sent[s..], host[h..], tail);
      }
      RunThen(host[..h], tail);
      assert r[..h] == host[..h] && r[h..] == tail;
    } else {
      var b := RestoreBlock(sent[0], host[0]).value;
      IdempotentBlock(sent[0], host[0], b);
      Idempotent(sent[1..], host[1..], RestoreSeq(sent[1..], host[1..]).value);
      assert r[1..] == RestoreSeq(sent[1..], host[1..]).value;
    }
  }

  lemma {:induction false} RunThen(run: seq<Block>, tail: seq<Block>)
    requires AllBare(run) && (tail != [] ==> !Bare(tail[0]))
    ensures RunLength(run + tail) == |run|
  {
    if run == [] {
      assert run + tail == tail;
    } else {
      assert (run + tail)[1..] == run[1..] + tail;
      RunThen(run[1..], tail);
    }
  }

  lemma KeepsProtected(sent: seq<Block>, host: seq<Block>, r: seq<Block>)
    requires RestoreSeq(sent, host) == Some(r) && host != [] && !Bare(host[0])
    ensures r != [] && !Bare(r[0])
  {
  }

  lemma {:induction false} IdempotentBlock(sent: Block, host: Block, r: Block)
    requires RestoreBlock(sent, host) == Some(r)
    ensures RestoreBlock(r, host) == Some(r)
    ensures !(Bare(sent) && Bare(host)) ==> !(Bare(r) && Bare(host))
    decreases host, 1
  {
    if host.ToolResult? && !host.content.NoContent? {
      if sent.content.Parts? && host.content.Parts? {
        Idempotent(sent.content.blocks, host.content.blocks, r.content.blocks);
      } else if host.content.Parts? {
        assert AllBare(host.content.blocks);
        Extends(host.content.blocks, []);
        assert host.content.blocks + [] == host.content.blocks;
      }
    }
  }

  /** The same frame up to how its runs of bare text are cut into blocks, at any depth. */
  ghost predicate SameRuns(a: seq<Block>, b: seq<Block>)
    decreases a, 0
  {
    var fa, fb := Atoms(a), Atoms(b);
    && |fa| == |fb|
    && forall k :: 0 <= k < |fa| ==>
         if fa[k].Prot? then fb[k].Prot? && SameBlock(fa[k].block, fb[k].block) else fa[k] == fb[k]
  }

  ghost predicate SameBlock(a: Block, b: Block)
    decreases a, 1
  {
    if a.ToolResult? && b.ToolResult? && a.content.Parts? && b.content.Parts? then
      a.(content := NoContent) == b.(content := NoContent) && SameRuns(a.content.blocks, b.content.blocks)
    else a == b
  }

  ghost predicate AtomPair(x: Atom, y: Atom, rel: (Block, Block) -> bool) {
    if x.Prot? then y.Prot? && rel(x.block, y.block) else x == y
  }

  ghost predicate Paired(fa: seq<Atom>, fb: seq<Atom>, rel: (Block, Block) -> bool) {
    |fa| == |fb| && forall k :: 0 <= k < |fa| ==> AtomPair(fa[k], fb[k], rel)
  }

  lemma PairedTail(fa: seq<Atom>, fb: seq<Atom>, ga: seq<Atom>, gb: seq<Atom>, x: Atom, y: Atom,
                   rel: (Block, Block) -> bool)
    requires fa == [x] + ga && fb == [y] + gb
    ensures Paired(fa, fb, rel) <==> Paired(ga, gb, rel) && AtomPair(x, y, rel)
  {
    hide AtomPair;
    if Paired(fa, fb, rel) {
      assert AtomPair(fa[0], fb[0], rel);
      forall k | 0 <= k < |ga| ensures AtomPair(ga[k], gb[k], rel) {
        assert AtomPair(fa[k + 1], fb[k + 1], rel);
      }
    }
    if Paired(ga, gb, rel) && AtomPair(x, y, rel) {
      forall k | 0 <= k < |fa| ensures AtomPair(fa[k], fb[k], rel) {
        assert k > 0 ==> AtomPair(ga[k - 1], gb[k - 1], rel);
      }
    }
  }

  ghost function SameBlockRelation(): (Block, Block) -> bool {
    (a, b) => SameBlock(a, b)
  }

  lemma SameRunsPaired(a: seq<Block>, b: seq<Block>)
    ensures SameRuns(a, b) <==> Paired(Atoms(a), Atoms(b), SameBlockRelation())
  {
  }

  lemma AtomsCons(a: seq<Block>)
    requires a != []
    ensures Atoms(a) != [] && Atoms(a)[0] == (if Bare(a[0]) then Open else Prot(a[0]))
    ensures !Bare(a[0]) ==> Atoms(a) == [Prot(a[0])] + Atoms(a[1..])
  {
  }

  lemma SameRunsHead(a: seq<Block>, b: seq<Block>)
    requires SameRuns(a, b)
    ensures a == [] <==> b == []
    ensures a != [] ==> (Bare(a[0]) <==> Bare(b[0]))
    ensures a != [] && !Bare(a[0]) ==> SameBlock(a[0], b[0]) && SameRuns(a[1..], b[1..])
  {
    SameRunsPaired(a, b);
    if a != [] { AtomsCons(a); }
    if b != [] { AtomsCons(b); }
    if a != [] && !Bare(a[0]) {
      PairedTail(Atoms(a), Atoms(b), Atoms(a[1..]), Atoms(b[1..]), Prot(a[0]), Prot(b[0]), SameBlockRelation());
      SameRunsPaired(a[1..], b[1..]);
    }
  }

  lemma SameTexts(fa: seq<Atom>, fb: seq<Atom>, ta: string, tb: string)
    requires |fa| == |fb| && forall k :: 0 <= k < |fa| ==> if fa[k].Prot? then fb[k].Prot? else fa[k] == fb[k]
    requires RunAt(fa, ta) && RunAt(fb, tb)
    ensures ta == tb
  {
    forall k | 0 <= k < |ta| && k < |tb| ensures ta[k] == tb[k] {
      var m := k + 1;
      assert fa[m] == fb[m];
    }
  }

  lemma SameRunsTail(d: nat, a: seq<Block>, b: seq<Block>, ra: seq<Block>, rb: seq<Block>)
    requires SameRuns(a, b) && d <= |Atoms(a)|
    requires Atoms(a)[d..] == Atoms(ra) && Atoms(b)[d..] == Atoms(rb)
    ensures SameRuns(ra, rb)
  {
    var fa, fb := Atoms(a), Atoms(b);
    assert forall k :: 0 <= k < |Atoms(ra)| ==> Atoms(ra)[k] == fa[d + k];
    assert forall k :: 0 <= k < |Atoms(rb)| ==> Atoms(rb)[k] == fb[d + k];
  }

  lemma SameJoin(a: seq<Block>, b: seq<Block>)
    requires SameRuns(a, b)
    ensures AllBare(a) <==> AllBare(b)
    ensures AllBare(a) ==> Join(a) == Join(b)
  {
    OnlyText(a);
    OnlyText(b);
    if AllBare(a) && AllBare(b) && a != [] {
      SameRunsHead(a, b);
      var ta, _ := FlatSplit(a);
      var tb, _ := FlatSplit(b);
      RunOfBare(a);
      RunOfBare(b);
      SameTexts(Atoms(a), Atoms(b), ta, tb);
      assert a[..|a|] == a && b[..|b|] == b;
    }
    if a == [] {
      SameRunsHead(a, b);
    }
  }

  /** The matcher does not see how native cut its runs of bare text. */
  lemma {:induction false} RunsDoNotMatter(a: seq<Block>, b: seq<Block>, host: seq<Block>)
    requires SameRuns(a, b) && Settled(host)
    ensures RestoreSeq(a, host) == RestoreSeq(b, host)
    decreases host, 0
  {
    hide Join;
    hide RestoreBlock;
    hide Flat;
    SameRunsHead(a, b);
    if host == [] {
      SameJoin(a, b);
    } else if a == [] {
    } else if Bare(a[0]) && Bare(host[0]) {
      var ta, ra := FlatSplit(a);
      var tb, rb := FlatSplit(b);
      SameTexts(Atoms(a), Atoms(b), ta, tb);
      SameRunsTail(1 + |ta|, a, b, ra, rb);
      RunsDoNotMatter(ra, rb, host[RunLength(host)..]);
    } else if Bare(a[0]) {
      assert SettledBlock(host[0]);
      BareRefused(a[0], host[0]);
      BareRefused(b[0], host[0]);
    } else {
      RunsDoNotMatterBlock(a[0], b[0], host[0]);
      RunsDoNotMatter(a[1..], b[1..], host[1..]);
    }
  }

  lemma BareRefused(sent: Block, host: Block)
    requires Bare(sent) && !Bare(host) && SettledBlock(host)
    ensures RestoreBlock(sent, host).None?
  {
  }

  lemma {:induction false} RunsDoNotMatterBlock(a: Block, b: Block, host: Block)
    requires SameBlock(a, b) && SettledBlock(host)
    ensures RestoreBlock(a, host) == RestoreBlock(b, host)
    decreases host, 1
  {
    hide Join, RestoreSeq, SameRuns, AllBare;
    if a.ToolResult? && b.ToolResult? && a.content.Parts? && b.content.Parts? {
      SameJoin(a.content.blocks, b.content.blocks);
      if host.ToolResult? && host.content.Parts? {
        RunsDoNotMatter(a.content.blocks, b.content.blocks, host.content.blocks);
      }
    }
  }

  /** A cut is the same as itself, and as any cut with the same atoms. */
  lemma {:induction false} SameAtoms(a: seq<Block>, b: seq<Block>)
    requires Atoms(a) == Atoms(b)
    ensures SameRuns(a, b)
    decreases a, 0
  {
    forall k | 0 <= k < |Atoms(a)| && Atoms(a)[k].Prot? ensures SameBlock(Atoms(a)[k].block, Atoms(a)[k].block) {
      SameSelf(Atoms(a)[k].block);
    }
  }

  lemma {:induction false} SameSelf(b: Block)
    ensures SameBlock(b, b)
    decreases b, 1
  {
    if b.ToolResult? && b.content.Parts? {
      SameAtoms(b.content.blocks, b.content.blocks);
    }
  }

  lemma SameRunsCons(x: Block, y: Block, a: seq<Block>, b: seq<Block>)
    requires !Bare(x) && !Bare(y) && SameBlock(x, y) && SameRuns(a, b)
    ensures SameRuns([x] + a, [y] + b)
  {
    FlatCons(x, a, false);
    FlatCons(y, b, false);
    SameRunsPaired(a, b);
    PairedTail(Atoms([x] + a), Atoms([y] + b), Atoms(a), Atoms(b), Prot(x), Prot(y), SameBlockRelation());
    SameRunsPaired([x] + a, [y] + b);
  }

  /** How many blocks are not bare text. */
  function Guarded(bs: seq<Block>): nat {
    if bs == [] then 0 else (if Bare(bs[0]) then 0 else 1) + Guarded(bs[1..])
  }

  lemma {:induction false} GuardedPast(bs: seq<Block>, n: nat)
    requires n <= |bs| && forall k :: 0 <= k < n ==> Bare(bs[k])
    ensures Guarded(bs) == Guarded(bs[n..])
  {
    if n == 0 {
      assert bs[0..] == bs;
    } else {
      GuardedPast(bs[1..], n - 1);
      assert bs[1..][n - 1..] == bs[n..];
    }
  }

  /** Every block of native's that is not bare text takes one of the host's, and bare text in front takes one too. */
  lemma {:induction false} EachTakesOne(sent: seq<Block>, host: seq<Block>)
    requires RestoreSeq(sent, host).Some?
    ensures Guarded(sent) <= |host|
    ensures sent != [] && Bare(sent[0]) && host != [] ==> Guarded(sent) < |host|
    decreases host
  {
    if host == [] {
      GuardedPast(sent, |sent|);
    } else if Bare(host[0]) && Bare(sent[0]) {
      EachTakesOne(sent[RunLength(sent)..], host[RunLength(host)..]);
      GuardedPast(sent, RunLength(sent));
    } else {
      EachTakesOne(sent[1..], host[1..]);
    }
  }

  /** The frame with a mark on each bare text: nothing in it can join a run. */
  function Shielded(host: seq<Block>): (r: seq<Block>)
    ensures |r| == |host|
  {
    if host == [] then [] else [Shield(host[0])] + Shielded(host[1..])
  }

  function Shield(b: Block): (r: Block)
    ensures !Bare(r)
  {
    if Bare(b) then WithMark(b, Some(Null)) else b
  }

  lemma ShieldTaken(b: Block)
    requires RestorableBlock(b)
    ensures RestoreBlock(Shield(b), b).Some?
  {
    ExtendsBlock(b);
  }

  lemma {:induction false} ShieldedTaken(host: seq<Block>)
    requires Restorable(host)
    ensures RestoreSeq(Shielded(host), host).Some? && Guarded(Shielded(host)) == |host|
  {
    if host != [] {
      ShieldTaken(host[0]);
      ShieldedTaken(host[1..]);
      assert Shielded(host)[1..] == Shielded(host[1..]);
    }
  }

  /** A marked text that ends the host's frame takes native's whole text block. */
  lemma CutsOfLastText(host: seq<Block>) returns (a: seq<Block>, b: seq<Block>)
    requires |host| == 1 && Soft(host[0]) && host[0].mark.Some?
    ensures SameRuns(a, b) && RestoreSeq(a, host).Some? && RestoreSeq(b, host).None?
  {
    var text, more := Text(host[0].text, NO_REST, None), Text("x", NO_REST, None);
    a, b := [text, more], [text.(text := text.text + "x")];
    assert SameRuns(a, b) by {
      assert a[1..] == [more] && b[1..] == [];
      assert Join(a) == text.text + Join(a[1..]) && Join(a[1..]) == "x" + Join(a[2..]);
      assert Join(b) == text.text + "x" + Join(b[1..]);
      FlatRun(a, false);
      FlatRun(b, false);
      SameAtoms(a, b);
    }
    hide SameRuns;
    assert a[1..] == [more] && b[1..] == [] && host[1..] == [];
  }

  /** One in front of more takes a whole text block too: cut once more, there is a block too many. */
  lemma CutsOfText(host: seq<Block>) returns (a: seq<Block>, b: seq<Block>)
    requires |host| > 1 && Restorable(host) && Soft(host[0]) && host[0].mark.Some?
    ensures SameRuns(a, b) && RestoreSeq(a, host).Some? && RestoreSeq(b, host).None?
  {
    var text, none, tail := Text(host[0].text, NO_REST, None), Text("", NO_REST, None), Shielded(host[1..]);
    ShieldedTaken(host[1..]);
    a, b := [text] + tail, [text] + ([none] + tail);
    assert SameRuns(a, b) by {
      FlatCons(text, tail, false);
      FlatCons(text, [none] + tail, false);
      FlatCons(none, tail, true);
      assert Chars("") == [] && [] + Flat(tail, true) == Flat(tail, true);
      SameAtoms(a, b);
    }
    hide SameRuns;
    assert a[1..] == tail && b[1..] == [none] + tail && b[1..][1..] == tail;
    if RestoreSeq(b[1..], host[1..]).Some? {
      EachTakesOne(b[1..], host[1..]);
    }
  }

  lemma HeadThen(x: Block, a: seq<Block>, host: seq<Block>)
    requires host != [] && !Bare(x)
    ensures RestoreSeq([x] + a, host).Some? <==> RestoreBlock(x, host[0]).Some? && RestoreSeq(a, host[1..]).Some?
  {
    hide RestoreBlock;
    assert ([x] + a)[1..] == a;
  }

  /** A frame with a mark on bare text somewhere: two cuts of one native turn, the one taken, the other refused. */
  lemma {:induction false} CutsThatDiffer(host: seq<Block>) returns (a: seq<Block>, b: seq<Block>)
    requires Restorable(host) && !Settled(host)
    ensures SameRuns(a, b) && RestoreSeq(a, host).Some? && RestoreSeq(b, host).None?
    decreases host, 0
  {
    var head, rest := host[0], host[1..];
    if !SettledBlock(head) && Soft(head) {
      if rest == [] {
        a, b := CutsOfLastText(host);
      } else {
        a, b := CutsOfText(host);
      }
    } else {
      var headA, headB, tailA, tailB := Shield(head), Shield(head), Shielded(rest), Shielded(rest);
      if SettledBlock(head) {
        SameSelf(headA);
        ShieldTaken(head);
        tailA, tailB := CutsThatDiffer(rest);
      } else {
        headA, headB := CutsInside(head);
        SameAtoms(tailA, tailB);
        ShieldedTaken(rest);
      }
      SameRunsCons(headA, headB, tailA, tailB);
      HeadThen(headA, tailA, host);
      HeadThen(headB, tailB, host);
      a, b := [headA] + tailA, [headB] + tailB;
    }
  }

  lemma {:induction false} CutsInside(host: Block) returns (a: Block, b: Block)
    requires RestorableBlock(host) && !SettledBlock(host) && !Soft(host)
    ensures !Bare(a) && !Bare(b) && SameBlock(a, b) && RestoreBlock(a, host).Some? && RestoreBlock(b, host).None?
    decreases host, 1
  {
    var inA, inB := CutsThatDiffer(host.content.blocks);
    a, b := host.(content := Parts(inA)), host.(content := Parts(inB));
  }

  /**
    How native cut its runs never matters if and only if the host marked no bare text, at any depth, or its frame is
    one that nothing restores.
   */
  lemma RunsMatterExactly(host: seq<Block>)
    ensures (forall a, b :: SameRuns(a, b) ==> RestoreSeq(a, host) == RestoreSeq(b, host))
       <==> Settled(host) || !Restorable(host)
  {
    if Settled(host) || !Restorable(host) {
      forall a, b | SameRuns(a, b) ensures RestoreSeq(a, host) == RestoreSeq(b, host) {
        if Settled(host) {
          RunsDoNotMatter(a, b, host);
        } else {
          NothingRestores(a, host);
          NothingRestores(b, host);
        }
      }
    } else {
      var a, b := CutsThatDiffer(host);
      assert SameRuns(a, b) && RestoreSeq(a, host) != RestoreSeq(b, host);
    }
  }

  lemma NothingRestores(sent: seq<Block>, host: seq<Block>)
    requires !Restorable(host)
    ensures RestoreSeq(sent, host).None?
  {
    if RestoreSeq(sent, host).Some? {
      AcceptedRestorable(sent, host);
    }
  }

  /**
    Where the host marked a bare text, native's cut does matter: one block is accepted, the same text in two is not.
   */
  lemma RunsMatterUnderHostMark()
    ensures var host := [Text("ab", NO_REST, Some(Ttl("1h")))];
            var whole := [Text("ab", NO_REST, None)];
            var split := [Text("a", NO_REST, None), Text("b", NO_REST, None)];
            SameRuns(whole, split) && RestoreSeq(whole, host) == Some(host) && RestoreSeq(split, host).None?
  {
    var whole := [Text("ab", NO_REST, None)];
    var split := [Text("a", NO_REST, None), Text("b", NO_REST, None)];
    var host := [Text("ab", NO_REST, Some(Ttl("1h")))];
    assert SameRuns(whole, split) by {
      FlatRun(whole, false);
      FlatRun(split, false);
      assert Join(whole) == "ab" + "" && Join(split) == "a" + ("b" + Join(split[2..]));
      assert Atoms(whole) == Atoms(split);
      SameAtoms(whole, split);
    }
    hide SameRuns;
    assert whole[1..] == [] && host[1..] == [] && [host[0]] + [] == host;
    assert RestoreSeq(whole[1..], host[1..]) == Some([]);
    assert RestoreBlock(whole[0], host[0]) == Some(host[0]);
  }

  /** A mark native puts on the second of two bare texts makes the matcher refuse a frame that reads the same. */
  lemma MarkInsideRunRefused()
    ensures var host := [Text("a", NO_REST, None), Text("b", NO_REST, None)];
            var sent := [Text("a", NO_REST, None), Text("b", NO_REST, Some(Ttl("1h")))];
            Reading(sent) == Reading(host) && RestoreSeq(sent, host).None?
  {
    var host := [Text("a", NO_REST, None), Text("b", NO_REST, None)];
    var sent := [Text("a", NO_REST, None), Text("b", NO_REST, Some(Ttl("1h")))];
    assert Reading(host[1..]) == ReadOne(host[1]) + Reading(host[2..]);
    assert Reading(sent[1..]) == ReadOne(sent[1]) + Reading(sent[2..]);
    assert RunLength(host) == 1 + RunLength(host[1..]) && RunLength(host[1..]) == 1 + RunLength(host[2..]);
    assert RunLength(sent) == 1 + RunLength(sent[1..]) && RunLength(sent[1..]) == 0;
    assert host[..2] == host && sent[..1] == [sent[0]];
    assert Join(host) == "a" + Join(host[1..]) && Join(host[1..]) == "b" + Join(host[2..]);
    assert |Join(host)| == 2 && |Join([sent[0]])| == 1;
  }

  // ----- the matcher as the relay runs it -----

  /** What is still to do, and what is already restored, make the whole answer. */
  ghost predicate Partway(sent: seq<Block>, host: seq<Block>, j: nat, i: nat, restored: seq<Block>) {
    && i <= |host| && j <= |sent|
    && RestoreSeq(sent, host) == Prepend(restored, RestoreSeq(sent[j..], host[i..]))
  }

  lemma RunStep(sent: seq<Block>, host: seq<Block>, j: nat, i: nat, s: nat, h: nat, restored: seq<Block>)
    requires Partway(sent, host, j, i, restored) && i < |host| && j < |sent| && Bare(host[i]) && Bare(sent[j])
    requires j + RunLength(sent[j..]) == s && i + RunLength(host[i..]) == h
    ensures var original, actual := Join(host[i..h]), Join(sent[j..s]);
            if if h == |host| then original <= actual else actual == original
            then Partway(sent, host, s, h, restored + host[i..h])
            else RestoreSeq(sent, host).None?
  {
    hide RestoreSeq, Join, RunLength, Bare;
    SliceOf(sent, j, s - j);
    SliceOf(host, i, h - i);
    RunTaken(sent[j..], host[i..], s - j, host[i..h], sent[s..], host[h..]);
    RunAdded(sent, host, restored, host[i..h], RestoreSeq(sent[j..], host[i..]), RestoreSeq(sent[s..], host[h..]));
  }

  lemma SliceOf(bs: seq<Block>, i: nat, n: nat)
    requires i + n <= |bs|
    ensures bs[i..][..n] == bs[i..i + n] && bs[i..][n..] == bs[i + n..]
  {
  }

  lemma RunAdded(
      sent: seq<Block>, host: seq<Block>, restored: seq<Block>, run: seq<Block>, now: Option<seq<Block>>,
      tail: Option<seq<Block>>)
    requires RestoreSeq(sent, host) == Prepend(restored, now)
    ensures now == None ==> RestoreSeq(sent, host).None?
    ensures now == Prepend(run, tail) ==> RestoreSeq(sent, host) == Prepend(restored + run, tail)
  {
    hide RestoreSeq;
    PrependAssoc(restored, run, tail);
  }

  lemma RunTaken(
      sent: seq<Block>, host: seq<Block>, s: nat, run: seq<Block>, moreSent: seq<Block>, moreHost: seq<Block>)
    requires sent != [] && host != [] && Bare(host[0]) && Bare(sent[0])
    requires s == RunLength(sent) && run == host[..RunLength(host)]
    requires moreSent == sent[s..] && moreHost == host[|run|..]
    ensures var original, actual := Join(run), Join(sent[..s]);
            RestoreSeq(sent, host)
            == if if moreHost == [] then original <= actual else actual == original
               then Prepend(run, RestoreSeq(moreSent, moreHost)) else None
  {
    hide RestoreBlock, Join, AllBare, RunLength, Bare;
  }

  lemma BlockStep(sent: seq<Block>, host: seq<Block>, j: nat, i: nat, restored: seq<Block>)
    requires Partway(sent, host, j, i, restored) && i < |host| && j < |sent| && !(Bare(host[i]) && Bare(sent[j]))
    ensures match RestoreBlock(sent[j], host[i])
            case None => RestoreSeq(sent, host).None?
            case Some(b) => Partway(sent, host, j + 1, i + 1, restored + [b])
  {
    assert sent[j..][1..] == sent[j + 1..] && host[i..][1..] == host[i + 1..];
    match RestoreBlock(sent[j], host[i])
    case None =>
    case Some(b) => PrependAssoc(restored, [b], RestoreSeq(sent[j + 1..], host[i + 1..]));
  }

  /** One list against another: two indices, a run at a time on both sides. */
  method RestoreSequence(sent: seq<Block>, host: seq<Block>) returns (r: Option<seq<Block>>)
    ensures r == RestoreSeq(sent, host)
    decreases host, 2
  {
    var restored: seq<Block> := [];
    var i, j := 0, 0;
    assert sent[0..] == sent && host[0..] == host;
    PrependAssoc([], [], RestoreSeq(sent, host));
    while i < |host|
      invariant 0 <= i && 0 <= j && Partway(sent, host, j, i, restored)
      decreases |host| - i
    {
      if j >= |sent| {
        return None;
      }
      if Bare(host[i]) && Bare(sent[j]) {
        var hostEnd, original := TakeRun(host, i);
        var sentEnd, actual := TakeRun(sent, j);
        RunStep(sent, host, j, i, sentEnd, hostEnd, restored);
        if !(if hostEnd == |host| then original <= actual else actual == original) {
          return None;
        }
        restored := restored + host[i..hostEnd];
        i, j := hostEnd, sentEnd;
      } else {
        BlockStep(sent, host, j, i, restored);
        var b := RestoreOne(sent[j], host[i]);
        if b.None? {
          return None;
        }
        restored := restored + [b.value];
        i, j := i + 1, j + 1;
      }
    }
    if !AllBare(sent[j..]) {
      return None;
    }
    r := Some(restored);
    assert restored + [] == restored;
  }

  lemma PrependAssoc(a: seq<Block>, b: seq<Block>, tail: Option<seq<Block>>)
    ensures Prepend(a, Prepend(b, tail)) == Prepend(a + b, tail)
    ensures Prepend([], tail) == tail
  {
    if tail.Some? {
      assert a + (b + tail.value) == (a + b) + tail.value && [] + tail.value == tail.value;
    }
  }

  /** The end and the text of the run of bare text that starts at `from`. */
  method TakeRun(bs: seq<Block>, from: nat) returns (end: nat, text: string)
    requires from < |bs| && Bare(bs[from])
    ensures from < end <= |bs| && end - from == RunLength(bs[from..])
    ensures text == Join(bs[from..end])
  {
    end := from + 1;
    while end < |bs| && Bare(bs[end])
      invariant from < end <= |bs|
      invariant forall k :: from <= k < end ==> Bare(bs[k])
    {
      end := end + 1;
    }
    text := "";
    var k := end;
    while k > from
      invariant from <= k <= end
      invariant text == Join(bs[k..end])
    {
      k := k - 1;
      assert bs[k..end][1..] == bs[k + 1..end];
      text := bs[k].text + text;
    }
    RunIs(bs, from, end);
  }

  lemma {:induction false} RunIs(bs: seq<Block>, from: nat, end: nat)
    requires from <= end <= |bs|
    requires (forall k :: from <= k < end ==> Bare(bs[k])) && (end < |bs| ==> !Bare(bs[end]))
    ensures RunLength(bs[from..]) == end - from
    decreases end - from
  {
    if from < end {
      assert bs[from..][1..] == bs[from + 1..];
      RunIs(bs, from + 1, end);
    }
  }

  method RestoreOne(sent: Block, host: Block) returns (r: Option<Block>)
    ensures r == RestoreBlock(sent, host)
    decreases host, 1
  {
    if sent.Loose? || host.Loose? {
      return None;
    }
    var restored := host;
    if host.ToolResult? {
      if !sent.ToolResult? || !SameFlag(sent.isError, host.isError) || sent.id != host.id || sent.rest != host.rest {
        return None;
      }
      if sent.content.NoContent? != host.content.NoContent? {
        return None;
      }
      if !host.content.NoContent? {
        var c := RestoreInner(sent.content, host.content);
        if c.None? {
          return None;
        }
        restored := host.(content := c.value);
      }
    } else if Plain(sent) != Plain(host) {
      return None;
    }
    r := TakeMark(sent, restored);
  }

  method RestoreInner(sent: Content, host: Content) returns (r: Option<Content>)
    ensures r == RestoreContent(sent, host)
    decreases host, 1
  {
    if sent.Parts? && host.Parts? {
      var bs := RestoreSequence(sent.blocks, host.blocks);
      r := if bs.None? then None else Some(Parts(bs.value));
    } else {
      r := RestoreContent(sent, host);
    }
  }

  // ----- the turn -----

  /** The ids of the tool results of a list, in order. */
  function ResultIds(bs: seq<Block>): seq<Option<string>> {
    IdsTo(bs, |bs|)
  }

  function IdsTo(bs: seq<Block>, n: nat): seq<Option<string>>
    requires n <= |bs|
  {
    if n == 0 then [] else IdsTo(bs, n - 1) + if bs[n - 1].ToolResult? then [bs[n - 1].id] else []
  }

  /** Every id is a nonempty string, and no id repeats. */
  predicate UsableIds(ids: seq<Option<string>>) {
    && (forall k :: 0 <= k < |ids| ==> ids[k].Some? && ids[k].value != "")
    && (forall i, k :: 0 <= i < k < |ids| ==> ids[i] != ids[k])
  }

  predicate HasResult(bs: seq<Block>) {
    exists k :: 0 <= k < |bs| && bs[k].ToolResult?
  }

  datatype Restored = Unchanged | Rewritten(messages: seq<Message>) | Mismatch

  /** What `restore_queried_turn` answers for parsed messages; `queried` is None when it is not a list. */
  function RestoreTurn(ms: seq<Message>, queried: Option<seq<Block>>): Restored {
    if queried.None? || !HasResult(queried.value) then Unchanged
    else
      var at := LastAssistant(ms) + 1;
      if at == |ms| || ms[at].role != User || !ms[at].body.Blocks? then Mismatch
      else
        var ids := ResultIds(queried.value);
        if !UsableIds(ids) || ids != ResultIds(ms[at].body.blocks) then Mismatch
        else
          match RestoreSeq(ms[at].body.blocks, queried.value)
          case None => Mismatch
          case Some(r) =>
            if r == ms[at].body.blocks then Unchanged
            else Rewritten(ms[at := ms[at].(body := Blocks(r))])
  }

  /** The messages that go out: a refused frame is forwarded as native built it. */
  function Forwarded(ms: seq<Message>, queried: Option<seq<Block>>): seq<Message> {
    match RestoreTurn(ms, queried)
    case Rewritten(out) => out
    case _ => ms
  }

  /**
    Unless the frame is refused, a queried frame with a tool result goes out as the host queried it, marks apart, and
    nothing native sent in that turn is lost; every other message goes out untouched.
   */
  lemma TurnIsLossless(ms: seq<Message>, queried: seq<Block>)
    requires HasResult(queried) && !RestoreTurn(ms, Some(queried)).Mismatch?
    ensures var at := LastAssistant(ms) + 1;
            var out := Forwarded(ms, Some(queried));
            && at < |ms| == |out| && ms[at].role == User == out[at].role
            && (forall i :: 0 <= i < |ms| && i != at ==> out[i] == ms[i])
            && EraseAll(BlocksOf(out[at])) == EraseAll(queried)
            && Lossless(BlocksOf(ms[at]), queried, BlocksOf(out[at]))
  {
    var sent := BlocksOf(ms[LastAssistant(ms) + 1]);
    var r := RestoreSeq(sent, queried).value;
    Sound(sent, queried, r);
    RestoresHost(sent, queried, r);
  }

  // ----- when a turn is refused -----

  /** The places of the tool results among the first `n` blocks, in order. */
  function Places(bs: seq<Block>, n: nat): (r: seq<nat>)
    requires n <= |bs|
    ensures forall k :: 0 <= k < |r| ==> r[k] < n && bs[r[k]].ToolResult?
    ensures forall x :: 0 <= x < n && bs[x].ToolResult? ==> x in r
    ensures forall i, k :: 0 <= i < k < |r| ==> r[i] < r[k]
  {
    if n == 0 then [] else Places(bs, n - 1) + if bs[n - 1].ToolResult? then [n - 1] else []
  }

  /** The tool results of both lists have the same ids, place by place. */
  ghost predicate SameIds(a: seq<Block>, b: seq<Block>) {
    var p, r := Places(a, |a|), Places(b, |b|);
    |p| == |r| && forall k :: 0 <= k < |p| ==> a[p[k]].id == b[r[k]].id
  }

  /** Some tool result has no id or an empty one, or two have the same. */
  ghost predicate UnusableIds(q: seq<Block>) {
    || (exists x :: 0 <= x < |q| && q[x].ToolResult? && (q[x].id.None? || q[x].id == Some("")))
    || (exists x, y :: 0 <= x < y < |q| && q[x].ToolResult? && q[y].ToolResult? && q[x].id == q[y].id)
  }

  lemma {:induction false} IdsAre(bs: seq<Block>, n: nat)
    requires n <= |bs|
    ensures var p := Places(bs, n);
            |IdsTo(bs, n)| == |p| && forall k :: 0 <= k < |p| ==> IdsTo(bs, n)[k] == bs[p[k]].id
  {
    if n > 0 {
      IdsAre(bs, n - 1);
    }
  }

  /** Where a tool result stands among the ids. */
  lemma IdAt(q: seq<Block>, x: nat) returns (k: nat)
    requires x < |q| && q[x].ToolResult?
    ensures k < |ResultIds(q)| == |Places(q, |q|)| && Places(q, |q|)[k] == x && ResultIds(q)[k] == q[x].id
  {
    IdsAre(q, |q|);
    k :| 0 <= k < |Places(q, |q|)| && Places(q, |q|)[k] == x;
  }

  lemma UsableNone(q: seq<Block>)
    requires UsableIds(ResultIds(q))
    ensures !UnusableIds(q)
  {
    hide ResultIds;
    hide Places;
    forall x | 0 <= x < |q| && q[x].ToolResult? ensures q[x].id.Some? && q[x].id != Some("") {
      var k := IdAt(q, x);
    }
    forall x, y | 0 <= x < y < |q| && q[x].ToolResult? && q[y].ToolResult? ensures q[x].id != q[y].id {
      var i := IdAt(q, x);
      var k := IdAt(q, y);
      assert i < k || k < i;
    }
  }

  lemma UnusableSome(q: seq<Block>)
    requires !UsableIds(ResultIds(q))
    ensures UnusableIds(q)
  {
    IdsAre(q, |q|);
    hide ResultIds;
    var p, ids := Places(q, |q|), ResultIds(q);
    hide Places;
    if exists k :: 0 <= k < |ids| && !(ids[k].Some? && ids[k].value != "") {
      var k :| 0 <= k < |ids| && !(ids[k].Some? && ids[k].value != "");
      assert q[p[k]].ToolResult?;
    } else {
      var i, k :| 0 <= i < k < |ids| && ids[i] == ids[k];
      assert p[i] < p[k] && q[p[i]].ToolResult? && q[p[k]].ToolResult?;
    }
  }

  lemma UsableIs(q: seq<Block>)
    ensures UsableIds(ResultIds(q)) <==> !UnusableIds(q)
  {
    if UsableIds(ResultIds(q)) {
      UsableNone(q);
    } else {
      UnusableSome(q);
    }
  }

  lemma IdsAgree(a: seq<Block>, b: seq<Block>)
    ensures ResultIds(a) == ResultIds(b) <==> SameIds(a, b)
  {
    IdsAre(a, |a|);
    IdsAre(b, |b|);
    var p, r := Places(a, |a|), Places(b, |b|);
    if ResultIds(a) == ResultIds(b) {
      forall k | 0 <= k < |p| ensures a[p[k]].id == b[r[k]].id {
        assert ResultIds(a)[k] == ResultIds(b)[k];
      }
    }
  }

  /**
    A queried frame with a tool result is refused if and only if the message after the last assistant message is
    missing, no user message or no list, or a queried result's id is missing, empty or repeated, or the ids native sent
    are not those in that order, or what native sent does not fit the frame.
   */
  lemma RefusedExactly(ms: seq<Message>, q: seq<Block>, at: nat)
    requires AfterAnswers(ms, at) && exists k :: 0 <= k < |q| && q[k].ToolResult?
    ensures RestoreTurn(ms, Some(q)).Mismatch?
       <==> || at == |ms| || ms[at].role != User || !ms[at].body.Blocks?
            || UnusableIds(q) || !SameIds(ms[at].body.blocks, q) || !Fits(ms[at].body.blocks, q)
  {
    hide UsableIds;
    hide UnusableIds;
    hide ResultIds;
    hide SameIds;
    hide Fits;
    hide RestoreSeq;
    AfterAnswersIs(ms, at);
    UsableIs(q);
    if at < |ms| && ms[at].body.Blocks? {
      IdsAgree(ms[at].body.blocks, q);
      Exact(ms[at].body.blocks, q);
    }
  }

  /** Without a tool result in the frame, or without a frame, the messages go out as they came. */
  lemma OthersUnchanged(ms: seq<Message>, q: Option<seq<Block>>)
    requires q.Some? ==> forall k :: 0 <= k < |q.value| ==> !q.value[k].ToolResult?
    ensures RestoreTurn(ms, q) == Unchanged && Forwarded(ms, q) == ms
  {
  }
}
