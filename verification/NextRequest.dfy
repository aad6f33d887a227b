/** Two native requests of one conversation, both through the relay: what the first marks, the second reads again. */
module NextRequest {
  import opened Basics
  import opened Wire
  import opened Marks
  import opened Pinning
  import opened StableContext
  import opened Recurrence
  import Restoration

  /** The date line a message is, if it is one. */
  function DateLineOf(m: Message): Option<string> {
    if m.role == System && SoleText(m).Some? && DateLine(SoleText(m).value) then SoleText(m) else None
  }

  /** Both requests end with the same date line, or neither ends with one. */
  predicate SameDay(a: seq<Message>, b: seq<Message>) {
    a != [] && b != [] && DateLineOf(a[|a| - 1]) == DateLineOf(b[|b| - 1])
  }

  /**
    Native's next request: it replays the messages through the last assistant message, then the frame that was queried,
    then the answer, and a later user turn with whatever native put before its frame. The day's date line is split off
    at the end of both requests or of neither, unless nobody answered before: an opening request has the date in its
    environment message, and the request after it at the end.
   */
  ghost predicate Follows(next: seq<Message>, ms: seq<Message>, q: seq<Block>) {
    var last := LastAssistant(ms);
    && Replays(next, ms, q) && (last == -1 || SameDay(next, ms))
    && last + 1 < LastUserTo(next, |next|) && last < LastAssistant(next)
  }

  // ----- roles -----

  lemma {:induction false} PrefixLast(a: seq<Message>, b: seq<Message>, n: nat)
    requires n <= |a| && n <= |b| && forall i :: 0 <= i < n ==> a[i].role == b[i].role
    ensures LastAssistantTo(a, n) == LastAssistantTo(b, n)
  {
    if n > 0 {
      PrefixLast(a, b, n - 1);
    }
  }

  lemma {:induction false} PrefixUser(a: seq<Message>, b: seq<Message>, n: nat)
    requires n <= |a| && n <= |b| && forall i :: 0 <= i < n ==> a[i].role == b[i].role
    ensures LastUserTo(a, n) == LastUserTo(b, n)
  {
    if n > 0 {
      PrefixUser(a, b, n - 1);
    }
  }

  lemma DatedLast(ms: seq<Message>)
    ensures LastAssistant(Dated(ms)) == LastAssistant(ms) && LastUserTo(Dated(ms), |Dated(ms)|) == LastUserTo(ms, |ms|)
  {
    DatedRoles(ms);
    PrefixLast(Dated(ms), ms, |Dated(ms)|);
    PrefixUser(Dated(ms), ms, |Dated(ms)|);
  }

  // ----- the date line goes to the same place -----

  lemma AppendedSame(a: Message, b: Message, s: string)
    requires SameMessage(a, b)
    ensures LastText(a) == LastText(b) && (LastText(a).Some? ==> SameMessage(Appended(a, s), Appended(b, s)))
  {
    var x, y := BlocksOf(a), BlocksOf(b);
    if x != [] {
      assert Plain(x[|x| - 1]) == Plain(y[|y| - 1]);
      if LastText(a).Some? {
        assert SameBlocks(BlocksOf(Appended(a, s)), BlocksOf(Appended(b, s)));
      }
    }
  }

  lemma SameTrans(a: Message, b: Message, c: Message)
    requires SameMessage(a, b) && SameMessage(b, c)
    ensures SameMessage(a, c)
  {
  }

  lemma SameBack(a: Message, b: Message)
    requires SameMessage(a, b)
    ensures SameMessage(b, a)
  {
  }

  /** Message `i` with the date line moved, marks aside. */
  function WithDate(ms: seq<Message>, i: nat): Message
    requires i < |ms|
  {
    if Date(ms).Some? && i == FirstSystem(ms, 0, |ms| - 1) then Appended(ms[i], "\n\n" + Date(ms).value) else ms[i]
  }

  lemma DatedIs(ms: seq<Message>, i: nat)
    requires i < |Dated(ms)|
    ensures SameMessage(Dated(ms)[i], WithDate(ms, i))
  {
    if Date(ms).Some? {
      DateMoves(ms);
    }
  }

  /** The first `n` messages of the two are the same, marks aside. */
  ghost predicate Shared(a: seq<Message>, b: seq<Message>, n: nat) {
    n <= |a| && n <= |b| && forall i :: 0 <= i < n ==> SameMessage(a[i], b[i])
  }

  /** The first system message is the same one, when it is in the span the two share. */
  lemma SamePlace(a: seq<Message>, b: seq<Message>, n: nat)
    requires n < |a| && n < |b| && forall i :: 0 <= i < n ==> a[i].role == b[i].role
    ensures var e := FirstSystem(a, 0, |a| - 1);
            e < n || FirstSystem(b, 0, |b| - 1) < n ==> e == FirstSystem(b, 0, |b| - 1)
  {
    SameFirstSystem(a, b, 0, n);
    FirstSystemShort(a, 0, |a| - 1, n);
    FirstSystemShort(b, 0, |b| - 1, n);
  }

  lemma DateIs(ms: seq<Message>)
    requires |ms| >= 2
    ensures var e, line := FirstSystem(ms, 0, |ms| - 1), DateLineOf(ms[|ms| - 1]);
            var text := LastText(ms[e]);
            Date(ms)
            == if e == |ms| - 1 || line.None? || text.None? || EndsWith(text.value, line.value) then None else line
  {
  }

  /** In the span both requests share, the line is appended to the same message. */
  lemma SameWithDate(a: seq<Message>, b: seq<Message>, n: nat, i: nat)
    requires Shared(a, b, n) && SameDay(a, b) && i < n < |a| && n < |b|
    ensures SameMessage(WithDate(a, i), WithDate(b, i))
  {
    assert SameMessage(a[i], b[i]);
    assert forall k :: 0 <= k < n ==> a[k].role == b[k].role by {
      forall k | 0 <= k < n ensures a[k].role == b[k].role {
        assert SameMessage(a[k], b[k]);
      }
    }
    hide SameMessage;
    hide DateLineOf;
    hide LastText;
    hide Appended;
    SamePlace(a, b, n);
    DateIs(a);
    DateIs(b);
    hide Date;
    hide FirstSystem;
    if i == FirstSystem(a, 0, |a| - 1) || i == FirstSystem(b, 0, |b| - 1) {
      var line := DateLineOf(a[|a| - 1]);
      AppendedSame(a[i], b[i], "\n\n" + if line.Some? then line.value else "");
    }
  }

  lemma DatedShared(a: seq<Message>, b: seq<Message>, n: nat)
    requires Shared(a, b, n) && SameDay(a, b) && n < |a| && n < |b|
    ensures Shared(Dated(a), Dated(b), n)
  {
    hide SameMessage;
    hide Dated;
    hide WithDate;
    hide Date;
    hide SameDay;
    forall i | 0 <= i < n ensures SameMessage(Dated(a)[i], Dated(b)[i]) {
      DatedIs(a, i);
      DatedIs(b, i);
      SameBack(Dated(b)[i], WithDate(b, i));
      SameWithDate(a, b, n, i);
      SameTrans(Dated(a)[i], WithDate(a, i), WithDate(b, i));
      SameTrans(Dated(a)[i], WithDate(b, i), Dated(b)[i]);
    }
  }

  /** A user message that begins with the frame still does when only marks changed. */
  ghost predicate Begins(m: Message, q: seq<Block>) {
    && m.role == User && |q| <= |BlocksOf(m)|
    && forall k :: 0 <= k < |q| ==> Plain(BlocksOf(m)[k]) == Plain(q[k])
  }

  lemma BeginsSame(a: Message, b: Message, q: seq<Block>)
    requires SameMessage(a, b) && Begins(b, q)
    ensures Begins(a, q)
  {
    var x, y := BlocksOf(a), BlocksOf(b);
    assert SameBlocks(x, y);
    assert forall k :: 0 <= k < |q| ==> Plain(x[k]) == Plain(y[k]);
  }

  lemma ReplaysIs(next: seq<Message>, ms: seq<Message>, q: seq<Block>)
    ensures var n := LastAssistant(ms) + 1;
            Replays(next, ms, q) <==> n < |next| && Shared(next, ms, n) && Begins(next[n], q)
  {
    hide SameMessage;
  }

  lemma DatedReplays(next: seq<Message>, ms: seq<Message>, q: seq<Block>)
    requires Follows(next, ms, q) && LastAssistant(ms) + 1 < |ms|
    ensures Replays(Dated(next), Dated(ms), q)
  {
    hide SameMessage;
    hide Begins;
    hide Dated;
    hide Shared;
    hide Replays;
    hide Date;
    hide WithDate;
    hide SameDay;
    var n := (LastAssistant(ms) + 1) as nat;
    ReplaysIs(next, ms, q);
    ReplaysIs(Dated(next), Dated(ms), q);
    DatedLast(ms);
    if n > 0 {
      DatedShared(next, ms, n);
    } else {
      NothingShared(Dated(next), Dated(ms));
    }
    DatedBegins(next, n, q);
  }

  /** The user message that begins with the frame gets no date line. */
  lemma DatedBegins(ms: seq<Message>, i: nat, q: seq<Block>)
    requires i < |Dated(ms)| && Begins(ms[i], q)
    ensures Begins(Dated(ms)[i], q)
  {
    hide Dated;
    hide Begins;
    DatedIs(ms, i);
    UserNoDate(ms, i, q);
    BeginsSame(Dated(ms)[i], ms[i], q);
  }

  lemma NothingShared(a: seq<Message>, b: seq<Message>)
    ensures Shared(a, b, 0)
  {
  }

  lemma UserNoDate(ms: seq<Message>, i: nat, q: seq<Block>)
    requires i < |ms| && Begins(ms[i], q)
    ensures WithDate(ms, i) == ms[i]
  {
  }

  // ----- the reminders go, and only behind the frame -----

  /** Dropping reminders touches one user message. */
  lemma DroppedElsewhere(ms: seq<Message>, q: seq<Block>, i: nat)
    requires Shaped(ms, q) && i < |ms| && i != LastUserTo(ms, |ms|)
    ensures Dropped(ms, q)[i] == ms[i]
  {
    if Reminders(ms, q).Some? {
      ReminderGoes(ms, q);
    }
  }

  lemma DroppedRoles(ms: seq<Message>, q: seq<Block>)
    requires Shaped(ms, q)
    ensures forall i :: 0 <= i < |ms| ==> Dropped(ms, q)[i].role == ms[i].role
  {
    if Reminders(ms, q).Some? {
      ReminderGoes(ms, q);
    }
  }

  lemma DroppedReplays(next: seq<Message>, ms: seq<Message>, q: seq<Block>, q': seq<Block>)
    requires Replays(next, ms, q) && Shaped(next, q') && Shaped(ms, q)
    requires LastAssistant(ms) + 1 < LastUserTo(next, |next|) && LastAssistant(ms) < LastUserTo(ms, |ms|)
    ensures Replays(Dropped(next, q'), Dropped(ms, q), q)
  {
    hide SameMessage;
    hide Dropped;
    hide Shaped;
    hide Begins;
    ReplaysIs(next, ms, q);
    DroppedRoles(ms, q);
    PrefixLast(Dropped(ms, q), ms, |ms|);
    var n := (LastAssistant(ms) + 1) as nat;
    forall i | 0 <= i < n ensures SameMessage(Dropped(next, q')[i], Dropped(ms, q)[i]) {
      DroppedElsewhere(next, q', i);
      DroppedElsewhere(ms, q, i);
    }
    DroppedElsewhere(next, q', n);
    ReplaysIs(Dropped(next, q'), Dropped(ms, q), q);
  }

  /** The opening request: dropping native's context there touches nothing that was answered. */
  lemma FramedReplays(next: seq<Message>, ms: seq<Message>, q: seq<Block>)
    requires Replays(next, ms, q) && !FrameFirst(ms, q).Raised?
    ensures Replays(next, Framed(ms, q), q)
  {
    if FrameFirst(ms, q).Changed? {
      PrefixLast(Framed(ms, q), ms, |ms|);
    }
  }

  lemma StableReplays(next: seq<Message>, ms: seq<Message>, q: seq<Block>, q': seq<Block>)
    requires Follows(next, ms, q) && Shaped(ms, q) && Shaped(next, q') && LastAssistant(ms) < LastUserTo(ms, |ms|)
    ensures Replays(Stable(next, q'), Stable(ms, q), q) && LastAssistant(Stable(next, q')) == LastAssistant(next)
  {
    hide Shaped;
    hide Replays;
    hide Dated;
    hide Dropped;
    DatedReplays(next, ms, q);
    DatedShaped(ms, q);
    DatedShaped(next, q');
    DatedLast(ms);
    DatedLast(next);
    DroppedReplays(Dated(next), Dated(ms), q, q');
    DroppedRoles(Dated(next), q');
    PrefixLast(Stable(next, q'), Dated(next), |Dated(next)|);
  }

  /** Once somebody answered, pinning changes nothing but marks. */
  lemma PinLater(ms: seq<Message>, outside: nat, q: seq<Block>)
    requires LastAssistant(ms) != -1
    ensures SamePlain(Pin(ms, outside, q), ms)
  {
    hide SamePlain;
    SamePlainSelf(ms);
    PinContent(ms, outside, q);
  }

  // ----- restoration comes first -----

  /** Restoration touches at most the user message after the last assistant message, and keeps it one. */
  lemma ForwardedIs(ms: seq<Message>, q: seq<Block>)
    ensures var out, at := Restoration.Forwarded(ms, Some(q)), LastAssistant(ms) + 1;
            && |out| == |ms| && (forall i :: 0 <= i < |ms| && i != at ==> out[i] == ms[i])
            && (forall i :: 0 <= i < |ms| ==> out[i].role == ms[i].role)
            && (at < |ms| && out[at] != ms[at] ==> ms[at].role == User)
  {
  }

  lemma ForwardedRoles(ms: seq<Message>, q: seq<Block>)
    ensures var out := Restoration.Forwarded(ms, Some(q));
            && LastAssistant(out) == LastAssistant(ms) && LastUserTo(out, |out|) == LastUserTo(ms, |ms|)
            && (ms != [] ==> out != [] && DateLineOf(out[|out| - 1]) == DateLineOf(ms[|ms| - 1]))
  {
    ForwardedIs(ms, q);
    PrefixLast(Restoration.Forwarded(ms, Some(q)), ms, |ms|);
    PrefixUser(Restoration.Forwarded(ms, Some(q)), ms, |ms|);
  }

  /** What follows a request follows it after restoration, restored itself. */
  lemma ForwardedFollows(next: seq<Message>, ms: seq<Message>, q: seq<Block>, q': seq<Block>)
    requires Follows(next, ms, q)
    ensures Follows(Restoration.Forwarded(next, Some(q')), Restoration.Forwarded(ms, Some(q)), q)
  {
    hide SameMessage;
    hide Begins;
    hide DateLineOf;
    hide Restoration.Forwarded;
    var now, later := Restoration.Forwarded(ms, Some(q)), Restoration.Forwarded(next, Some(q'));
    ForwardedIs(ms, q);
    ForwardedRoles(ms, q);
    ForwardedIs(next, q');
    ForwardedRoles(next, q');
    ReplaysIs(next, ms, q);
    ReplaysIs(later, now, q);
    var n := LastAssistant(ms) + 1;
    forall i | 0 <= i < n ensures SameMessage(later[i], now[i]) {
      assert SameMessage(next[i], ms[i]) && later[i] == next[i] && now[i] == ms[i];
    }
    assert later[n] == next[n];
  }

  // ----- end to end -----

  /** What the relay sends for native's messages. */
  function Sent(ms: seq<Message>, outside: nat, q: seq<Block>): seq<Message> {
    Pin(Stable(Restoration.Forwarded(ms, Some(q)), q), outside, q)
  }

  /** Dropping context never fails on blocks that are objects. */
  lemma NoRaise(ms: seq<Message>, q: seq<Block>)
    requires Shaped(ms, q)
    ensures !FrameFirst(ms, q).Raised?
  {
    if ContextBefore(ms, q).Some? {
      var f, k := FirstUser(ms, 0), ContextBefore(ms, q).value;
      assert Expected(ms[f]) && Typed(BlocksOf(ms[f])[k]);
    }
  }

  lemma StableShaped(ms: seq<Message>, q: seq<Block>)
    requires Shaped(ms, q)
    ensures Shaped(Stable(ms, q), q)
  {
    DatedShaped(ms, q);
    DroppedOnce(Dated(ms), q);
  }

  /**
    Recurrence from end to end: what the relay sends for one native request and what it sends for the one that follows
    are the same, marks apart, from the start through every block mark of the first.
   */
  lemma RewriteRecurs(
      ms: seq<Message>, outside: nat, q: seq<Block>, next: seq<Message>, outside': nat, q': seq<Block>, p: Pos)
    requires Follows(next, ms, q) && q != [] && LastAssistant(ms) < LastUserTo(ms, |ms|)
    requires var now, later := Restoration.Forwarded(ms, Some(q)), Restoration.Forwarded(next, Some(q'));
             Shaped(now, q) && Shaped(later, q') && Target(Framed(Stable(now, q), q), q).Some?
    requires MarkedAt(Sent(ms, outside, q), p)
    ensures SameThrough(Sent(ms, outside, q), Sent(next, outside', q'), p)
  {
    hide Follows;
    hide Shaped;
    hide Replays;
    hide SameThrough;
    hide Stable;
    hide Pin;
    hide Framed;
    hide FrameFirst;
    hide Target;
    hide SamePlain;
    hide MarkedAt;
    hide Restoration.Forwarded;
    var was, will := Restoration.Forwarded(ms, Some(q)), Restoration.Forwarded(next, Some(q'));
    var now, later := Stable(was, q), Stable(will, q');
    ForwardedFollows(next, ms, q, q');
    ForwardedRoles(ms, q);
    LaterAnswer(will, was, q);
    StableReplays(will, was, q, q');
    StableShaped(was, q);
    NoRaise(now, q);
    FramedReplays(later, now, q);
    PinRecurs(now, outside, q, later, p);
    PinLater(later, outside', q');
    SameThroughPlain(Pin(now, outside, q), later, Pin(later, outside', q'), p);
  }

  lemma LaterAnswer(next: seq<Message>, ms: seq<Message>, q: seq<Block>)
    requires Follows(next, ms, q)
    ensures LastAssistant(next) != -1
  {
  }

  lemma SameThroughPlain(a: seq<Message>, b: seq<Message>, c: seq<Message>, p: Pos)
    requires SameThrough(a, b, p) && SamePlain(c, b)
    ensures SameThrough(a, c, p)
  {
    SamePlainAt(c, b, p.i);
    forall i | 0 <= i < p.i ensures SameMessage(a[i], c[i]) {
      SamePlainAt(c, b, i);
      assert SameMessage(a[i], b[i]);
    }
  }

  // ----- the first pair of requests -----

  function TextBlock(text: string): Block {
    Text(text, NO_REST, None)
  }

  function Says(role: Role, blocks: seq<Block>): Message {
    Message(role, Blocks(blocks), NO_REST, None)
  }

  /** Native's opening request: its context before the frame; the date ends the environment, and a mark stands there. */
  function OpeningRequest(context: string, frame: string, env: string, date: string, mark: Mark): seq<Message> {
    [Says(User, [TextBlock(context), TextBlock(frame)]),
     Says(System, [Text(env + "\n\n" + date, NO_REST, Some(mark))])]
  }

  /** The one after it: the first turn bare, the environment without the date, one tool round, the date at the end. */
  function SecondRequest(
      frame: string, env: string, date: string, mark: Mark, use: Block, result: Block): seq<Message> {
    [Says(User, [TextBlock(frame)]), Message(System, Line(env), NO_REST, None), Says(Assistant, [use]),
     Says(User, [result]), Says(System, [Text(date, NO_REST, Some(mark))])]
  }

  lemma OpeningStable(context: string, frame: string, env: string, date: string, mark: Mark)
    ensures var ms, q := OpeningRequest(context, frame, env, date, mark), [TextBlock(frame)];
            && LastAssistant(ms) == -1 && LastUserTo(ms, |ms|) == 0
            && Restoration.Forwarded(ms, Some(q)) == ms && Shaped(ms, q) && Stable(ms, q) == ms
  {
    var ms, q := OpeningRequest(context, frame, env, date, mark), [TextBlock(frame)];
    assert LastAssistantTo(ms, 0) == LastAssistantTo(ms, 1) == -1;
    assert LastUserTo(ms, 1) == 0;
    assert FirstSystem(ms, 0, 1) == 1;
    assert Date(ms).None?;
  }

  /** The first turn is sent without native's context. */
  lemma OpeningFramed(context: string, frame: string, env: string, date: string, mark: Mark)
    requires context != frame
    ensures var ms, q := OpeningRequest(context, frame, env, date, mark), [TextBlock(frame)];
            FrameFirst(ms, q) == Changed([Says(User, q), ms[1]])
  {
    var ms, q := OpeningRequest(context, frame, env, date, mark), [TextBlock(frame)];
    var c := BlocksOf(ms[0]);
    OpeningStable(context, frame, env, date, mark);
    assert FirstUser(ms, 0) == 0;
    assert Stands(c, q, 1, 0) && Stands(c, q, 1, 1) && HitAt(c, q, 1);
    forall x: nat | HitAt(c, q, x) ensures x == 1 {
      StandsEach(c, q, x, 1);
    }
    OnlyHitIs(c, q, 1);
    assert NextIn(c, 2) == NextIn(c, 1) == NextIn(c, 0) == 2;
    assert c[1..] == q && ms[0 := Says(User, q)] == [Says(User, q), ms[1]];
  }

  /** The mark after the frame is folded onto it. */
  lemma OpeningPinned(frame: string, last: Message, outside: nat, mark: Mark)
    requires last.role == System && |BlocksOf(last)| == 1
    requires BlocksOf(last)[0].Text? && BlocksOf(last)[0].mark == Some(mark)
    ensures var first, q := [Says(User, [TextBlock(frame)]), last], [TextBlock(frame)];
            Target(first, q) == Some(Pos(0, 0)) && MarkedAt(PinMarks(first, outside, q), Pos(0, 0))
  {
    var first, q := [Says(User, [TextBlock(frame)]), last], [TextBlock(frame)];
    assert LastAssistantTo(first, 0) == LastAssistantTo(first, 1) == -1;
    assert SharedPrefix(q, q, 1) == 1;
    assert StableNewest(first, q) == 1 && LastCacheable(q, 1) == 0;
    var t := Pos(0, 0);
    assert !Before(Pos(1, 0), t) && MarkedAt(first, Pos(1, 0));
    FoldedTarget(first, t);
    FoldAt(first, t);
    SameTurnStart(Fold(first, t), first);
  }

  lemma SecondFollows(context: string, frame: string, env: string, date: string, mark: Mark, use: Block, result: Block)
    ensures Follows(SecondRequest(frame, env, date, mark, use, result), OpeningRequest(context, frame, env, date, mark),
                    [TextBlock(frame)])
  {
    var next := SecondRequest(frame, env, date, mark, use, result);
    OpeningStable(context, frame, env, date, mark);
    assert LastUserTo(next, 4) == LastUserTo(next, 5) == 3;
    assert LastAssistantTo(next, 3) == LastAssistantTo(next, 4) == LastAssistantTo(next, 5) == 2;
  }

  /**
    The first pair of requests of a conversation as native sends them: the second follows the opening one, what the
    relay sends for that has its mark on the frame, and what it sends for the second is the same through there.
   */
  lemma OpeningRecurs(
      context: string, frame: string, env: string, date: string, mark: Mark, use: Block, result: Block,
      outside: nat, outside': nat, q': seq<Block>)
    requires context != frame
    requires Shaped(Restoration.Forwarded(SecondRequest(frame, env, date, mark, use, result), Some(q')), q')
    ensures var ms, next := OpeningRequest(context, frame, env, date, mark),
                            SecondRequest(frame, env, date, mark, use, result);
            var q := [TextBlock(frame)];
            && Follows(next, ms, q) && MarkedAt(Sent(ms, outside, q), Pos(0, 0))
            && SameThrough(Sent(ms, outside, q), Sent(next, outside', q'), Pos(0, 0))
  {
    hide Shaped;
    hide Follows;
    hide Restoration.Forwarded;
    var ms, q := OpeningRequest(context, frame, env, date, mark), [TextBlock(frame)];
    OpeningStable(context, frame, env, date, mark);
    OpeningFramed(context, frame, env, date, mark);
    OpeningPinned(frame, ms[1], outside, mark);
    SecondFollows(context, frame, env, date, mark, use, result);
    RewriteRecurs(ms, outside, q, SecondRequest(frame, env, date, mark, use, result), outside', q', Pos(0, 0));
  }
}
