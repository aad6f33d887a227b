/** What the admission and Stop protocol gets done when a worker is let run: safety alone would allow doing nothing. */
module Progress {
  import opened Basics
  import opened Admission

  /** The state after some steps. */
  function Ran(times: Times, s: State, steps: seq<Step>): State
    decreases |steps|
  {
    if steps == [] then s else Ran(times, Apply(times, s, steps[0]), steps[1..])
  }

  /** A check that passes, a call that goes through and is answered, and an id native has not used. */
  predicate Smooth(log: seq<Event>, c: Choice) {
    c.ok && !c.other && !c.lost && (log == [] || log[|log| - 1].id < c.id)
  }

  /** An event of the dispatcher's or of a worker's own, which decides nothing. */
  predicate Neutral(e: Event) {
    e.kind.OtherKind? && e.kind.name != "review_requested" && e.kind.name != "changes_requested"
  }

  /** Only worker `w` moves, smoothly, while neutral events may come in. */
  predicate Alone(times: Times, s: State, w: nat, steps: seq<Step>)
    decreases |steps|
  {
    steps != [] ==>
      && (match steps[0]
          case Go(v, c) => v == w && Smooth(s.shared.log, c)
          case Outside(e) => Neutral(e)
          case _ => false)
      && Alone(times, Apply(times, s, steps[0]), w, steps[1..])
  }

  function Moves(steps: seq<Step>): nat {
    if steps == [] then 0 else (if steps[0].Go? then 1 else 0) + Moves(steps[1..])
  }

  function Events(steps: seq<Step>): nat {
    if steps == [] then 0 else (if steps[0].Outside? then 1 else 0) + Events(steps[1..])
  }

  // ----- a Stop lands -----

  predicate CarriesStop(log: seq<Event>, a: nat) {
    exists k :: 0 <= k < |log| && (log[k].kind == Blocked(StopOf(a)) || log[k].kind == BlockLoop(StopOf(a)))
  }

  predicate Control(k: Kind) {
    k.Unblocked? || k.Completed? || k.Archived?
  }

  /** Nobody resumed or finished the task at or after the second of the click. */
  predicate NoLateControl(times: Times, log: seq<Event>, a: nat) {
    forall k :: 0 <= k < |log| && Control(log[k].kind) ==> log[k].at < times.stamp(a) / 1000
  }

  /** The click is not before the assignment, and all that happened since is our own initial unblock and neutral. */
  predicate OnlyAdmitted(times: Times, s: Shared, a: nat) {
    && s.create == Some(Applied) && times.stamp(a) >= times.source
    && |s.log| >= 2 && s.log[0].kind.Created? && s.log[1].kind == Blocked(InitialStatus)
    && (|s.log| > 2 ==> s.log[2].kind == Unblocked(Some(s.log[1].id)))
    && forall k :: 3 <= k < |s.log| ==>
         !Control(s.log[k].kind) && !s.log[k].kind.Blocked?
         && s.log[k].kind != OtherKind("review_requested") && s.log[k].kind != OtherKind("changes_requested")
  }

  predicate Increasing(log: seq<Event>) {
    forall i, j :: 0 <= i < j < |log| ==> log[i].id < log[j].id
  }

  /** The Stop is still to be made, and nobody decided otherwise in what was read, the first `n` events. */
  predicate Due(times: Times, s: Shared, a: nat, n: nat) {
    && s.log != [] && Increasing(s.log) && !CarriesStop(s.log, a)
    && (NoLateControl(times, s.log, a) || (OnlyAdmitted(times, s, a) && n >= 2))
  }

  /** The intent is open: whoever made it, it is not applied and nobody superseded it. */
  predicate Pending(s: Shared, a: nat) {
    a in s.stops && s.stops[a].phase != Applied && !s.stops[a].superseded
  }

  /** The Stop was made: its block is in the log, and its intent says so. */
  predicate Made(s: Shared, a: nat) {
    CarriesStop(s.log, a) && a in s.stops && s.stops[a].phase == Applied
  }

  /** A try that read `n` events: one that is outdated fails and costs another round. */
  predicate InTry(times: Times, s: Shared, a: nat, tries: nat, n: nat, d: nat, left: nat, need: nat) {
    && Due(times, s, a, n) && Pending(s, a) && 0 < n <= |s.log|
    && if n == |s.log| then tries >= d + 1 && left >= need + 3 * d else tries >= d + 2 && left >= need + 3 + 3 * d
  }

  /** Where a worker is on the way, with `left` moves to go at most while `d` more events may come in. */
  predicate OnTheWay(times: Times, s: Shared, l: Local, a: nat, d: nat, left: nat) {
    match l
    case StopBegin(b) =>
      b == a && Due(times, s, a, |s.log|) && d <= 3 && left >= 6 + 3 * d && (a in s.stops ==> Pending(s, a))
    case StopPrepare(b) => b == a && Due(times, s, a, |s.log|) && d <= 3 && left >= 5 + 3 * d && a !in s.stops
    case StopRead(b, tries) =>
      b == a && Due(times, s, a, |s.log|) && Pending(s, a) && tries >= d + 1 && left >= 4 + 3 * d
    case StopDecide(b, tries, n) => b == a && InTry(times, s, a, tries, n, d, left, 3)
    case StopCall(b, tries, n) => b == a && InTry(times, s, a, tries, n, d, left, 2)
    case StopSettle(b) => b == a && CarriesStop(s.log, a) && Pending(s, a) && left >= 1
    case _ => false
  }

  predicate Proceeds(times: Times, s: State, w: nat, a: nat, d: nat, left: nat) {
    if w in s.workers then OnTheWay(times, s.shared, s.workers[w], a, d, left) else Made(s.shared, a)
  }

  lemma NotStaleYet(times: Times, s: Shared, a: nat, n: nat)
    requires Due(times, s, a, n) && n <= |s.log|
    ensures !Stale(times, s, a, n) && !Recorded(s.log, n, a)
  {
    assert forall k :: 0 <= k < n && Carries(s.log[k], a) ==> CarriesStop(s.log, a);
    if NoLateControl(times, s.log, a) {
      assert forall k :: 0 <= k < n ==> !LateControl(times, s.log[k], a);
    } else {
      assert FollowsAdmission(times, s, a, n);
    }
  }

  /** One smooth move of a worker at a Stop. */
  lemma MoveOn(times: Times, s: Shared, l: Local, c: Choice, a: nat, d: nat, left: nat)
    requires OnTheWay(times, s, l, a, d, left) && Smooth(s.log, c)
    ensures left > 0
    ensures var move := GoOn(times, s, l, c);
            if move.next.Some? then OnTheWay(times, move.shared, move.next.value, a, d, left - 1)
            else Made(move.shared, a)
  {
    match l
    case StopDecide(_, _, _) => DecideOn(times, s, l, c, a, d, left);
    case StopCall(_, _, _) => CallOn(times, s, l, c, a, d, left);
    case _ =>
      hide Due, CarriesStop;
  }

  lemma DecideOn(times: Times, s: Shared, l: Local, c: Choice, a: nat, d: nat, left: nat)
    requires OnTheWay(times, s, l, a, d, left) && Smooth(s.log, c) && l.StopDecide?
    ensures left > 0
    ensures var move := GoOn(times, s, l, c);
            if move.next.Some? then OnTheWay(times, move.shared, move.next.value, a, d, left - 1)
            else Made(move.shared, a)
  {
    NotStaleYet(times, s, a, l.n);
    hide Due, Stale, Recorded;
  }

  lemma CallOn(times: Times, s: Shared, l: Local, c: Choice, a: nat, d: nat, left: nat)
    requires OnTheWay(times, s, l, a, d, left) && Smooth(s.log, c) && l.StopCall?
    ensures left > 0
    ensures var move := GoOn(times, s, l, c);
            if move.next.Some? then OnTheWay(times, move.shared, move.next.value, a, d, left - 1)
            else Made(move.shared, a)
  {
    if l.n == |s.log| {
      var log := GoOn(times, s, l, c).shared.log;
      assert log[l.n].kind == Blocked(StopOf(a));
    }
  }

  lemma StaysDue(times: Times, s: Shared, t: Shared, e: Event, a: nat, n: nat)
    requires Due(times, s, a, n) && t == s.(log := s.log + [e]) && Neutral(e) && Fresh(s.log, e.id)
    ensures Due(times, t, a, n)
  {
  }

  /** One neutral event: nothing but what was read gets outdated. */
  lemma EventIn(times: Times, s: Shared, l: Local, e: Event, a: nat, d: nat, left: nat)
    requires OnTheWay(times, s, l, a, d, left) && d > 0 && Neutral(e)
    ensures OnTheWay(times, s.(log := OutsideLog(s.log, Outside(e))), l, a, d - 1, left)
  {
    hide Due;
    var t := s.(log := OutsideLog(s.log, Outside(e)));
    if t.log != s.log {
      match l
      case StopBegin(b) => StaysDue(times, s, t, e, a, |s.log|); DueOn(times, t, a, |s.log|);
      case StopPrepare(b) => StaysDue(times, s, t, e, a, |s.log|); DueOn(times, t, a, |s.log|);
      case StopRead(b, tries) => StaysDue(times, s, t, e, a, |s.log|); DueOn(times, t, a, |s.log|);
      case StopDecide(b, tries, n) => StaysDue(times, s, t, e, a, n);
      case StopCall(b, tries, n) => StaysDue(times, s, t, e, a, n);
      case StopSettle(b) => StillCarries(s.log, t.log, a);
    }
  }

  lemma DueOn(times: Times, s: Shared, a: nat, n: nat)
    requires Due(times, s, a, n) && n <= |s.log|
    ensures Due(times, s, a, |s.log|)
  {
  }

  lemma StillCarries(a: seq<Event>, b: seq<Event>, activity: nat)
    requires CarriesStop(a, activity) && |a| <= |b| && b[..|a|] == a
    ensures CarriesStop(b, activity)
  {
    var k :| 0 <= k < |a| && (a[k].kind == Blocked(StopOf(activity)) || a[k].kind == BlockLoop(StopOf(activity)));
    assert b[k] == a[k];
  }

  /** A worker let run makes its Stop, though up to three events come in, each of which can cost it a try. */
  lemma {:induction false} StopLands(times: Times, s: State, w: nat, a: nat, steps: seq<Step>, d: nat, left: nat)
    requires Proceeds(times, s, w, a, d, left) && Alone(times, s, w, steps)
    requires Events(steps) <= d && Moves(steps) >= left
    ensures var end := Ran(times, s, steps); w !in end.workers && Made(end.shared, a)
    decreases |steps|
  {
    if steps == [] {
      NoneLeft(times, s, w, a, d, left);
    } else {
      var next := Apply(times, s, steps[0]);
      if steps[0].Go? {
        if w in s.workers {
          MoveOn(times, s.shared, s.workers[w], steps[0].choice, a, d, left);
        }
        StopLands(times, next, w, a, steps[1..], d, if left > 0 then left - 1 else 0);
      } else {
        if w in s.workers {
          EventIn(times, s.shared, s.workers[w], steps[0].e, a, d, left);
        } else {
          StillCarries(s.shared.log, next.shared.log, a);
        }
        StopLands(times, next, w, a, steps[1..], d - 1, left);
      }
    }
  }

  lemma NoneLeft(times: Times, s: State, w: nat, a: nat, d: nat, left: nat)
    requires Proceeds(times, s, w, a, d, left) && left == 0
    ensures w !in s.workers
  {
  }

  /**
    From any reachable state: a worker that begins a Stop nobody has overtaken, and is let run while at most three
    neutral events come in, leaves the Stop's block in the log and its intent applied.
   */
  lemma StopIsMade(times: Times, run: seq<Step>, n: nat, w: nat, a: nat, steps: seq<Step>)
    requires n <= |run| && w in After(times, run, n).workers && After(times, run, n).workers[w] == StopBegin(a)
    requires var s := After(times, run, n).shared;
             && s.log != [] && !CarriesStop(s.log, a) && (a in s.stops ==> Pending(s, a))
             && (NoLateControl(times, s.log, a) || OnlyAdmitted(times, s, a))
    requires Alone(times, After(times, run, n), w, steps) && Events(steps) <= 3 && Moves(steps) >= 6 + 3 * Events(steps)
    ensures var end := Ran(times, After(times, run, n), steps); w !in end.workers && Made(end.shared, a)
  {
    RunKeeps(times, run, n);
    StopLands(times, After(times, run, n), w, a, steps, Events(steps), Moves(steps));
  }

  // ----- a task is admitted -----

  /** The parked pair, and nothing else. */
  predicate Parked(log: seq<Event>) {
    && |log| == 2 && log[0].kind == Created("blocked") && log[1].kind == Blocked(InitialStatus)
    && log[0].id < log[1].id
  }

  /** The admission is open: nobody settled it, and the token it holds, if any, is the parked pair's. */
  predicate Open(s: Shared) {
    && Parked(s.log)
    && (s.activation.Some? ==>
          s.activation.value.token == Some(s.log[1].id) && s.activation.value.phase != Applied)
  }

  /** The task runs: our unblock is right after the parked pair, and the intent says it was accepted. */
  predicate Admitted(s: Shared) {
    && |s.log| > 2 && s.log[2].kind == Unblocked(Some(s.log[1].id))
    && s.activation.Some? && s.activation.value.phase == Applied && s.activation.value.accepted
  }

  predicate Held(s: Shared, t: nat) {
    s.activation.Some? && s.activation.value.token == Some(t) && s.activation.value.phase != Applied
  }

  /** Where a worker is on the way to the admission, with `left` moves to go at most. */
  predicate Admitting(s: Shared, l: Local, left: nat) {
    match l
    case CreatePrepare =>
      left >= 9 && if s.create.None? then s.log == [] && s.activation.None? else Open(s)
    case CreateFirst => left >= 8 && s.create == Some(Attempting) && s.log == [] && s.activation.None?
    case CreateFind => left >= 8 && s.create.Some? && Open(s)
    case BindTask => left >= 7 && s.create.Some? && Open(s)
    case BindSettle => left >= 6 && s.create.Some? && s.bound && Open(s)
    case ActivateRead =>
      s.bound && Open(s) && (if s.create == Some(Attempting) then left >= 6 else s.create == Some(Applied) && left >= 5)
    case ActivatePrepare(token) =>
      left >= 4 && Open(s) && token == Some(s.log[1].id) && (s.activation.Some? ==> !s.activation.value.accepted)
    case ActivateCheck(t) => left >= 3 && Parked(s.log) && t == s.log[1].id && Held(s, t)
    case ActivateCall(t) => left >= 2 && Parked(s.log) && t == s.log[1].id && Held(s, t)
    case ActivateSettle(t, accepted) =>
      && left >= 1 && accepted && |s.log| > 2 && t == s.log[1].id && s.log[2].kind == Unblocked(Some(t)) && Held(s, t)
    case _ => false
  }

  lemma AdmitOn(times: Times, s: Shared, l: Local, c: Choice, left: nat)
    requires Admitting(s, l, left) && Smooth(s.log, c) && (s.activation.Some? ==> !s.activation.value.accepted)
    ensures left > 0
    ensures var move := GoOn(times, s, l, c);
            if move.next.Some? then
              && Admitting(move.shared, move.next.value, left - 1)
              && (move.shared.activation.Some? ==> !move.shared.activation.value.accepted)
            else Admitted(move.shared)
  {
  }

  predicate Quiet(steps: seq<Step>) {
    Events(steps) == 0
  }

  lemma {:induction false} AdmissionLands(times: Times, s: State, w: nat, steps: seq<Step>, left: nat)
    requires Alone(times, s, w, steps) && Quiet(steps) && Moves(steps) >= left
    requires if w in s.workers then
               && Admitting(s.shared, s.workers[w], left)
               && (s.shared.activation.Some? ==> !s.shared.activation.value.accepted)
             else Admitted(s.shared)
    ensures var end := Ran(times, s, steps); w !in end.workers && Admitted(end.shared)
    decreases |steps|
  {
    if steps != [] {
      if w in s.workers {
        AdmitOn(times, s.shared, s.workers[w], steps[0].choice, left);
      }
      AdmissionLands(times, Apply(times, s, steps[0]), w, steps[1..], if left > 0 then left - 1 else 0);
    }
  }

  /**
    From any reachable state: a worker let run undisturbed takes a new assignment, or one whose creation was begun and
    left its task parked, all the way to a running task whose admission is recorded as accepted.
   */
  lemma AssignmentIsAdmitted(times: Times, run: seq<Step>, n: nat, w: nat, steps: seq<Step>)
    requires n <= |run| && w in After(times, run, n).workers && After(times, run, n).workers[w] == CreatePrepare
    requires var s := After(times, run, n).shared;
             if s.create.None? then s.activation.None? else Open(s)
    requires Alone(times, After(times, run, n), w, steps) && Quiet(steps) && Moves(steps) >= 9
    ensures var end := Ran(times, After(times, run, n), steps); w !in end.workers && Admitted(end.shared)
  {
    RunKeeps(times, run, n);
    AdmissionLands(times, After(times, run, n), w, steps, 9);
  }

  /** The same from a bound task, whether or not its creation was settled. */
  lemma BoundIsAdmitted(times: Times, run: seq<Step>, n: nat, w: nat, steps: seq<Step>)
    requires n <= |run| && w in After(times, run, n).workers && After(times, run, n).workers[w] == ActivateRead
    requires var s := After(times, run, n).shared;
             s.bound && Open(s) && (s.create == Some(Attempting) || s.create == Some(Applied))
    requires Alone(times, After(times, run, n), w, steps) && Quiet(steps) && Moves(steps) >= 6
    ensures var end := Ran(times, After(times, run, n), steps); w !in end.workers && Admitted(end.shared)
  {
    RunKeeps(times, run, n);
    AdmissionLands(times, After(times, run, n), w, steps, 6);
  }

  // ----- what is refused is recorded as refused -----

  /** The task was touched before anybody asked to admit it. */
  predicate Touched(s: Shared) {
    s.bound && s.create == Some(Applied) && s.log != [] && !Parked(s.log)
  }

  const REFUSED := Activation(None, Attempting, false)

  predicate Refusing(s: Shared, l: Local, left: nat) {
    match l
    case ActivateRead => left >= 3 && Touched(s) && s.activation.None?
    case ActivatePrepare(token) => left >= 2 && Touched(s) && s.activation.None? && token.None?
    case ActivateGiveUp => left >= 1 && Touched(s) && s.activation == Some(REFUSED)
    case _ => false
  }

  lemma {:induction false} RefusalLands(times: Times, s: State, w: nat, steps: seq<Step>, left: nat)
    requires Alone(times, s, w, steps) && Quiet(steps) && Moves(steps) >= left && Increasing(s.shared.log)
    requires if w in s.workers then Refusing(s.shared, s.workers[w], left)
             else s.shared.activation == Some(REFUSED.(phase := Reconcile))
    ensures var end := Ran(times, s, steps);
            end.shared.activation == Some(REFUSED.(phase := Reconcile)) && end.shared.log == s.shared.log
    decreases |steps|
  {
    if steps != [] {
      RefusalLands(times, Apply(times, s, steps[0]), w, steps[1..], if left > 0 then left - 1 else 0);
    }
  }

  /** From any reachable state: a task touched first is left as it is, and the intent says it was not accepted. */
  lemma TouchedIsRefused(times: Times, run: seq<Step>, n: nat, w: nat, steps: seq<Step>)
    requires n <= |run| && w in After(times, run, n).workers && After(times, run, n).workers[w] == ActivateRead
    requires Touched(After(times, run, n).shared) && After(times, run, n).shared.activation.None?
    requires Alone(times, After(times, run, n), w, steps) && Quiet(steps) && Moves(steps) >= 3
    ensures var end := Ran(times, After(times, run, n), steps).shared;
            end.activation == Some(REFUSED.(phase := Reconcile)) && end.log == After(times, run, n).shared.log
  {
    RunKeeps(times, run, n);
    RefusalLands(times, After(times, run, n), w, steps, 3);
  }

  /** Somebody resumed or finished the task at or after the second of the click, and it was not just our admission. */
  predicate Overtaken(times: Times, s: Shared, a: nat) {
    && !CarriesStop(s.log, a) && !NoLateControl(times, s.log, a)
    && !(OnlyAdmitted(times, s, a) && forall k :: 0 <= k < |s.log| && Control(s.log[k].kind) ==> k == 2)
  }

  predicate LaterControl(times: Times, log: seq<Event>, a: nat) {
    exists k :: 0 <= k < |log| && Control(log[k].kind) && log[k].at * 1000 > times.stamp(a)
  }

  /** What an overtaken Stop leaves: no block, an open intent, superseded if the other came strictly later. */
  predicate StoodDown(times: Times, s: Shared, a: nat) {
    && !CarriesStop(s.log, a) && a in s.stops
    && s.stops[a] == Stop(Reconcile, LaterControl(times, s.log, a))
  }

  predicate StandingDown(times: Times, s: Shared, l: Local, a: nat, left: nat) {
    && Overtaken(times, s, a)
    && match l
       case StopBegin(b) => b == a && left >= 4 && (a in s.stops ==> Pending(s, a))
       case StopPrepare(b) => b == a && left >= 3 && a !in s.stops
       case StopRead(b, tries) => b == a && left >= 2 && tries > 0 && Pending(s, a)
       case StopDecide(b, tries, n) => b == a && left >= 1 && Pending(s, a) && n == |s.log|
       case _ => false
  }

  lemma StandDownOn(times: Times, s: Shared, l: Local, c: Choice, a: nat, left: nat)
    requires StandingDown(times, s, l, a, left) && Smooth(s.log, c)
    ensures left > 0
    ensures var move := GoOn(times, s, l, c);
            && move.shared.log == s.log
            && if move.next.Some? then StandingDown(times, move.shared, move.next.value, a, left - 1)
               else StoodDown(times, move.shared, a)
  {
    if l.StopDecide? {
      OvertakenIsStale(times, s, a);
    }
    hide Stale, Recorded, CarriesStop, NoLateControl, OnlyAdmitted, StrictlyLater, LaterControl;
  }

  /** The whole history of an overtaken Stop is stale, and does not carry it. */
  lemma OvertakenIsStale(times: Times, s: Shared, a: nat)
    requires Overtaken(times, s, a)
    ensures Stale(times, s, a, |s.log|) && !Recorded(s.log, |s.log|, a)
    ensures StrictlyLater(times, s, a, |s.log|) <==> LaterControl(times, s.log, a)
  {
    assert forall k :: 0 <= k < |s.log| && Carries(s.log[k], a) ==> CarriesStop(s.log, a);
    var k :| 0 <= k < |s.log| && Control(s.log[k].kind) && !(s.log[k].at < times.stamp(a) / 1000);
    assert LateControl(times, s.log[k], a);
  }

  lemma {:induction false} StandDownLands(times: Times, s: State, w: nat, a: nat, steps: seq<Step>, left: nat)
    requires Alone(times, s, w, steps) && Quiet(steps) && Moves(steps) >= left
    requires if w in s.workers then StandingDown(times, s.shared, s.workers[w], a, left)
             else StoodDown(times, s.shared, a)
    ensures var end := Ran(times, s, steps); StoodDown(times, end.shared, a) && end.shared.log == s.shared.log
    decreases |steps|
  {
    if steps != [] {
      if w in s.workers {
        StandDownOn(times, s.shared, s.workers[w], steps[0].choice, a, left);
      }
      StandDownLands(times, Apply(times, s, steps[0]), w, a, steps[1..], if left > 0 then left - 1 else 0);
    }
  }

  /** A worker that begins a Stop a person overtook blocks nothing; it records if the person came strictly later. */
  lemma OvertakenStandsDown(times: Times, s: State, w: nat, a: nat, steps: seq<Step>)
    requires w in s.workers && s.workers[w] == StopBegin(a) && (a in s.shared.stops ==> Pending(s.shared, a))
    requires Overtaken(times, s.shared, a)
    requires Alone(times, s, w, steps) && Quiet(steps) && Moves(steps) >= 4
    ensures var end := Ran(times, s, steps); StoodDown(times, end.shared, a) && end.shared.log == s.shared.log
  {
    StandDownLands(times, s, w, a, steps, 4);
  }

  // ----- when something does not go through -----

  /** What goes wrong with a Stop: the task cannot be read, it is over, or native refuses every block. */
  datatype Way = Unreadable | Over | Refused

  predicate Fits(way: Way, l: Local, c: Choice) {
    match way
    case Unreadable => !c.ok
    case Over => c.ok && c.other
    case Refused => c.ok != l.StopCall? && !c.other
  }

  /** Only worker `w` moves, and it goes this way for it. */
  predicate Under(times: Times, s: State, w: nat, way: Way, steps: seq<Step>)
    decreases |steps|
  {
    steps != [] ==>
      && steps[0].Go? && steps[0].w == w && (w in s.workers ==> Fits(way, s.workers[w], steps[0].choice))
      && Under(times, Apply(times, s, steps[0]), w, way, steps[1..])
  }

  /** Where a worker is at a Stop that is not in the log, with `left` moves to go at most; each try takes three. */
  predicate Trying(times: Times, s: Shared, l: Local, a: nat, way: Way, left: nat) {
    && !CarriesStop(s.log, a) && (way == Refused ==> Due(times, s, a, |s.log|))
    && match l
       case StopBegin(b) => b == a && left >= 16 && (a in s.stops ==> Pending(s, a))
       case StopPrepare(b) => b == a && left >= 15 && a !in s.stops
       case StopRead(b, tries) => b == a && Pending(s, a) && left >= 3 * tries + 2 && (way != Refused ==> tries > 0)
       case StopDecide(b, tries, n) => b == a && Pending(s, a) && n == |s.log| && left >= 3 * tries + 1 && tries > 0
       case StopCall(b, tries, n) =>
         b == a && Pending(s, a) && n == |s.log| && left >= 3 * tries && tries > 0 && way == Refused
       case StopGiveUp(b) => b == a && Pending(s, a) && left >= 1 && way == Refused
       case StopSettle(b) => b == a && Pending(s, a) && left >= 1 && way == Over && a in s.finished
       case _ => false
  }

  /** A finished task's Stop is applied without a block; any other is left to be reconciled, not superseded. */
  predicate Left(s: Shared, a: nat, way: Way) {
    && !CarriesStop(s.log, a) && a in s.stops
    && s.stops[a] == Stop(if way == Over then Applied else Reconcile, false) && (way == Over ==> a in s.finished)
  }

  lemma TryOn(times: Times, s: Shared, l: Local, c: Choice, a: nat, way: Way, left: nat)
    requires Trying(times, s, l, a, way, left) && Fits(way, l, c)
    ensures left > 0
    ensures var move := GoOn(times, s, l, c);
            && move.shared.log == s.log
            && if move.next.Some? then Trying(times, move.shared, move.next.value, a, way, left - 1)
               else Left(move.shared, a, way)
  {
    match l
    case StopDecide(b, tries, n) =>
      assert forall k :: 0 <= k < n && Carries(s.log[k], a) ==> CarriesStop(s.log, a);
      if way == Refused {
        NotStaleYet(times, s, a, n);
      }
    case _ =>
  }

  lemma {:induction false} TriesEnd(times: Times, s: State, w: nat, a: nat, way: Way, steps: seq<Step>, left: nat)
    requires Under(times, s, w, way, steps) && |steps| >= left
    requires if w in s.workers then Trying(times, s.shared, s.workers[w], a, way, left) else Left(s.shared, a, way)
    ensures var end := Ran(times, s, steps);
            w !in end.workers && Left(end.shared, a, way) && end.shared.log == s.shared.log
    decreases |steps|
  {
    if steps != [] {
      if w in s.workers {
        TryOn(times, s.shared, s.workers[w], steps[0].choice, a, way, left);
      }
      TriesEnd(times, Apply(times, s, steps[0]), w, a, way, steps[1..], if left > 0 then left - 1 else 0);
    }
  }

  /**
    A worker whose Stop does not go through ends within sixteen moves and blocks nothing. A task that is over settles
    the Stop as applied; one that cannot be read, or refuses the block four times, leaves the intent to be reconciled.
   */
  lemma StopGivesWay(times: Times, run: seq<Step>, n: nat, w: nat, a: nat, way: Way, steps: seq<Step>)
    requires n <= |run| && w in After(times, run, n).workers && After(times, run, n).workers[w] == StopBegin(a)
    requires var s := After(times, run, n).shared;
             && !CarriesStop(s.log, a) && (a in s.stops ==> Pending(s, a))
             && (way == Refused ==> s.log != [] && (NoLateControl(times, s.log, a) || OnlyAdmitted(times, s, a)))
    requires Under(times, After(times, run, n), w, way, steps) && |steps| >= 16
    ensures var end := Ran(times, After(times, run, n), steps);
            w !in end.workers && Left(end.shared, a, way) && end.shared.log == After(times, run, n).shared.log
  {
    RunKeeps(times, run, n);
    TriesEnd(times, After(times, run, n), w, a, way, steps, 16);
  }

  /** Worker `w` moves, whatever is answered, and events come in, whatever they are. */
  predicate Only(w: nat, steps: seq<Step>) {
    forall k :: 0 <= k < |steps| ==> steps[k].Outside? || (steps[k].Go? && steps[k].w == w)
  }

  predicate Settling(s: Shared, l: Local, a: nat, left: nat) {
    && CarriesStop(s.log, a)
    && match l
       case StopBegin(b) => b == a && left >= 5 && (a in s.stops ==> Pending(s, a))
       case StopPrepare(b) => b == a && left >= 4 && a !in s.stops
       case StopRead(b, tries) => b == a && left >= 3 && Pending(s, a) && tries > 0
       case StopDecide(b, _, n) => b == a && left >= 2 && Pending(s, a) && n <= |s.log| && CarriesStop(s.log[..n], a)
       case StopSettle(b) => b == a && left >= 1 && Pending(s, a)
       case _ => false
  }

  lemma SettleOn(times: Times, s: Shared, l: Local, c: Choice, a: nat, left: nat)
    requires Settling(s, l, a, left)
    ensures left > 0
    ensures var move := GoOn(times, s, l, c);
            && move.shared.log == s.log
            && if move.next.Some? then Settling(move.shared, move.next.value, a, left - 1) else Made(move.shared, a)
  {
    match l
    case StopRead(_, _) => assert s.log[..|s.log|] == s.log;
    case StopDecide(_, _, n) =>
      var k :| 0 <= k < n && (s.log[..n][k].kind == Blocked(StopOf(a)) || s.log[..n][k].kind == BlockLoop(StopOf(a)));
      assert Carries(s.log[k], a);
    case _ =>
  }

  lemma SettlingStays(s: Shared, e: Event, l: Local, a: nat, left: nat)
    requires Settling(s, l, a, left)
    ensures Settling(s.(log := OutsideLog(s.log, Outside(e))), l, a, left)
  {
    var log := OutsideLog(s.log, Outside(e));
    StillCarries(s.log, log, a);
    if l.StopDecide? {
      assert log[..l.n] == s.log[..l.n];
    }
  }

  lemma {:induction false} SettlesIn(times: Times, s: State, w: nat, a: nat, steps: seq<Step>, left: nat)
    requires Only(w, steps) && Moves(steps) >= left
    requires if w in s.workers then Settling(s.shared, s.workers[w], a, left) else Made(s.shared, a)
    ensures var end := Ran(times, s, steps);
            && w !in end.workers && Made(end.shared, a)
            && |end.shared.log| <= |s.shared.log| + Events(steps)
    decreases |steps|
  {
    if steps != [] {
      var next, rest := Apply(times, s, steps[0]), steps[1..];
      assert forall k :: 0 <= k < |rest| ==> rest[k] == steps[k + 1];
      if steps[0].Go? {
        if w in s.workers {
          SettleOn(times, s.shared, s.workers[w], steps[0].choice, a, left);
        }
        SettlesIn(times, next, w, a, rest, if left > 0 then left - 1 else 0);
      } else {
        if w in s.workers {
          SettlingStays(s.shared, steps[0].e, s.workers[w], a, left);
        } else {
          StillCarries(s.shared.log, next.shared.log, a);
        }
        SettlesIn(times, next, w, a, rest, left);
      }
    }
  }

  /**
    A Stop whose block is in the log already, because an answer was lost or a worker died, is settled as applied within
    five moves, whatever is answered and whatever comes in; no second block is added.
   */
  lemma RecordedIsSettled(times: Times, s: State, w: nat, a: nat, steps: seq<Step>)
    requires w in s.workers && s.workers[w] == StopBegin(a) && CarriesStop(s.shared.log, a)
    requires a in s.shared.stops ==> Pending(s.shared, a)
    requires Only(w, steps) && Moves(steps) >= 5
    ensures var end := Ran(times, s, steps);
            && w !in end.workers && Made(end.shared, a)
            && |end.shared.log| <= |s.shared.log| + Events(steps)
  {
    SettlesIn(times, s, w, a, steps, 5);
  }

  /**
    In any reachable state, an unblock nobody answered is judged by the log: it was accepted exactly when it stands
    there right after the parked pair.
   */
  lemma UnblockIsJudged(times: Times, run: seq<Step>, n: nat, w: nat, t: nat, c: Choice)
    requires n <= |run| && w in After(times, run, n).workers && After(times, run, n).workers[w] == ActivateCall(t)
    requires After(times, run, n).shared.activation.Some? && !c.ok
    requires After(times, run, n).shared.activation.value.phase != Applied
    ensures var s, step := After(times, run, n), Go(w, c);
            var end := Apply(times, Apply(times, Apply(times, s, step), step), step);
            var made := |s.shared.log| > 2 && s.shared.log[2].kind == Unblocked(Some(t));
            && w !in end.workers && end.shared.log == s.shared.log
            && end.shared.activation == Some(Activation(s.shared.activation.value.token, JudgedAs(made), made))
  {
    RunKeeps(times, run, n);
    var s := After(times, run, n);
    assert LocalOk(times, s.shared, s.workers[w]);
    ReceiptIsThird(s.shared.log, t);
    hide Inv, Receipt, After;
    CallUnanswered(times, s, w, t, c);
  }

  function JudgedAs(made: bool): Phase {
    if made then Applied else Reconcile
  }

  lemma CallUnanswered(times: Times, s: State, w: nat, t: nat, c: Choice)
    requires w in s.workers && s.workers[w] == ActivateCall(t) && !c.ok
    requires s.shared.activation.Some? && s.shared.activation.value.phase != Applied
    ensures var step := Go(w, c);
            var end := Apply(times, Apply(times, Apply(times, s, step), step), step);
            var made := Receipt(s.shared.log, t);
            && w !in end.workers && end.shared.log == s.shared.log
            && end.shared.activation == Some(Activation(s.shared.activation.value.token, JudgedAs(made), made))
  {
    hide Receipt;
    var one := Apply(times, s, Go(w, c));
    assert one == State(s.shared, s.workers[w := ActivateVerify(t)]);
    var two := Apply(times, one, Go(w, c));
    assert two == State(s.shared, one.workers[w := ActivateSettle(t, Receipt(s.shared.log, t))]);
  }

  /** A task that cannot be checked is left as it is, and its admission to be reconciled. */
  lemma UncheckedIsLeft(times: Times, s: State, w: nat, t: nat, c: Choice)
    requires w in s.workers && s.workers[w] == ActivateCheck(t) && !c.ok
    requires s.shared.activation.Some? && s.shared.activation.value.phase != Applied
    ensures var end := Apply(times, s, Go(w, c));
            && w !in end.workers && end.shared.log == s.shared.log
            && end.shared.activation == Some(Activation(s.shared.activation.value.token, Reconcile, false))
  {
  }

  /** A create that fails, or one begun before that left no task, is left to be reconciled: nothing is created. */
  lemma FailedCreateIsLeft(times: Times, s: State, w: nat, c: Choice)
    requires w in s.workers && s.shared.create.Some? && s.shared.create != Some(Applied)
    requires (s.workers[w] == CreateFirst && !c.ok) || (s.workers[w] == CreateFind && s.shared.log == [])
    ensures var end := Apply(times, s, Go(w, c));
            && w !in end.workers && end.shared == s.shared.(create := Some(Reconcile))
  {
  }

  /** A create whose answer is lost, or that finds the task there, has been made, and its intent is left open. */
  lemma LostCreateIsOpen(times: Times, s: State, w: nat, c: Choice)
    requires w in s.workers && s.workers[w] == CreateFirst && c.ok && (c.other || s.shared.log != [])
    ensures var end := Apply(times, s, Go(w, c));
            w !in end.workers && end.shared == s.shared.(creates := s.shared.creates + 1)
  {
  }

  /** An admission that is applied, or to be reconciled without a new request, is left alone; an open one goes on. */
  lemma SettledAdmissionIsLeft(times: Times, s: State, w: nat, c: Choice)
    requires w in s.workers && s.workers[w] == ActivateRead && s.shared.activation.Some?
    requires s.shared.create == Some(Applied) && s.shared.bound && s.shared.log != []
    ensures var end, phase := Apply(times, s, Go(w, c)), s.shared.activation.value.phase;
            && end.shared == s.shared
            && (w !in end.workers <==> phase == Applied || (phase == Reconcile && !c.ok))
  {
  }

  /** A Stop that is applied or superseded is left alone however often it is delivered again. */
  lemma SettledStopIsLeft(times: Times, s: State, w: nat, a: nat, c: Choice)
    requires w in s.workers && s.workers[w] == StopBegin(a) && a in s.shared.stops
    ensures var end := Apply(times, s, Go(w, c));
            && end.shared == s.shared
            && (w !in end.workers <==> s.shared.stops[a].phase == Applied || s.shared.stops[a].superseded)
  {
  }

  /** A resume after a pull request is our unblock of the block the log ends with, never of the parked pair. */
  lemma ParkResumes(log: seq<Event>, c: Choice)
    ensures OutsideLog(log, ParkResume(c)) != log
       <==> |log| > 2 && log[|log| - 1].kind.Blocked? && log[|log| - 1].id < c.id
    ensures OutsideLog(log, ParkResume(c)) != log ==>
              OutsideLog(log, ParkResume(c)) == log + [Event(c.id, Unblocked(Some(log[|log| - 1].id)), c.at)]
  {
  }

  /** From nothing: a worker that takes an assignment and is let run ends with the task running. */
  lemma AdmittedFromNothing(times: Times, w: nat, steps: seq<Step>)
    requires Alone(times, Apply(times, INITIAL, Begin(w, CreatePrepare)), w, steps) && Quiet(steps) && Moves(steps) >= 9
    ensures var end := Ran(times, Apply(times, INITIAL, Begin(w, CreatePrepare)), steps);
            w !in end.workers && Admitted(end.shared)
  {
    var run := [Begin(w, CreatePrepare)];
    assert After(times, run, 0) == INITIAL && After(times, run, 1) == Apply(times, INITIAL, run[0]);
    AssignmentIsAdmitted(times, run, 1, w, steps);
  }

  /** Any worker that is not at work can begin any job, in any state, and nothing else changes. */
  lemma WorkersBegin(times: Times, s: State, w: nat, job: Local)
    requires w !in s.workers && (job == CreatePrepare || job == ActivateRead || exists a :: job == StopBegin(a))
    ensures Apply(times, s, Begin(w, job)) == State(s.shared, s.workers[w := job])
  {
  }

  // ----- what is settled stays -----

  /** What is settled as applied in `s` is so in `t`. */
  predicate Kept(s: Shared, t: Shared) {
    && (s.create == Some(Applied) ==> t.create == Some(Applied))
    && (s.activation.Some? && s.activation.value.phase == Applied ==> t.activation == s.activation)
    && (forall a :: a in s.stops && s.stops[a].phase == Applied ==> a in t.stops && t.stops[a] == s.stops[a])
  }

  lemma MoveKeeps(times: Times, s: Shared, l: Local, c: Choice)
    ensures Kept(s, GoOn(times, s, l, c).shared)
  {
    if Creating(l) {
      CreateKeeps(s, l, c);
    } else if Stopping(l) {
      StopKeeps(times, s, l, c);
    } else {
      ActivateKeeps(s, l, c);
    }
  }

  lemma CreateKeeps(s: Shared, l: Local, c: Choice)
    ensures Kept(s, GoCreate(s, l, c).shared)
  {
  }

  lemma ActivateKeeps(s: Shared, l: Local, c: Choice)
    ensures Kept(s, GoActivate(s, l, c).shared)
  {
    hide Receipt, InitialToken;
  }

  lemma StopKeeps(times: Times, s: Shared, l: Local, c: Choice)
    ensures Kept(s, GoStop(times, s, l, c).shared)
  {
    hide Recorded, Stale, StrictlyLater;
  }

  /** In every run, an intent settled as applied is final, whatever is retried, crashes or comes in later. */
  lemma {:induction false} AppliedIsFinal(times: Times, run: seq<Step>, m: nat, n: nat)
    requires m <= n <= |run|
    ensures Kept(After(times, run, m).shared, After(times, run, n).shared)
    decreases n
  {
    if m < n {
      AppliedIsFinal(times, run, m, n - 1);
      var s, step := After(times, run, n - 1), run[n - 1];
      if step.Go? && step.w in s.workers {
        MoveKeeps(times, s.shared, s.workers[step.w], step.choice);
        hide GoOn;
      }
      hide OutsideLog;
      assert Kept(s.shared, After(times, run, n).shared);
    }
  }
}
