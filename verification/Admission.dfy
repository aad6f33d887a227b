/**
  Admission and Stop of one issue's native task: durable intents, a task log with compare-and-set, any number of
  workers that may stop anywhere, and a dispatcher and people who append events whenever they like.
 */
module Admission {
  import opened Basics

  // ----- the native log -----

  /** `InitialStatus` blocks a task at its creation; `StopOf` names the Linear activity of a Stop. */
  datatype Reason = InitialStatus | StopOf(activity: nat) | OtherReason(text: string)

  /** `request` is the event id our own guarded unblock was signed for. */
  datatype Kind =
    | Created(status: string) | Blocked(reason: Reason) | BlockLoop(reason: Reason)
    | Unblocked(request: Option<nat>) | Completed | Archived | OtherKind(name: string)

  datatype Event = Event(id: nat, kind: Kind, at: nat)

  predicate Carries(e: Event, activity: nat) {
    e.kind == Blocked(StopOf(activity)) || e.kind == BlockLoop(StopOf(activity))
  }

  /** An explicit resume or finish. */
  predicate Supersedes(e: Event) {
    e.kind.Unblocked? || e.kind.Completed? || e.kind.Archived?
  }

  predicate Pristine(log: seq<Event>) {
    |log| >= 2 && log[0].kind == Created("blocked") && log[1].kind == Blocked(InitialStatus)
  }

  /** `initial_activation_event`: only the untouched create and initial block name a token. */
  function InitialToken(log: seq<Event>): Option<nat> {
    if |log| == 2 && Pristine(log) then Some(log[1].id) else None
  }

  /** The first index from `i` on whose event is later than `token`, or the length. */
  function FirstAfter(log: seq<Event>, token: nat, i: nat): (r: nat)
    requires i <= |log|
    ensures i <= r <= |log|
    decreases |log| - i
  {
    if i == |log| || log[i].id > token then i else FirstAfter(log, token, i + 1)
  }

  /** `activation_receipt`: the first event after the token is our own unblock for it. */
  predicate Receipt(log: seq<Event>, token: nat) {
    var k := FirstAfter(log, token, 0);
    k < |log| && log[k].kind == Unblocked(Some(token))
  }

  /** Some of the first `n` events carries the Stop. */
  predicate Recorded(log: seq<Event>, n: nat, activity: nat)
    requires n <= |log|
  {
    exists k :: 0 <= k < n && Carries(log[k], activity)
  }

  // ----- intents and workers -----

  datatype Phase = Attempting | Applied | Reconcile

  datatype Activation = Activation(token: Option<nat>, phase: Phase, accepted: bool)

  datatype Stop = Stop(phase: Phase, superseded: bool)

  /** Where a worker is; whatever it read is in the constructor's arguments. `n` is how much of the log it read. */
  datatype Local =
    | CreatePrepare | CreateFirst | CreateFind | BindTask | BindSettle
    | ActivateRead | ActivatePrepare(token: Option<nat>) | ActivateGiveUp | ActivateCheck(t: nat)
    | ActivateCall(t: nat) | ActivateVerify(t: nat) | ActivateSettle(t: nat, accepted: bool)
    | StopBegin(a: nat) | StopPrepare(a: nat) | StopRead(a: nat, tries: nat) | StopDecide(a: nat, tries: nat, n: nat)
    | StopCall(a: nat, tries: nat, n: nat) | StopGiveUp(a: nat) | StopSettle(a: nat)

  /** When the assignment was made and each Stop pressed, in milliseconds. */
  datatype Times = Times(source: nat, stamp: nat -> nat)

  /** `finished` are the Stops that read the task as done, archived or in triage. */
  datatype Shared = Shared(
    log: seq<Event>, creates: nat, create: Option<Phase>, bound: bool, activation: Option<Activation>,
    stops: map<nat, Stop>, finished: set<nat>)

  datatype State = State(shared: Shared, workers: map<nat, Local>)

  const INITIAL := State(Shared([], 0, None, false, None, map[], {}), map[])

  /** What one action makes of the shared state, and where it leaves the worker; None when it is through. */
  datatype Move = Move(shared: Shared, next: Option<Local>)

  /** What a step leaves open: which way a check or a call goes, and the id and time a new event gets. */
  datatype Choice = Choice(ok: bool, other: bool, lost: bool, id: nat, at: nat)

  datatype Step =
    | Begin(w: nat, job: Local)
    | Go(w: nat, choice: Choice)
    | Crash(w: nat)
    | Outside(e: Event)
    | ParkResume(choice: Choice)

  // ----- what the store and the native core promise -----

  /** Event ids only grow. */
  predicate Fresh(log: seq<Event>, id: nat) {
    log == [] || log[|log| - 1].id < id
  }

  /** `native_intent_settle`: an applied intent is final. */
  function SettleCreate(s: Shared, phase: Phase): Shared {
    if s.create.None? || s.create == Some(Applied) then s else s.(create := Some(phase))
  }

  function SettleActivation(s: Shared, accepted: bool): Shared {
    if s.activation.None? || s.activation.value.phase == Applied then s
    else
      var phase := if accepted then Applied else Reconcile;
      s.(activation := Some(s.activation.value.(phase := phase, accepted := accepted)))
  }

  function SettleStop(s: Shared, a: nat, phase: Phase, superseded: Option<bool>): Shared {
    if a !in s.stops || s.stops[a].phase == Applied then s
    else s.(stops := s.stops[a := Stop(phase, if superseded.Some? then superseded.value else s.stops[a].superseded)])
  }

  function At(s: Shared, l: Local): Move {
    Move(s, Some(l))
  }

  function Done(s: Shared): Move {
    Move(s, None)
  }

  /** Compare-and-set on the last event: `n` events were read, and the last of them is still the newest. */
  predicate Unchanged(log: seq<Event>, n: nat)
    requires n <= |log|
  {
    n > 0 && log[n - 1].id == log[|log| - 1].id
  }

  // ----- Stop's view of the history -----

  /** `_instruction_follows_initial_admission` over the first `n` events. */
  predicate FollowsAdmission(times: Times, s: Shared, a: nat, n: nat)
    requires n <= |s.log|
  {
    && s.create == Some(Applied) && times.stamp(a) >= times.source
    && n >= 2 && s.log[0].kind.Created? && s.log[1].kind == Blocked(InitialStatus)
    && (n == 2
        || (s.log[2].kind == Unblocked(Some(s.log[1].id))
            && forall k :: 3 <= k < n ==>
                 !Supersedes(s.log[k]) && !s.log[k].kind.Blocked?
                 && s.log[k].kind != OtherKind("review_requested") && s.log[k].kind != OtherKind("changes_requested")))
  }

  /** A resume or finish at or after the second of the click. */
  predicate LateControl(times: Times, e: Event, a: nat) {
    Supersedes(e) && times.stamp(a) / 1000 <= e.at
  }

  predicate Stale(times: Times, s: Shared, a: nat, n: nat)
    requires n <= |s.log|
  {
    !FollowsAdmission(times, s, a, n) && exists k :: 0 <= k < n && LateControl(times, s.log[k], a)
  }

  /** Some resume or finish is strictly later than the click. */
  predicate StrictlyLater(times: Times, s: Shared, a: nat, n: nat)
    requires n <= |s.log|
  {
    exists k :: 0 <= k < n && Supersedes(s.log[k]) && times.stamp(a) < s.log[k].at * 1000
  }

  // ----- one worker's next action -----

  function GoCreate(s: Shared, l: Local, c: Choice): Move {
    match l
    case CreatePrepare =>
      if s.create.None? then At(s.(create := Some(Attempting)), CreateFirst) else At(s, CreateFind)
    case CreateFirst =>
      if !c.ok then Done(SettleCreate(s, Reconcile))
      else if c.other || s.log != [] then Done(s.(creates := s.creates + 1))
      else
        var log := [Event(c.id, Created("blocked"), c.at), Event(c.id + 1, Blocked(InitialStatus), c.at)];
        At(s.(creates := s.creates + 1, log := log), BindTask)
    case CreateFind => if s.log == [] then Done(SettleCreate(s, Reconcile)) else At(s, BindTask)
    case BindTask => if c.ok then At(s.(bound := true), BindSettle) else Done(SettleCreate(s, Reconcile))
    case BindSettle => At(SettleCreate(s, Applied), ActivateRead)
    case _ => At(s, l)
  }

  function GoActivate(s: Shared, l: Local, c: Choice): Move {
    match l
    case ActivateRead =>
      if s.create == Some(Attempting) && s.bound && s.log != [] then At(SettleCreate(s, Applied), ActivateRead)
      else if s.create != Some(Applied) || !s.bound || s.log == [] then Done(s)
      else if s.activation.None? then At(s, ActivatePrepare(InitialToken(s.log)))
      else if s.activation.value.phase == Applied || (s.activation.value.phase == Reconcile && !c.ok) then Done(s)
      else At(s, ActivatePrepare(s.activation.value.token))
    case ActivatePrepare(token) =>
      if s.activation.Some? && s.activation.value.token != token then Done(s)
      else
        var next := if s.activation.None? then s.(activation := Some(Activation(token, Attempting, false))) else s;
        At(next, if token.None? then ActivateGiveUp else ActivateCheck(token.value))
    case ActivateGiveUp => Done(SettleActivation(s, false))
    case ActivateCheck(t) => if c.ok then At(s, ActivateCall(t)) else Done(SettleActivation(s, false))
    case ActivateCall(t) =>
      if c.ok && s.log != [] && s.log[|s.log| - 1].id == t && Fresh(s.log, c.id) then
        At(s.(log := s.log + [Event(c.id, Unblocked(Some(t)), c.at)]), ActivateSettle(t, true))
      else At(s, ActivateVerify(t))
    case ActivateVerify(t) => At(s, ActivateSettle(t, Receipt(s.log, t)))
    case ActivateSettle(_, accepted) => Done(SettleActivation(s, accepted))
    case _ => At(s, l)
  }

  function GoStop(times: Times, s: Shared, l: Local, c: Choice): Move {
    match l
    case StopBegin(a) =>
      if a !in s.stops then At(s, StopPrepare(a))
      else if s.stops[a].phase == Applied || s.stops[a].superseded then Done(s)
      else At(s, StopRead(a, 4))
    case StopPrepare(a) =>
      if a in s.stops then Done(s) else At(s.(stops := s.stops[a := Stop(Attempting, false)]), StopRead(a, 4))
    case StopRead(a, tries) => At(s, if tries == 0 then StopGiveUp(a) else StopDecide(a, tries, |s.log|))
    case StopDecide(a, tries, n) =>
      if n > |s.log| then At(s, l)
      else if Recorded(s.log, n, a) then At(s, StopSettle(a))
      else if !c.ok then Done(SettleStop(s, a, Reconcile, None))
      else if c.other then At(s.(finished := s.finished + {a}), StopSettle(a))
      else if Stale(times, s, a, n) then Done(SettleStop(s, a, Reconcile, Some(StrictlyLater(times, s, a, n))))
      else if n == 0 then At(s, StopGiveUp(a))
      else At(s, StopCall(a, tries, n))
    case StopCall(a, tries, n) =>
      if n > |s.log| || tries == 0 then At(s, l)
      else if c.ok && Unchanged(s.log, n) && Fresh(s.log, c.id) then
        var kind := if c.other then BlockLoop(StopOf(a)) else Blocked(StopOf(a));
        var next := s.(log := s.log + [Event(c.id, kind, c.at)]);
        if c.lost then Done(SettleStop(next, a, Reconcile, None)) else At(next, StopSettle(a))
      else if c.other then Done(SettleStop(s, a, Reconcile, None))
      else At(s, StopRead(a, tries - 1))
    case StopGiveUp(a) => Done(SettleStop(s, a, Reconcile, None))
    case StopSettle(a) => Done(SettleStop(s, a, Applied, None))
    case _ => At(s, l)
  }

  predicate OwnMark(k: Kind) {
    k.Created? || (k.Unblocked? && k.request.Some?) || (k.Blocked? && !k.reason.OtherReason?)
    || (k.BlockLoop? && !k.reason.OtherReason?)
  }

  predicate Job(l: Local) {
    l.CreatePrepare? || l.ActivateRead? || l.StopBegin?
  }

  predicate Creating(l: Local) {
    l.CreatePrepare? || l.CreateFirst? || l.CreateFind? || l.BindTask? || l.BindSettle?
  }

  predicate Stopping(l: Local) {
    l.StopBegin? || l.StopPrepare? || l.StopRead? || l.StopDecide? || l.StopCall? || l.StopGiveUp? || l.StopSettle?
  }

  function GoOn(times: Times, s: Shared, l: Local, c: Choice): Move {
    if Creating(l) then GoCreate(s, l, c) else if Stopping(l) then GoStop(times, s, l, c) else GoActivate(s, l, c)
  }

  /** What a step makes of the log when no worker of ours moves. */
  function OutsideLog(log: seq<Event>, step: Step): seq<Event> {
    match step
    case Outside(e) => if log != [] && !OwnMark(e.kind) && Fresh(log, e.id) then log + [e] else log
    case ParkResume(c) =>
      if |log| > 2 && log[|log| - 1].kind.Blocked? && Fresh(log, c.id) then
        log + [Event(c.id, Unblocked(Some(log[|log| - 1].id)), c.at)]
      else log
    case _ => log
  }

  function Apply(times: Times, s: State, step: Step): State {
    match step
    case Begin(w, job) => if w !in s.workers && Job(job) then s.(workers := s.workers[w := job]) else s
    case Go(w, c) =>
      if w !in s.workers then s
      else
        var move := GoOn(times, s.shared, s.workers[w], c);
        State(move.shared, if move.next.Some? then s.workers[w := move.next.value] else s.workers - {w})
    case Crash(w) => s.(workers := s.workers - {w})
    case _ => s.(shared := s.shared.(log := OutsideLog(s.shared.log, step)))
  }

  /** The state after the first `n` steps of a run. */
  function After(times: Times, run: seq<Step>, n: nat): State
    requires n <= |run|
  {
    if n == 0 then INITIAL else Apply(times, After(times, run, n - 1), run[n - 1])
  }

  // ----- what every run keeps -----

  ghost predicate Ordered(log: seq<Event>) {
    forall i, j :: 0 <= i < j < |log| ==> log[i].id < log[j].id
  }

  /**
    The log starts with the parked pair, and each of our own unblocks stands right after the event it was signed for.
   */
  ghost predicate LogOk(log: seq<Event>) {
    && Ordered(log) && (log == [] || Pristine(log))
    && forall k :: 0 <= k < |log| && log[k].kind.Unblocked? && log[k].kind.request.Some? ==>
         k >= 2 && log[k - 1].id == log[k].kind.request.value
  }

  /** Every late resume or finish among the first `n` events is our own initial unblock. */
  ghost predicate Timely(times: Times, log: seq<Event>, n: nat, a: nat)
    requires n <= |log|
  {
    forall j :: 0 <= j < n && LateControl(times, log[j], a) ==> j == 2 && log[2].kind == Unblocked(Some(log[1].id))
  }

  ghost predicate StopsOk(times: Times, log: seq<Event>) {
    && (forall a, j, k :: 0 <= j < k < |log| && Carries(log[j], a) ==> !Carries(log[k], a))
    && (forall a, k :: 0 <= k < |log| && Carries(log[k], a) ==> Timely(times, log, k, a))
  }

  ghost predicate TokenOk(log: seq<Event>, t: nat) {
    |log| >= 2 && t == log[1].id
  }

  ghost predicate StopDone(log: seq<Event>, finished: set<nat>, a: nat) {
    Recorded(log, |log|, a) || a in finished
  }

  ghost predicate LocalOk(times: Times, s: Shared, l: Local) {
    match l
    case CreateFirst => s.create.Some? && s.creates == 0
    case ActivatePrepare(token) => token.Some? ==> TokenOk(s.log, token.value)
    case ActivateCheck(t) => TokenOk(s.log, t)
    case ActivateCall(t) => TokenOk(s.log, t)
    case ActivateVerify(t) => TokenOk(s.log, t)
    case ActivateSettle(t, accepted) => TokenOk(s.log, t) && (accepted ==> Receipt(s.log, t))
    case StopDecide(_, _, n) => n <= |s.log|
    case StopCall(a, _, n) => 0 < n <= |s.log| && !Recorded(s.log, n, a) && Timely(times, s.log, n, a)
    case StopSettle(a) => StopDone(s.log, s.finished, a)
    case _ => true
  }

  /** A worker past the activation intent acts on that intent's token. */
  ghost predicate TokenHeld(s: Shared, l: Local) {
    match l
    case ActivateGiveUp => s.activation.Some? && s.activation.value.token == None
    case ActivateCheck(t) => s.activation.Some? && s.activation.value.token == Some(t)
    case ActivateCall(t) => s.activation.Some? && s.activation.value.token == Some(t)
    case ActivateVerify(t) => s.activation.Some? && s.activation.value.token == Some(t)
    case ActivateSettle(t, _) => s.activation.Some? && s.activation.value.token == Some(t)
    case _ => true
  }

  ghost predicate CreateOk(s: Shared) {
    s.creates <= 1 && (s.log != [] ==> s.creates == 1) && (s.create.None? ==> s.creates == 0)
  }

  /** Only one worker holds the right to create. */
  ghost predicate OneFirst(workers: map<nat, Local>) {
    forall v, w :: v in workers && w in workers && workers[v].CreateFirst? && workers[w].CreateFirst? ==> v == w
  }

  ghost predicate ActivationOk(s: Shared) {
    s.activation.Some? ==>
      var act := s.activation.value;
      && (act.token.Some? ==> TokenOk(s.log, act.token.value))
      && (act.accepted ==> act.phase == Applied && act.token.Some? && Receipt(s.log, act.token.value))
  }

  ghost predicate AppliedOk(s: Shared) {
    forall a :: a in s.stops && s.stops[a].phase == Applied ==> StopDone(s.log, s.finished, a)
  }

  ghost predicate SharedOk(times: Times, s: Shared) {
    LogOk(s.log) && StopsOk(times, s.log) && CreateOk(s) && ActivationOk(s) && AppliedOk(s)
  }

  ghost predicate Inv(times: Times, s: State) {
    && SharedOk(times, s.shared) && OneFirst(s.workers)
    && forall w :: w in s.workers ==> LocalOk(times, s.shared, s.workers[w]) && TokenHeld(s.shared, s.workers[w])
  }

  // ----- the log as it grows -----

  ghost predicate Prefix(a: seq<Event>, b: seq<Event>) {
    |a| <= |b| && b[..|a|] == a
  }

  /** The log only grows, and an intent keeps its token. */
  ghost predicate Grows(s: Shared, t: Shared) {
    && Prefix(s.log, t.log)
    && (s.create.Some? ==> t.create.Some?) && s.finished <= t.finished
    && (s.activation.Some? ==> t.activation.Some? && t.activation.value.token == s.activation.value.token)
  }

  lemma SamePrefix(a: seq<Event>, b: seq<Event>, n: nat, activity: nat, times: Times)
    requires n <= |a| && Prefix(a, b)
    ensures Recorded(a, n, activity) <==> Recorded(b, n, activity)
    ensures Timely(times, a, n, activity) <==> Timely(times, b, n, activity)
  {
    assert forall k :: 0 <= k < |a| ==> a[k] == b[k];
  }

  lemma {:induction false} FirstAfterIs(log: seq<Event>, token: nat, i: nat, k: nat)
    requires i <= k <= |log| && (k < |log| ==> log[k].id > token) && forall x :: i <= x < k ==> log[x].id <= token
    ensures FirstAfter(log, token, i) == k
    decreases k - i
  {
    if i < k {
      FirstAfterIs(log, token, i + 1, k);
    }
  }

  /** The receipt for the token of the parked pair is the third event. */
  lemma ReceiptIsThird(log: seq<Event>, t: nat)
    requires Ordered(log) && TokenOk(log, t)
    ensures Receipt(log, t) <==> |log| > 2 && log[2].kind == Unblocked(Some(t))
  {
    FirstAfterIs(log, t, 0, 2);
  }

  /** What a token, a receipt and a finished Stop say stays true. */
  lemma FactsStay(a: seq<Event>, b: seq<Event>, t: nat)
    requires Prefix(a, b) && Ordered(a) && Ordered(b) && TokenOk(a, t)
    ensures TokenOk(b, t) && (Receipt(a, t) ==> Receipt(b, t))
  {
    assert |a| > 2 ==> a[2] == b[2];
    ReceiptIsThird(a, t);
    ReceiptIsThird(b, t);
  }

  lemma StopDoneStays(s: Shared, t: Shared, a: nat, times: Times)
    requires Grows(s, t) && StopDone(s.log, s.finished, a)
    ensures StopDone(t.log, t.finished, a)
  {
    SamePrefix(s.log, t.log, |s.log|, a, times);
  }

  lemma LocalStays(times: Times, s: Shared, t: Shared, l: Local)
    requires LocalOk(times, s, l) && TokenHeld(s, l) && Grows(s, t) && Ordered(s.log) && Ordered(t.log)
    requires l.CreateFirst? ==> t.creates == s.creates
    ensures LocalOk(times, t, l) && TokenHeld(t, l)
  {
    hide Receipt;
    match l
    case ActivatePrepare(token) => if token.Some? { FactsStay(s.log, t.log, token.value); }
    case ActivateCheck(token) => FactsStay(s.log, t.log, token);
    case ActivateCall(token) => FactsStay(s.log, t.log, token);
    case ActivateVerify(token) => FactsStay(s.log, t.log, token);
    case ActivateSettle(token, _) => FactsStay(s.log, t.log, token);
    case StopCall(a, _, n) => SamePrefix(s.log, t.log, n, a, times);
    case StopSettle(a) => StopDoneStays(s, t, a, times);
    case _ =>
  }

  lemma AppendOk(times: Times, log: seq<Event>, e: Event)
    requires LogOk(log) && StopsOk(times, log) && log != [] && Fresh(log, e.id)
    requires forall a :: Carries(e, a) ==> !Recorded(log, |log|, a) && Timely(times, log, |log|, a)
    requires e.kind.Unblocked? && e.kind.request.Some? ==> log[|log| - 1].id == e.kind.request.value
    ensures LogOk(log + [e]) && StopsOk(times, log + [e]) && Prefix(log, log + [e])
  {
    var next := log + [e];
    forall a, k | 0 <= k < |next| && Carries(next[k], a) ensures Timely(times, next, k, a) {
      SamePrefix(log, next, k, a, times);
    }
    forall a, j, k | 0 <= j < k < |next| && Carries(next[j], a) ensures !Carries(next[k], a) {
      if k == |log| {
        assert next[j] == log[j] && Recorded(log, |log|, a);
      }
    }
  }

  /** A guarded call that appended saw the whole log. */
  lemma UnchangedIsAll(log: seq<Event>, n: nat)
    requires Ordered(log) && n <= |log| && Unchanged(log, n)
    ensures n == |log|
  {
  }

  lemma PairOk(times: Times, a: Event, b: Event)
    requires a.kind == Created("blocked") && b.kind == Blocked(InitialStatus) && a.id < b.id
    ensures LogOk([a, b]) && StopsOk(times, [a, b]) && Prefix([], [a, b])
  {
  }

  lemma PrefixSelf(a: seq<Event>)
    ensures Prefix(a, a)
  {
  }

  // ----- one action of one worker -----

  /** What a worker's action keeps: the shared state, the log so far, and what the worker knows next. */
  ghost predicate MoveOk(times: Times, s: Shared, l: Local, m: Move) {
    && SharedOk(times, m.shared) && Grows(s, m.shared)
    && (m.next.Some? ==> LocalOk(times, m.shared, m.next.value) && TokenHeld(m.shared, m.next.value))
    && (m.shared.creates != s.creates ==> l.CreateFirst?)
    && (m.next.Some? && m.next.value.CreateFirst? ==> l.CreateFirst? || s.create.None?)
  }

  /** Nothing but the log moved, and no intent that matters is settled. */
  lemma LogOnly(times: Times, s: Shared, t: Shared)
    requires SharedOk(times, s) && LogOk(t.log) && StopsOk(times, t.log) && Prefix(s.log, t.log)
    requires t.creates == s.creates && t.create == s.create && t.activation == s.activation && t.stops == s.stops
    requires s.finished <= t.finished && (s.log == [] ==> t.log == [])
    ensures SharedOk(times, t) && Grows(s, t)
  {
    hide LogOk;
    hide StopsOk;
    assert Grows(s, t);
    if s.activation.Some? && s.activation.value.token.Some? {
      assert Ordered(s.log) && Ordered(t.log) by { LogOrdered(s.log); LogOrdered(t.log); }
      FactsStay(s.log, t.log, s.activation.value.token.value);
    }
    forall a | a in t.stops && t.stops[a].phase == Applied ensures StopDone(t.log, t.finished, a) {
      StopDoneStays(s, t, a, times);
    }
  }

  lemma LogOrdered(log: seq<Event>)
    requires LogOk(log)
    ensures Ordered(log)
  {
  }

  lemma CreateMoves(times: Times, s: Shared, l: Local, c: Choice)
    requires SharedOk(times, s) && LocalOk(times, s, l) && TokenHeld(s, l) && Creating(l)
    ensures MoveOk(times, s, l, GoCreate(s, l, c))
  {
    hide Prefix;
    hide LogOk;
    hide StopsOk;
    hide Receipt;
    PrefixSelf(s.log);
    PairOk(times, Event(c.id, Created("blocked"), c.at), Event(c.id + 1, Blocked(InitialStatus), c.at));
    if s.log == [] {
      NothingSaid(s);
    }
  }

  lemma NothingSaid(s: Shared)
    requires s.log == [] && ActivationOk(s) && AppliedOk(s)
    ensures s.activation.Some? ==> s.activation.value.token == None
    ensures forall a :: a in s.stops && s.stops[a].phase == Applied ==> a in s.finished
  {
  }

  lemma ActivateAppend(times: Times, log: seq<Event>, t: nat, e: Event)
    requires LogOk(log) && StopsOk(times, log) && TokenOk(log, t) && log[|log| - 1].id == t
    requires Fresh(log, e.id) && e.kind == Unblocked(Some(t))
    ensures LogOk(log + [e]) && StopsOk(times, log + [e]) && Prefix(log, log + [e])
    ensures TokenOk(log + [e], t) && Receipt(log + [e], t)
  {
    AppendOk(times, log, e);
    assert |log| == 2;
    ReceiptIsThird(log + [e], t);
  }

  lemma ActivateMoves(times: Times, s: Shared, l: Local, c: Choice)
    requires SharedOk(times, s) && LocalOk(times, s, l) && TokenHeld(s, l) && !Creating(l) && !Stopping(l)
    ensures MoveOk(times, s, l, GoActivate(s, l, c))
  {
    hide Prefix;
    hide LogOk;
    hide StopsOk;
    hide StopDone;
    hide Receipt;
    hide AppliedOk;
    PrefixSelf(s.log);
    match l
    case ActivateCall(t) =>
      var m := GoActivate(s, l, c);
      if m.shared.log != s.log {
        ActivateAppend(times, s.log, t, Event(c.id, Unblocked(Some(t)), c.at));
      }
      LogOnly(times, s, m.shared);
    case ActivateRead => AppliedSame(s, GoActivate(s, l, c).shared);
    case _ => AppliedSame(s, GoActivate(s, l, c).shared);
  }

  lemma AppliedSame(s: Shared, t: Shared)
    requires AppliedOk(s) && t.stops == s.stops && t.log == s.log && t.finished == s.finished
    ensures AppliedOk(t)
  {
  }

  lemma DecideMoves(times: Times, s: Shared, a: nat, tries: nat, n: nat, c: Choice)
    requires SharedOk(times, s) && n <= |s.log|
    ensures MoveOk(times, s, StopDecide(a, tries, n), GoStop(times, s, StopDecide(a, tries, n), c))
  {
    PrefixSelf(s.log);
    var m := GoStop(times, s, StopDecide(a, tries, n), c);
    if m.next.Some? && m.next.value.StopCall? {
      NotStale(times, s, a, n);
    }
    if Recorded(s.log, n, a) {
      RecordedMore(s.log, n, a);
    }
    SettledOnly(times, s, m.shared, a);
  }

  lemma RecordedMore(log: seq<Event>, n: nat, a: nat)
    requires n <= |log| && Recorded(log, n, a)
    ensures Recorded(log, |log|, a)
  {
  }

  /** What Stop inspected is what the promise asks: any late control it saw is our own initial unblock. */
  lemma NotStale(times: Times, s: Shared, a: nat, n: nat)
    requires LogOk(s.log) && n <= |s.log| && !Stale(times, s, a, n)
    ensures Timely(times, s.log, n, a)
  {
  }

  /** One Stop's intent moved, not to `applied`, or to `applied` with its reason; the log did not. */
  lemma SettledOnly(times: Times, s: Shared, t: Shared, a: nat)
    requires SharedOk(times, s) && t.log == s.log && t.creates == s.creates && t.create == s.create
    requires t.activation == s.activation && s.finished <= t.finished
    requires forall b :: b in t.stops && b != a ==> b in s.stops && t.stops[b] == s.stops[b]
    requires a in t.stops && t.stops[a].phase == Applied ==>
               (a in s.stops && s.stops[a].phase == Applied) || StopDone(t.log, t.finished, a)
    ensures SharedOk(times, t) && Grows(s, t)
  {
    hide LogOk;
    hide StopsOk;
    PrefixSelf(s.log);
  }

  lemma CallMoves(times: Times, s: Shared, a: nat, tries: nat, n: nat, c: Choice)
    requires SharedOk(times, s) && LocalOk(times, s, StopCall(a, tries, n))
    ensures MoveOk(times, s, StopCall(a, tries, n), GoStop(times, s, StopCall(a, tries, n), c))
  {
    hide SharedOk;
    hide Recorded;
    hide Prefix;
    hide Timely;
    var m := GoStop(times, s, StopCall(a, tries, n), c);
    if m.shared.log == s.log {
      SettledOnly(times, s, m.shared, a);
    } else {
      CallAppends(times, s, a, tries, n, c, m);
    }
  }

  lemma CallAppends(times: Times, s: Shared, a: nat, tries: nat, n: nat, c: Choice, m: Move)
    requires SharedOk(times, s) && LocalOk(times, s, StopCall(a, tries, n))
    requires m == GoStop(times, s, StopCall(a, tries, n), c) && m.shared.log != s.log
    ensures MoveOk(times, s, StopCall(a, tries, n), m)
  {
    hide LogOk;
    hide StopsOk;
    hide Timely;
    var e := Event(c.id, if c.other then BlockLoop(StopOf(a)) else Blocked(StopOf(a)), c.at);
    var mid := s.(log := s.log + [e]);
    StopAppend(times, s.log, a, n, e);
    hide Recorded;
    hide Prefix;
    hide ActivationOk;
    hide AppliedOk;
    LogOnly(times, s, mid);
    SettledOnly(times, mid, m.shared, a);
  }

  lemma StopAppend(times: Times, log: seq<Event>, a: nat, n: nat, e: Event)
    requires LogOk(log) && StopsOk(times, log) && n <= |log| && Unchanged(log, n) && Fresh(log, e.id)
    requires !Recorded(log, n, a) && Timely(times, log, n, a)
    requires e.kind == Blocked(StopOf(a)) || e.kind == BlockLoop(StopOf(a))
    ensures LogOk(log + [e]) && StopsOk(times, log + [e]) && Prefix(log, log + [e])
    ensures Recorded(log + [e], |log| + 1, a)
  {
    UnchangedIsAll(log, n);
    AppendOk(times, log, e);
    assert Carries((log + [e])[|log|], a);
  }

  lemma StopMoves(times: Times, s: Shared, l: Local, c: Choice)
    requires SharedOk(times, s) && LocalOk(times, s, l) && TokenHeld(s, l) && Stopping(l)
    ensures MoveOk(times, s, l, GoStop(times, s, l, c))
  {
    if l.StopDecide? {
      DecideMoves(times, s, l.a, l.tries, l.n, c);
    } else if l.StopCall? {
      CallMoves(times, s, l.a, l.tries, l.n, c);
    } else {
      OtherStopMoves(times, s, l, c);
    }
  }

  lemma OtherStopMoves(times: Times, s: Shared, l: Local, c: Choice)
    requires SharedOk(times, s) && LocalOk(times, s, l) && Stopping(l) && !l.StopDecide? && !l.StopCall?
    ensures MoveOk(times, s, l, GoStop(times, s, l, c))
  {
    hide SharedOk;
    hide StopDone;
    SettledOnly(times, s, GoStop(times, s, l, c).shared, l.a);
  }

  lemma GoMoves(times: Times, s: Shared, l: Local, c: Choice)
    requires SharedOk(times, s) && LocalOk(times, s, l) && TokenHeld(s, l)
    ensures MoveOk(times, s, l, GoOn(times, s, l, c))
  {
    hide SharedOk;
    hide LocalOk;
    hide TokenHeld;
    hide MoveOk;
    if Creating(l) {
      CreateMoves(times, s, l, c);
    } else if Stopping(l) {
      StopMoves(times, s, l, c);
    } else {
      ActivateMoves(times, s, l, c);
    }
  }

  // ----- every step, every run -----

  lemma OutsideMoves(times: Times, s: Shared, step: Step)
    requires SharedOk(times, s)
    ensures SharedOk(times, s.(log := OutsideLog(s.log, step))) && Grows(s, s.(log := OutsideLog(s.log, step)))
  {
    PrefixSelf(s.log);
    match step
    case Outside(e) =>
      if OutsideLog(s.log, step) != s.log {
        AppendOk(times, s.log, e);
      }
      LogOnly(times, s, s.(log := OutsideLog(s.log, step)));
    case ParkResume(c) =>
      if OutsideLog(s.log, step) != s.log {
        AppendOk(times, s.log, Event(c.id, Unblocked(Some(s.log[|s.log| - 1].id)), c.at));
      }
      LogOnly(times, s, s.(log := OutsideLog(s.log, step)));
    case _ =>
  }

  /** Workers that did not move know what they knew. */
  lemma OthersStay(times: Times, s: Shared, t: Shared, workers: map<nat, Local>, v: nat)
    requires SharedOk(times, s) && SharedOk(times, t) && Grows(s, t) && v in workers
    requires LocalOk(times, s, workers[v]) && TokenHeld(s, workers[v])
    requires workers[v].CreateFirst? ==> t.creates == s.creates
    ensures LocalOk(times, t, workers[v]) && TokenHeld(t, workers[v])
  {
    LocalStays(times, s, t, workers[v]);
  }

  lemma GoKeeps(times: Times, s: State, w: nat, c: Choice)
    requires Inv(times, s) && w in s.workers
    ensures Inv(times, Apply(times, s, Go(w, c)))
  {
    hide LocalOk;
    hide TokenHeld;
    hide SharedOk;
    hide Grows;
    var t, m := Apply(times, s, Go(w, c)), GoOn(times, s.shared, s.workers[w], c);
    GoMoves(times, s.shared, s.workers[w], c);
    hide GoOn;
    forall v | v in t.workers ensures LocalOk(times, t.shared, t.workers[v]) && TokenHeld(t.shared, t.workers[v]) {
      if v != w {
        OthersStay(times, s.shared, m.shared, s.workers, v);
      }
    }
    forall v | v in s.workers && s.workers[v].CreateFirst? ensures s.shared.create.Some? {
      FirstHasIntent(times, s.shared, s.workers[v]);
    }
    assert OneFirst(t.workers);
  }

  lemma FirstHasIntent(times: Times, s: Shared, l: Local)
    requires LocalOk(times, s, l) && l.CreateFirst?
    ensures s.create.Some?
  {
  }

  lemma StepKeeps(times: Times, s: State, step: Step)
    requires Inv(times, s)
    ensures Inv(times, Apply(times, s, step))
  {
    match step
    case Go(w, c) => if w in s.workers { GoKeeps(times, s, w, c); }
    case Begin(w, job) =>
    case Crash(w) =>
    case _ => OutsideKeeps(times, s, step);
  }

  lemma OutsideKeeps(times: Times, s: State, step: Step)
    requires Inv(times, s) && (step.Outside? || step.ParkResume?)
    ensures Inv(times, Apply(times, s, step))
  {
    hide LocalOk;
    hide TokenHeld;
    hide SharedOk;
    hide Grows;
    var t := Apply(times, s, step);
    OutsideMoves(times, s.shared, step);
    forall v | v in t.workers ensures LocalOk(times, t.shared, t.workers[v]) && TokenHeld(t.shared, t.workers[v]) {
      OthersStay(times, s.shared, t.shared, s.workers, v);
    }
  }

  lemma {:induction false} RunKeeps(times: Times, run: seq<Step>, n: nat)
    requires n <= |run|
    ensures Inv(times, After(times, run, n))
  {
    if n > 0 {
      hide Inv;
      hide Apply;
      RunKeeps(times, run, n - 1);
      StepKeeps(times, After(times, run, n - 1), run[n - 1]);
    }
  }

  // ----- what no run breaks -----

  /** The native create is called at most once, whatever crashes and whoever retries. */
  lemma CreatedAtMostOnce(times: Times, run: seq<Step>, n: nat)
    requires n <= |run|
    ensures After(times, run, n).shared.creates <= 1
  {
    RunKeeps(times, run, n);
  }

  /**
    Our unblock for the parked pair is in the log at most once, directly after that pair: a task any other event
    reached first, a Stop included, is never admitted. The intent says `accepted` only when that unblock is there.
   */
  lemma AdmittedOnlyUntouched(times: Times, run: seq<Step>, n: nat)
    requires n <= |run|
    ensures var log, act := After(times, run, n).shared.log, After(times, run, n).shared.activation;
            && (forall k :: 1 < k < |log| && log[k].kind == Unblocked(Some(log[1].id)) ==> k == 2 && Pristine(log))
            && (act.Some? && act.value.accepted ==>
                  act.value.phase == Applied && |log| > 2 && log[2].kind == Unblocked(Some(log[1].id)))
  {
    RunKeeps(times, run, n);
    hide After;
    hide StopsOk;
    hide LocalOk;
    hide TokenHeld;
    var s := After(times, run, n).shared;
    OnlyThird(s.log);
    hide LogOk;
    if s.activation.Some? && s.activation.value.accepted {
      LogOrdered(s.log);
      ReceiptIsThird(s.log, s.activation.value.token.value);
    }
  }

  lemma OnlyThird(log: seq<Event>)
    requires LogOk(log)
    ensures forall k :: 1 < k < |log| && log[k].kind == Unblocked(Some(log[1].id)) ==> k == 2 && Pristine(log)
  {
    forall k | 1 < k < |log| && log[k].kind == Unblocked(Some(log[1].id)) ensures k == 2 {
      var before := k - 1;
      assert log[before].id == log[1].id;
    }
  }

  /** Only the event our unblock was signed for can come right before it. */
  lemma UnblocksFollowTheirToken(times: Times, run: seq<Step>, n: nat, k: nat)
    requires n <= |run| && k < |After(times, run, n).shared.log|
    requires After(times, run, n).shared.log[k].kind.Unblocked? && After(times, run, n).shared.log[k].kind.request.Some?
    ensures k >= 2 && After(times, run, n).shared.log[k - 1].id == After(times, run, n).shared.log[k].kind.request.value
  {
    RunKeeps(times, run, n);
  }

  /**
    However often one Stop is delivered and by however many workers, at most one block carries it, and when that block
    was appended every resume or finish at or after the second of the click was our own initial unblock. A Stop is
    settled as applied only when its block is in the log or the task was read as finished.
   */
  lemma StopOnceAndNeverOverAPerson(times: Times, run: seq<Step>, n: nat, a: nat)
    requires n <= |run|
    ensures var s := After(times, run, n).shared;
            && (forall j, k :: 0 <= j < k < |s.log| && Carries(s.log[j], a) ==> !Carries(s.log[k], a))
            && (forall k :: 0 <= k < |s.log| && Carries(s.log[k], a) ==> Timely(times, s.log, k, a))
            && (a in s.stops && s.stops[a].phase == Applied ==> Recorded(s.log, |s.log|, a) || a in s.finished)
  {
    RunKeeps(times, run, n);
  }

  lemma PrefixTransitive(a: seq<Event>, b: seq<Event>, c: seq<Event>)
    requires Prefix(a, b) && Prefix(b, c)
    ensures Prefix(a, c)
  {
  }

  /** The log is append-only, so what stood before an event when it was appended still stands before it. */
  lemma {:induction false} LogOnlyGrows(times: Times, run: seq<Step>, m: nat, n: nat)
    requires m <= n <= |run|
    ensures Prefix(After(times, run, m).shared.log, After(times, run, n).shared.log)
    decreases n
  {
    hide Inv;
    hide Apply;
    hide Prefix;
    if m == n {
      PrefixSelf(After(times, run, m).shared.log);
    } else {
      LogOnlyGrows(times, run, m, n - 1);
      RunKeeps(times, run, n - 1);
      StepGrows(times, After(times, run, n - 1), run[n - 1]);
      var first, before, now := After(times, run, m), After(times, run, n - 1), After(times, run, n);
      PrefixTransitive(first.shared.log, before.shared.log, now.shared.log);
    }
  }

  lemma StepGrows(times: Times, s: State, step: Step)
    requires Inv(times, s)
    ensures Prefix(s.shared.log, Apply(times, s, step).shared.log)
  {
    hide SharedOk;
    PrefixSelf(s.shared.log);
    match step
    case Go(w, c) =>
      if w in s.workers {
        assert LocalOk(times, s.shared, s.workers[w]) && TokenHeld(s.shared, s.workers[w]);
        hide LocalOk;
        hide TokenHeld;
        GoMoves(times, s.shared, s.workers[w], c);
        hide GoOn;
      }
    case Begin(_, _) =>
    case Crash(_) =>
    case _ => OutsideMoves(times, s.shared, step);
  }
}
