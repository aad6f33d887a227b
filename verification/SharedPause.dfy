/** `LinearAPI`'s cooldown and budget, kept in one locked file by every client of one app user. */
module SharedPause {
  import opened Basics

  const DEFAULT_PAUSE := 60.0
  const OPTIONAL_FLOOR := 0.20
  const ESSENTIAL_FLOOR := 0.05

  datatype Name = Requests | Complexity

  /** One observation of a budget, and when it was made. Times are in seconds. */
  datatype Entry = Entry(remaining: real, limit: real, reset: real, at: real)

  type Budget = map<Name, Entry>

  /** The shared file: nothing in it yet, a saved state, or something that cannot be read as one. */
  datatype File = Empty | Saved(paused: real, budget: Budget) | Unreadable

  /** What one client remembers. */
  datatype Client = Client(paused: real, budget: Budget)

  function Max(a: real, b: real): real {
    if a >= b then a else b
  }

  /** `_merge_budget`: an observation at least as new replaces the one known. */
  function Merged(budget: Budget, saved: Budget): Budget {
    map n | n in budget.Keys + saved.Keys ::
      if n in saved && (n !in budget || saved[n].at >= budget[n].at) then saved[n] else budget[n]
  }

  /** The pause a file asks for; one that cannot be read asks for the default pause from now on. */
  function PauseOf(f: File, now: real): real {
    match f
    case Empty => 0.0
    case Saved(paused, _) => paused
    case Unreadable => now + DEFAULT_PAUSE
  }

  function BudgetOf(f: File): Budget {
    if f.Saved? then f.budget else map[]
  }

  /** What a client remembers after `_pause_state`; the file then says the same. */
  function Synced(c: Client, f: File, now: real, until: real, seen: Budget): Client {
    Client(Max(Max(c.paused, until), PauseOf(f, now)), Merged(Merged(c.budget, seen), BudgetOf(f)))
  }

  // ----- the limit headers -----

  /** One family of limit headers: what is left, and when it resets; None for a value that is no finite number. */
  datatype Limit = Limit(remaining: Option<real>, resetMs: Option<real>)

  /** `retry` is the time `retry-after` names. */
  datatype Headers = Headers(limits: seq<Limit>, retry: Option<real>, seen: Budget)

  predicate Exhausted(l: Limit) {
    l.remaining.Some? && l.remaining.value <= 0.0
  }

  predicate AnyExhausted(h: Headers) {
    exists k :: 0 <= k < |h.limits| && Exhausted(h.limits[k])
  }

  /** A limit whose reset counts: an exhausted one, or any when none is exhausted. */
  predicate Counts(h: Headers, l: Limit, now: real) {
    (Exhausted(l) || !AnyExhausted(h)) && l.resetMs.Some? && l.resetMs.value / 1000.0 > now
  }

  /** The latest of the resets among the first `n` limits that are still to come, and `best`. */
  function Latest(h: Headers, n: nat, now: real, best: Option<real>): Option<real>
    requires n <= |h.limits|
  {
    if n == 0 then best
    else
      var before := Latest(h, n - 1, now, best);
      if !Counts(h, h.limits[n - 1], now) then before
      else
        var reset := h.limits[n - 1].resetMs.value / 1000.0;
        Some(if before.Some? then Max(before.value, reset) else reset)
  }

  /** How long a limited or exhausted answer pauses. */
  function Until(h: Headers, limited: bool, now: real): real {
    var retry := if limited && h.retry.Some? && h.retry.value > now then h.retry else None;
    var latest := Latest(h, |h.limits|, now, retry);
    if latest.Some? then latest.value else now + DEFAULT_PAUSE
  }

  /** The pause covers every reset that counts, and always lies ahead. */
  lemma UntilIsAhead(h: Headers, limited: bool, now: real)
    ensures Until(h, limited, now) > now
    ensures forall k :: 0 <= k < |h.limits| && Counts(h, h.limits[k], now) ==>
              Until(h, limited, now) >= h.limits[k].resetMs.value / 1000.0
  {
    var retry := if limited && h.retry.Some? && h.retry.value > now then h.retry else None;
    LatestIs(h, |h.limits|, now, retry);
  }

  lemma {:induction false} LatestIs(h: Headers, n: nat, now: real, best: Option<real>)
    requires n <= |h.limits| && (best.Some? ==> best.value > now)
    ensures Latest(h, n, now, best).Some? ==> Latest(h, n, now, best).value > now
    ensures forall k :: 0 <= k < n && Counts(h, h.limits[k], now) ==>
              Latest(h, n, now, best).Some? && Latest(h, n, now, best).value >= h.limits[k].resetMs.value / 1000.0
  {
    if n > 0 {
      LatestIs(h, n - 1, now, best);
    }
  }

  /** A time the answer names for trying again: `retry-after` when it was limited, or a reset that counts. */
  ghost predicate NamesTime(h: Headers, limited: bool, now: real, t: real) {
    && t > now
    && ((limited && h.retry == Some(t))
        || exists k :: && 0 <= k < |h.limits| && h.limits[k].resetMs.Some? && h.limits[k].resetMs.value / 1000.0 == t
                       && (UsedUp(h.limits[k]) || forall j :: 0 <= j < |h.limits| ==> !UsedUp(h.limits[j])))
  }

  /** The answer says nothing is left. */
  ghost predicate UsedUp(l: Limit) {
    exists left :: l.remaining == Some(left) && left <= 0.0
  }

  lemma UsedUpIs(l: Limit)
    ensures Exhausted(l) <==> UsedUp(l)
  {
  }

  lemma {:induction false} LatestNamed(h: Headers, n: nat, limited: bool, now: real, best: Option<real>)
    requires n <= |h.limits| && best == if limited && h.retry.Some? && h.retry.value > now then h.retry else None
    ensures var r := Latest(h, n, now, best); r.Some? ==> NamesTime(h, limited, now, r.value)
    ensures best.Some? ==> Latest(h, n, now, best).Some? && Latest(h, n, now, best).value >= best.value
  {
    if n > 0 {
      LatestNamed(h, n - 1, limited, now, best);
      if Counts(h, h.limits[n - 1], now) {
        forall j | 0 <= j < |h.limits| ensures Exhausted(h.limits[j]) <==> UsedUp(h.limits[j]) {
          UsedUpIs(h.limits[j]);
        }
        assert NamesTime(h, limited, now, h.limits[n - 1].resetMs.value / 1000.0);
      }
    }
  }

  /** The pause is the latest time the answer names, or a minute when it names none. */
  lemma UntilIs(h: Headers, limited: bool, now: real, t: real)
    ensures Until(h, limited, now) == t
       <==> if exists u :: NamesTime(h, limited, now, u)
            then NamesTime(h, limited, now, t) && forall u :: NamesTime(h, limited, now, u) ==> u <= t
            else t == now + 60.0
  {
    var retry := if limited && h.retry.Some? && h.retry.value > now then h.retry else None;
    var latest := Latest(h, |h.limits|, now, retry);
    LatestNamed(h, |h.limits|, limited, now, retry);
    LatestIs(h, |h.limits|, now, retry);
    forall u | NamesTime(h, limited, now, u) ensures latest.Some? && u <= latest.value {
      if !(limited && h.retry == Some(u)) {
        var k :| && 0 <= k < |h.limits| && h.limits[k].resetMs.Some? && h.limits[k].resetMs.value / 1000.0 == u
                 && (UsedUp(h.limits[k]) || forall j :: 0 <= j < |h.limits| ==> !UsedUp(h.limits[j]));
        forall j | 0 <= j < |h.limits| ensures Exhausted(h.limits[j]) <==> UsedUp(h.limits[j]) {
          UsedUpIs(h.limits[j]);
        }
        assert Counts(h, h.limits[k], now);
      }
    }
    hide NamesTime, Latest;
  }

  // ----- admission -----

  datatype Level = Optional | Normal | Essential

  /** An observation that still counts: its limit is positive and its hour is not over. */
  predicate Live(e: Entry, now: real) {
    e.limit > 0.0 && e.reset > now
  }

  /** The part of one budget that is left; all of it when nothing current is known. */
  function Left(b: Budget, n: Name, now: real): real {
    if n in b && Live(b[n], now) then b[n].remaining / b[n].limit else 1.0
  }

  function Min(a: real, b: real): real {
    if b < a then b else a
  }

  /** `budget_remaining`: the smallest part left. */
  function Fraction(b: Budget, now: real): real {
    Min(Min(1.0, Left(b, Requests, now)), Left(b, Complexity, now))
  }

  predicate Admits(b: Budget, now: real, level: Level, mutation: bool) {
    && !(level == Optional && Fraction(b, now) < OPTIONAL_FLOOR)
    && !(Fraction(b, now) < ESSENTIAL_FLOOR && level != Essential && !mutation)
  }

  /**
    Essential work always goes; normal work as a mutation, or when five percent of every budget that still counts are
    left; optional work when twenty percent of every one are.
   */
  lemma AdmitsExactly(b: Budget, now: real, level: Level, mutation: bool)
    ensures Admits(b, now, level, mutation)
       <==> match level
            case Essential => true
            case Normal => mutation || LeftEverywhere(b, now, 0.05)
            case Optional => LeftEverywhere(b, now, 0.20)
  {
    FractionIsSmallest(b, now);
    EverywhereIs(b, now, 0.05);
    EverywhereIs(b, now, 0.20);
    hide Fraction, LeftEverywhere;
  }

  /** Every budget with a positive limit whose hour is not over has at least this part left. */
  ghost predicate LeftEverywhere(b: Budget, now: real, part: real) {
    forall n :: n in b && b[n].limit > 0.0 && b[n].reset > now ==> b[n].remaining >= part * b[n].limit
  }

  lemma PartOf(e: Entry, part: real)
    requires e.limit > 0.0
    ensures e.remaining / e.limit >= part <==> e.remaining >= part * e.limit
  {
    var x := e.remaining / e.limit;
    assert x * e.limit == e.remaining;
    if x >= part {
      assert (x - part) * e.limit >= 0.0;
    } else {
      assert (part - x) * e.limit > 0.0;
    }
  }

  lemma EverywhereIs(b: Budget, now: real, part: real)
    requires part <= 1.0
    ensures LeftEverywhere(b, now, part) <==> Fraction(b, now) >= part
  {
    FractionIsSmallest(b, now);
    forall n | n in b && Live(b[n], now)
      ensures b[n].remaining / b[n].limit >= part <==> b[n].remaining >= part * b[n].limit
    {
      PartOf(b[n], part);
    }
    hide Fraction;
    if LeftEverywhere(b, now, part) {
      assert forall n :: n in b && Live(b[n], now) ==> b[n].remaining >= part * b[n].limit;
    }
    if Fraction(b, now) >= part {
      forall n | n in b && b[n].limit > 0.0 && b[n].reset > now ensures b[n].remaining >= part * b[n].limit {
        assert Live(b[n], now);
      }
    }
  }

  predicate AtMost(a: Level, b: Level) {
    a == b || a == Optional || b == Essential
  }

  /** More important work is admitted wherever less important work is; a mutation wherever a query is. */
  lemma AdmissionIsMonotone(b: Budget, now: real, low: Level, high: Level, mutation: bool)
    requires AtMost(low, high)
    ensures Admits(b, now, low, mutation) ==> Admits(b, now, high, mutation)
    ensures Admits(b, now, low, false) ==> Admits(b, now, low, true)
  {
  }

  /** No budget that still counts has less left than the fraction, and the fraction is one of them or everything. */
  lemma FractionIsSmallest(b: Budget, now: real)
    ensures forall n :: n in b && Live(b[n], now) ==> Fraction(b, now) <= b[n].remaining / b[n].limit
    ensures Fraction(b, now) == 1.0
            || exists n :: n in b && Live(b[n], now) && Fraction(b, now) == b[n].remaining / b[n].limit
  {
    forall n | n in b && Live(b[n], now) ensures Fraction(b, now) <= b[n].remaining / b[n].limit {
      assert Left(b, n, now) == b[n].remaining / b[n].limit;
      match n
      case Requests =>
      case Complexity =>
    }
    if Fraction(b, now) != 1.0 {
      var n := if Fraction(b, now) == Left(b, Requests, now) then Requests else Complexity;
      assert Fraction(b, now) == Left(b, n, now);
    }
  }

  // ----- many clients -----

  /**
    `Sync` is one whole `_pause_state`; `Torn` is one whose process is killed between truncating the file and writing
    it; `Disturb` is anything else that happens to the file.
   */
  datatype Step = Sync(c: nat, now: real, until: real, seen: Budget) | Torn(c: nat) | Disturb(file: File)

  datatype State = State(file: File, clients: map<nat, Client>)

  const START := State(Empty, map[])

  function Known(s: State, c: nat): Client {
    if c in s.clients then s.clients[c] else Client(0.0, map[])
  }

  function Apply(s: State, step: Step): State {
    match step
    case Disturb(file) => s.(file := file)
    case Torn(c) => State(Empty, s.clients - {c})
    case Sync(c, now, until, seen) =>
      var next := Synced(Known(s, c), s.file, now, until, seen);
      State(Saved(next.paused, next.budget), s.clients[c := next])
  }

  function After(run: seq<Step>, n: nat): State
    requires n <= |run|
  {
    if n == 0 then START else Apply(After(run, n - 1), run[n - 1])
  }

  /** `b` knows every budget that `a` knows at least as newly. */
  ghost predicate Newer(a: Budget, b: Budget) {
    forall n :: n in a ==> n in b && b[n].at >= a[n].at
  }

  lemma MergedNewer(a: Budget, b: Budget)
    ensures Newer(a, Merged(a, b)) && Newer(b, Merged(a, b))
    ensures forall n :: n in Merged(a, b) ==>
              (n in a && Merged(a, b)[n] == a[n]) || (n in b && Merged(a, b)[n] == b[n])
  {
  }

  lemma NewerSelf(a: Budget)
    ensures Newer(a, a)
  {
  }

  lemma NewerTransitive(a: Budget, b: Budget, c: Budget)
    requires Newer(a, b) && Newer(b, c)
    ensures Newer(a, c)
  {
  }

  /**
    After a sync the file and the client say the same; the pause is at least what the file, the client and the caller
    asked for, and no budget is older than any of the three knew it.
   */
  lemma SyncAgrees(s: State, c: nat, now: real, until: real, seen: Budget)
    ensures var t := Apply(s, Sync(c, now, until, seen));
            var me := Known(t, c);
            && t.file == Saved(me.paused, me.budget)
            && me.paused >= until && me.paused >= Known(s, c).paused && me.paused >= PauseOf(s.file, now)
            && Newer(BudgetOf(s.file), me.budget) && Newer(Known(s, c).budget, me.budget) && Newer(seen, me.budget)
            && (s.file == Unreadable ==> me.paused >= now + DEFAULT_PAUSE)
  {
    var mine := Known(s, c).budget;
    MergedNewer(mine, seen);
    MergedNewer(Merged(mine, seen), BudgetOf(s.file));
    NewerTransitive(mine, Merged(mine, seen), Merged(Merged(mine, seen), BudgetOf(s.file)));
    NewerTransitive(seen, Merged(mine, seen), Merged(Merged(mine, seen), BudgetOf(s.file)));
  }

  /**
    The pause is the latest of what the client, the caller and the file ask for and no later. Of the entries they have
    for a budget the newest stays; at equal times the file's goes before the caller's, and that before the client's.
   */
  lemma SyncExactly(s: State, c: nat, now: real, until: real, seen: Budget)
    ensures var was, me := Known(s, c), Known(Apply(s, Sync(c, now, until, seen)), c);
            var asked := if s.file.Saved? then s.file.paused else if s.file == Empty then 0.0 else now + 60.0;
            && me.paused >= was.paused && me.paused >= until && me.paused >= asked
            && (me.paused == was.paused || me.paused == until || me.paused == asked)
    ensures var was, me := Known(s, c).budget, Known(Apply(s, Sync(c, now, until, seen)), c).budget;
            forall n ::
              var inFile := s.file.Saved? && n in s.file.budget;
              && (n in me <==> n in was || n in seen || inFile)
              && (n in me ==>
                    || (inFile && me[n] == s.file.budget[n]
                        && (n in seen ==> seen[n].at <= me[n].at) && (n in was ==> was[n].at <= me[n].at))
                    || (n in seen && me[n] == seen[n]
                        && (inFile ==> s.file.budget[n].at < me[n].at) && (n in was ==> was[n].at <= me[n].at))
                    || (n in was && me[n] == was[n]
                        && (inFile ==> s.file.budget[n].at < me[n].at) && (n in seen ==> seen[n].at < me[n].at)))
  {
  }

  ghost predicate Undisturbed(run: seq<Step>, m: nat, n: nat)
    requires m <= n <= |run|
  {
    forall k :: m <= k < n ==> run[k].Sync?
  }

  /** As long as nothing else touches the file, its pause never decreases and no budget in it gets older. */
  lemma {:induction false} FileOnlyGrows(run: seq<Step>, m: nat, n: nat)
    requires m <= n <= |run| && Undisturbed(run, m, n) && After(run, m).file != Unreadable
    ensures After(run, n).file != Unreadable && (m < n ==> After(run, n).file.Saved?)
    ensures PauseOf(After(run, n).file, 0.0) >= PauseOf(After(run, m).file, 0.0)
    ensures Newer(BudgetOf(After(run, m).file), BudgetOf(After(run, n).file))
    decreases n
  {
    hide Newer;
    hide Synced;
    if m == n {
      NewerSelf(BudgetOf(After(run, m).file));
    } else {
      FileOnlyGrows(run, m, n - 1);
      var k := n - 1;
      var step := run[k];
      SyncAgrees(After(run, k), step.c, step.now, step.until, step.seen);
      NewerTransitive(BudgetOf(After(run, m).file), BudgetOf(After(run, k).file), BudgetOf(After(run, n).file));
    }
  }

  /** What a step leaves in the file, when it is no sync. */
  function LeftIn(step: Step): File {
    if step.Disturb? then step.file else Empty
  }

  /** The saved pause of a readable file shrinks exactly at a torn write or a disturbance that leaves less. */
  lemma PauseShrinks(s: State, step: Step)
    requires s.file != Unreadable
    ensures PauseOf(Apply(s, step).file, 0.0) < PauseOf(s.file, 0.0)
       <==> !step.Sync? && PauseOf(LeftIn(step), 0.0) < PauseOf(s.file, 0.0)
  {
    if step.Sync? {
      SyncAgrees(s, step.c, step.now, step.until, step.seen);
    }
  }

  /** A torn write forgets the pause: a client that has not synced since passes, though another had to wait till 100. */
  lemma TornWriteForgets()
    ensures var run := [Sync(0, 0.0, 100.0, map[]), Torn(0)];
            !Passes(After(run, 1), 1, 1.0) && Passes(After(run, 2), 1, 1.0)
  {
    var run := [Sync(0, 0.0, 100.0, map[]), Torn(0)];
    assert After(run, 0) == START && After(run, 1) == Apply(START, run[0]);
    assert After(run, 2) == Apply(After(run, 1), run[1]);
    assert After(run, 1).file.paused == 100.0 && 1 !in After(run, 1).clients;
    assert After(run, 2).file == Empty && 1 !in After(run, 2).clients;
  }

  /** Whether a request's gate lets it through at its own sync. */
  predicate Passes(s: State, c: nat, now: real) {
    now >= Known(Apply(s, Sync(c, now, 0.0, map[])), c).paused
  }

  /** What a gate looks at: the client's own pause and the file's; a client that is new knows of none. */
  lemma PassesExactly(s: State, c: nat, now: real)
    ensures Passes(s, c, now)
       <==> && now >= 0.0 && (c in s.clients ==> now >= s.clients[c].paused)
            && (match s.file case Empty => true case Saved(paused, _) => now >= paused case Unreadable => false)
  {
  }

  /**
    A pause any client recorded holds for every client: while nothing else touches the file, no request whose gate
    check comes before the end of that pause passes.
   */
  lemma PauseHoldsForAll(run: seq<Step>, m: nat, n: nat, c: nat, now: real)
    requires m < n <= |run| && Undisturbed(run, m, n) && now < Known(After(run, m + 1), run[m].c).paused
    ensures !Passes(After(run, n), c, now)
  {
    var first := run[m];
    SyncAgrees(After(run, m), first.c, first.now, first.until, first.seen);
    FileOnlyGrows(run, m + 1, n);
    SyncAgrees(After(run, n), c, now, 0.0, map[]);
  }

  /** A limited answer leaves the file and the client paused past the moment it came. */
  lemma LimitedAnswerPauses(s: State, c: nat, now: real, h: Headers)
    ensures var t := Apply(s, Sync(c, now, Until(h, true, now), h.seen));
            Known(t, c).paused > now && t.file.Saved? && t.file.paused > now
  {
    UntilIsAhead(h, true, now);
    SyncAgrees(s, c, now, Until(h, true, now), h.seen);
  }

  /** What step `k` brought in: what a client observed, or what a disturbed file held. */
  function Brought(step: Step): Budget {
    match step
    case Sync(_, _, _, seen) => seen
    case Torn(_) => map[]
    case Disturb(file) => BudgetOf(file)
  }

  /** Somebody brought exactly this entry among the first `n` steps. */
  ghost predicate Observed(run: seq<Step>, n: nat, name: Name, e: Entry)
    requires n <= |run|
  {
    exists k :: 0 <= k < n && name in Brought(run[k]) && Brought(run[k])[name] == e
  }

  ghost predicate AllObserved(run: seq<Step>, n: nat, b: Budget)
    requires n <= |run|
  {
    forall name :: name in b ==> Observed(run, n, name, b[name])
  }

  lemma StillObserved(run: seq<Step>, n: nat, b: Budget)
    requires n < |run| && AllObserved(run, n, b)
    ensures AllObserved(run, n + 1, b)
  {
  }

  lemma MergedObserved(run: seq<Step>, n: nat, a: Budget, b: Budget)
    requires n <= |run| && AllObserved(run, n, a) && AllObserved(run, n, b)
    ensures AllObserved(run, n, Merged(a, b))
  {
    MergedNewer(a, b);
  }

  /** No budget is made up: every entry of the file and of every client was brought in by some step. */
  lemma {:induction false} BudgetsAreObserved(run: seq<Step>, n: nat, c: nat)
    requires n <= |run|
    ensures AllObserved(run, n, BudgetOf(After(run, n).file)) && AllObserved(run, n, Known(After(run, n), c).budget)
  {
    if n > 0 {
      var step, s := run[n - 1], After(run, n - 1);
      BudgetsAreObserved(run, n - 1, c);
      StillObserved(run, n - 1, BudgetOf(s.file));
      StillObserved(run, n - 1, Known(s, c).budget);
      forall name | name in Brought(step) ensures Observed(run, n, name, Brought(step)[name]) {
        assert run[n - 1] == step;
      }
      if step.Sync? {
        BudgetsAreObserved(run, n - 1, step.c);
        var mine := Known(s, step.c).budget;
        StillObserved(run, n - 1, mine);
        MergedObserved(run, n, mine, step.seen);
        MergedObserved(run, n, Merged(mine, step.seen), BudgetOf(s.file));
      }
    }
  }

  /** What a client observed reaches every client that syncs later: what that one then knows is as new, and observed. */
  lemma ObservationsSpread(run: seq<Step>, m: nat, n: nat)
    requires m < n <= |run| && Undisturbed(run, m, n)
    ensures var b := Known(After(run, n), run[n - 1].c).budget;
            Newer(run[m].seen, b) && AllObserved(run, n, b)
  {
    hide Newer;
    hide Synced;
    hide AllObserved;
    hide Merged;
    BudgetsAreObserved(run, n, run[n - 1].c);
    var first, last := run[m], run[n - 1];
    SyncAgrees(After(run, m), first.c, first.now, first.until, first.seen);
    FileOnlyGrows(run, m + 1, n);
    SyncAgrees(After(run, n - 1), last.c, last.now, last.until, last.seen);
    NewerTransitive(first.seen, BudgetOf(After(run, m + 1).file), BudgetOf(After(run, n).file));
  }

  /**
    As long as nothing else touches the file, what it holds and what the client that synced last knows of a budget is
    the newest observation any client made of it, up to equal times; and nothing when there was none.
   */
  lemma BudgetsConverge(run: seq<Step>, n: nat, name: Name)
    requires 0 < n <= |run| && Undisturbed(run, 0, n)
    ensures var b := Known(After(run, n), run[n - 1].c).budget;
            && BudgetOf(After(run, n).file) == b
            && (name in b <==> exists k :: 0 <= k < n && name in run[k].seen)
            && (name in b ==>
                  && (exists k :: 0 <= k < n && name in run[k].seen && run[k].seen[name] == b[name])
                  && forall k :: 0 <= k < n && name in run[k].seen ==> run[k].seen[name].at <= b[name].at)
  {
    var last := run[n - 1];
    var b := Known(After(run, n), last.c).budget;
    SyncAgrees(After(run, n - 1), last.c, last.now, last.until, last.seen);
    BudgetsAreObserved(run, n, last.c);
    forall k | 0 <= k < n ensures Newer(run[k].seen, b) {
      ObservationsSpread(run, k, n);
    }
    if name in b {
      assert Observed(run, n, name, b[name]);
      var k :| 0 <= k < n && name in Brought(run[k]) && Brought(run[k])[name] == b[name];
      assert run[k].Sync? && name in run[k].seen;
    }
  }

  // ----- the objects -----

  /** The file every client of one app user shares. */
  class RateFile {
    var content: File

    constructor ()
      ensures content == Empty
    {
      content := Empty;
    }
  }

  class LinearAPI {
    const file: RateFile
    var pausedUntil: real
    var budget: Budget

    constructor (file: RateFile)
      ensures this.file == file && pausedUntil == 0.0 && budget == map[]
    {
      this.file, pausedUntil, budget := file, 0.0, map[];
    }

    method MergeBudget(saved: Budget)
      modifies `budget
      ensures budget == Merged(old(budget), saved)
    {
      ghost var was := budget;
      ghost var done: set<Name> := {};
      var names := [Requests, Complexity];
      for k := 0 to 2
        invariant done == set j | 0 <= j < k :: names[j]
        invariant forall n :: n in done ==>
                    && (n in budget <==> n in was || n in saved)
                    && (n in budget ==> budget[n] == Merged(was, saved)[n])
        invariant forall n :: n !in done ==> (n in budget <==> n in was) && (n in was ==> budget[n] == was[n])
      {
        var n := names[k];
        if n in saved && (n !in budget || saved[n].at >= budget[n].at) {
          budget := budget[n := saved[n]];
        }
        done := done + {n};
      }
      assert names[0] in done && names[1] in done;
      forall n: Name ensures n in done {
        match n
        case Requests =>
        case Complexity =>
      }
    }

    /** `_pause_state`, whole under the file's lock. */
    method PauseState(now: real, until: real, seen: Budget) returns (paused: real)
      modifies this, file
      ensures var next := Synced(Client(old(pausedUntil), old(budget)), old(file.content), now, until, seen);
              && Client(pausedUntil, budget) == next && file.content == Saved(next.paused, next.budget)
              && paused == next.paused
    {
      if until > pausedUntil {
        pausedUntil := until;
      }
      MergeBudget(seen);
      var saved := match file.content case Empty => 0.0 case Saved(p, _) => p case Unreadable => now + DEFAULT_PAUSE;
      if saved > pausedUntil {
        pausedUntil := saved;
      }
      MergeBudget(BudgetOf(file.content));
      file.content := Saved(pausedUntil, budget);
      return pausedUntil;
    }

    /** `_pause`: a limited answer always pauses; one that only used up a budget does too. */
    method Pause(now: real, h: Headers, limited: bool) returns (paused: real)
      modifies this, file
      ensures limited || AnyExhausted(h) ==> paused > now && file.content.Saved? && file.content.paused > now
      ensures limited || AnyExhausted(h) ==>
                var was := Client(old(pausedUntil), old(budget));
                var next := Synced(was, old(file.content), now, Until(h, limited, now), h.seen);
                Client(pausedUntil, budget) == next && file.content == Saved(next.paused, next.budget)
      ensures !limited && !AnyExhausted(h) && h.seen == map[] ==>
                pausedUntil == old(pausedUntil) && budget == old(budget) && file.content == old(file.content)
    {
      if !limited && !AnyExhausted(h) {
        if h.seen != map[] {
          paused := PauseState(now, 0.0, h.seen);
        }
        return pausedUntil;
      }
      var latest := if limited && h.retry.Some? && h.retry.value > now then h.retry else None;
      ghost var retry := latest;
      var k := 0;
      while k < |h.limits|
        invariant k <= |h.limits| && latest == Latest(h, k, now, retry)
      {
        if Counts(h, h.limits[k], now) {
          var reset := h.limits[k].resetMs.value / 1000.0;
          if latest.None? || reset > latest.value {
            latest := Some(reset);
          }
        }
        k := k + 1;
      }
      UntilIsAhead(h, limited, now);
      paused := PauseState(now, if latest.Some? then latest.value else now + DEFAULT_PAUSE, h.seen);
    }

    /** The gate at the head of `_request`. */
    method Gate(now: real, level: Level, mutation: bool) returns (admitted: bool)
      modifies this, file
      ensures var next := Synced(Client(old(pausedUntil), old(budget)), old(file.content), now, 0.0, map[]);
              && admitted == (now >= next.paused && Admits(next.budget, now, level, mutation))
              && Client(pausedUntil, budget) == next && file.content == Saved(next.paused, next.budget)
    {
      var paused := PauseState(now, 0.0, map[]);
      if now < paused {
        return false;
      }
      return Admits(budget, now, level, mutation);
    }
  }
}
