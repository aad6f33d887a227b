/** `actions_fallback`: required checks proved from GitHub Actions jobs when the Checks API cannot be read. */
module Acceptance {
  import opened Basics

  const ACTIONS_APP_ID := 15368

  /** A GitHub read: its value, a refusal with its HTTP status, or no useful answer. */
  datatype Read<T> = Got(value: T) | Refused(status: int) | Unanswered

  datatype Class = Success | Failure | Infra | Pending | Missing | Closed | Stale | Unprovable | Auth

  datatype Page<R> = Page(total: Option<int>, rows: seq<R>)

  datatype Pull = Pull(state: string, merged: bool, head: string, headRepo: Option<string>, base: string)

  datatype Run = Run(
    id: int, headSha: Option<string>, event: Option<string>, path: Option<string>, headRepo: Option<string>,
    attempt: Option<int>, status: Option<string>)

  datatype Job = Job(
    id: int, name: Option<string>, headSha: Option<string>, status: Option<string>, conclusion: Option<string>,
    attempt: Option<int>)

  datatype Requirement = Requirement(context: string, app: Option<int>)

  /**
    Everything the decision reads. `required` is sorted and without duplicates; `file` tells whether a path is a file.
   */
  datatype World = World(
    repo: string, sha: string, required: seq<Requirement>,
    pull: Read<Pull>, runs: Read<seq<Page<Run>>>, jobs: int -> Read<seq<Page<Job>>>,
    file: string -> Read<bool>, again: Read<Pull>)

  /** A value, or the class the decision ends with. */
  datatype Either<T> = Right(value: T) | Left(why: Class)

  function Failed<T>(r: Read<T>): Class {
    if r.Refused? then Auth else Infra
  }

  // ----- pages -----

  function Ids<R>(rows: seq<R>, id: R -> int): set<int> {
    set k | 0 <= k < |rows| :: id(rows[k])
  }

  function Flat<R>(pages: seq<Page<R>>, n: nat): seq<R>
    requires n <= |pages|
  {
    if n == 0 then [] else Flat(pages, n - 1) + pages[n - 1].rows
  }

  /** `_rows`: every row of every page, if as many different ids came as the first page announced. */
  function Rows<R>(r: Read<seq<Page<R>>>, id: R -> int): Either<seq<R>> {
    if !r.Got? then Left(Failed(r))
    else
      var pages := r.value;
      if pages == [] || pages[0].total.None? || |Ids(Flat(pages, |pages|), id)| != pages[0].total.value then Left(Infra)
      else Right(Flat(pages, |pages|))
  }

  // ----- the pull request -----

  predicate ClosedUnmerged(p: Pull) {
    p.state == "closed" && !p.merged
  }

  /** `_current_pr` */
  function Current(r: Read<Pull>, sha: string, branch: Option<string>): Either<Pull> {
    if !r.Got? then Left(Failed(r))
    else if ClosedUnmerged(r.value) then Left(Closed)
    else if r.value.head != sha || (branch.Some? && r.value.base != branch.value) then Left(Pending)
    else Right(r.value)
  }

  predicate Hex(c: char) {
    '0' <= c <= '9' || 'a' <= c <= 'f'
  }

  predicate ExactSha(s: string) {
    |s| == 40 && forall k :: 0 <= k < 40 ==> Hex(s[k])
  }

  // ----- runs and jobs -----

  const WORKFLOWS := ".github/workflows/"

  /** Where the part of a path that starts at `i` ends. */
  function PartEnd(path: string, i: nat): (e: nat)
    requires i <= |path|
    ensures i <= e <= |path|
    decreases |path| - i
  {
    if i == |path| || path[i] == '/' then i else PartEnd(path, i + 1)
  }

  /** Some part of the path from `i` on is "..". */
  predicate Climbs(path: string, i: nat)
    requires i <= |path|
    decreases |path| - i
  {
    var e := PartEnd(path, i);
    path[i..e] == ".." || (e < |path| && Climbs(path, e + 1))
  }

  /** The part of the path that starts at `a`, after `i` or a slash, is "..". */
  ghost predicate DotsAt(path: string, i: nat, a: nat) {
    && i <= a && a + 2 <= |path| && path[a] == '.' && path[a + 1] == '.'
    && (a == i || path[a - 1] == '/') && (a + 2 == |path| || path[a + 2] == '/')
  }

  lemma {:induction false} PartEndIs(path: string, i: nat)
    requires i <= |path|
    ensures var e := PartEnd(path, i);
            (e < |path| ==> path[e] == '/') && forall k :: i <= k < e ==> path[k] != '/'
    decreases |path| - i
  {
    if i < |path| && path[i] != '/' {
      PartEndIs(path, i + 1);
    }
  }

  /** A path climbs exactly when one of its parts is "..". */
  lemma {:induction false} ClimbsIs(path: string, i: nat)
    requires i <= |path|
    ensures Climbs(path, i) <==> exists a: nat :: DotsAt(path, i, a)
    decreases |path| - i
  {
    PartEndIs(path, i);
    var e := PartEnd(path, i);
    var next := e + 1;
    if e < |path| {
      ClimbsIs(path, next);
    }
    if path[i..e] == ".." {
      assert path[i] == path[i..e][0] && path[i + 1] == path[i..e][1];
      assert DotsAt(path, i, i);
    }
    if exists a: nat :: DotsAt(path, i, a) {
      var a: nat :| DotsAt(path, i, a);
      if a == i {
        assert e == i + 2 && path[i..e] == "..";
      } else {
        assert path[a - 1] == '/';
        assert DotsAt(path, next, a);
      }
    }
    if e < |path| && exists a: nat :: DotsAt(path, next, a) {
      var a: nat :| DotsAt(path, next, a);
      assert DotsAt(path, i, a);
    }
  }

  predicate TrustedPath(path: string) {
    StartsWith(path, WORKFLOWS) && !Climbs(path, 0) && (EndsWith(path, ".yml") || EndsWith(path, ".yaml"))
  }

  predicate OnHead(w: World, r: Run) {
    r.headSha == Some(w.sha)
  }

  /** A required-check event of the repository itself, on the exact head. */
  predicate Eligible(w: World, r: Run) {
    && OnHead(w, r)
    && (r.event == Some("merge_group") || r.event == Some("pull_request") || r.event == Some("push"))
    && r.path.Some? && TrustedPath(r.path.value) && r.headRepo == Some(w.repo)
  }

  predicate HasAttempt(r: Run) {
    r.attempt.Some? && r.attempt.value >= 1
  }

  /**
    A run is evidence when it is of the exact head and the repository itself, one of three events started it, and its
    workflow is a YAML file below the workflows directory, reached without climbing.
   */
  lemma EligibleIs(w: World, r: Run, path: string)
    requires r.path == Some(path)
    ensures Eligible(w, r)
       <==> && r.headSha == Some(w.sha) && r.headRepo == Some(w.repo)
            && r.event.Some? && r.event.value in ["merge_group", "pull_request", "push"]
            && ".github/workflows/" <= path && (EndsWith(path, ".yml") || EndsWith(path, ".yaml"))
            && forall a: nat :: !DotsAt(path, 0, a)
  {
    ClimbsIs(path, 0);
  }

  /** A run without a path is none; an attempt is a number from one on; jobs of earlier attempts are history. */
  lemma AttemptIs(w: World, r: Run, j: Job)
    ensures r.path.None? ==> !Eligible(w, r)
    ensures HasAttempt(r) <==> exists n: nat :: n > 0 && r.attempt == Some(n)
    ensures Latest(r, j) <==> forall n :: r.attempt == Some(n) ==> j.attempt == Some(n)
    ensures OnHead(w, r) <==> r.headSha.Some? && r.headSha.value == w.sha
  {
    if HasAttempt(r) {
      var n: nat := r.attempt.value;
      assert n > 0 && r.attempt == Some(n);
    }
  }

  /** An exact head is forty hexadecimal digits. */
  lemma ExactShaIs(s: string)
    ensures ExactSha(s) <==> |s| == 40 && forall c :: c in s ==> c in "0123456789abcdef"
  {
    if ExactSha(s) {
      forall c | c in s ensures c in "0123456789abcdef" {
        HexIs(c);
      }
    }
    if |s| == 40 && forall c :: c in s ==> c in "0123456789abcdef" {
      forall k | 0 <= k < 40 ensures Hex(s[k]) {
        HexIs(s[k]);
      }
    }
  }

  lemma HexIs(c: char)
    ensures Hex(c) <==> c in "0123456789abcdef"
  {
    var hex := "0123456789abcdef";
    if '0' <= c <= '9' {
      assert hex[c as int - '0' as int] == c;
    }
    if 'a' <= c <= 'f' {
      assert hex[10 + c as int - 'a' as int] == c;
    }
  }

  function Classify(w: World, j: Job): Class {
    if j.headSha != Some(w.sha) then Stale
    else if j.status != Some("completed") then Pending
    else if j.conclusion == Some("success") then Success
    else if j.conclusion == Some("failure") then Failure
    else Infra
  }

  /** A job of the run's latest attempt, as far as the run names one. */
  predicate Latest(r: Run, j: Job) {
    r.attempt.None? || j.attempt == r.attempt
  }

  /** One job that was read; `trusted` tells whether its run is evidence. */
  datatype Entry = Entry(run: Run, job: Job, trusted: bool)

  /** The ids of the trusted runs on the head, or the error of one without an attempt. */
  function Trusted(w: World, runs: seq<Run>, n: nat): Either<set<int>>
    requires n <= |runs|
  {
    if n == 0 then Right({})
    else
      match Trusted(w, runs, n - 1)
      case Left(why) => Left(why)
      case Right(ids) =>
        if !Eligible(w, runs[n - 1]) then Right(ids)
        else if !HasAttempt(runs[n - 1]) then Left(Infra)
        else Right(ids + {runs[n - 1].id})
  }

  function LatestJobs(r: Run, jobs: seq<Job>, n: nat, trusted: bool): seq<Entry>
    requires n <= |jobs|
  {
    if n == 0 then []
    else LatestJobs(r, jobs, n - 1, trusted) + if Latest(r, jobs[n - 1]) then [Entry(r, jobs[n - 1], trusted)] else []
  }

  function JobId(): Job -> int {
    (j: Job) => j.id
  }

  function RunId(): Run -> int {
    (r: Run) => r.id
  }

  /** The latest jobs of the runs on the head, in order, or the error of the first read that failed. */
  function Entries(w: World, runs: seq<Run>, n: nat, trusted: set<int>): Either<seq<Entry>>
    requires n <= |runs|
  {
    if n == 0 then Right([])
    else
      match Entries(w, runs, n - 1, trusted)
      case Left(why) => Left(why)
      case Right(before) =>
        var r := runs[n - 1];
        if !OnHead(w, r) then Right(before)
        else
          match Rows(w.jobs(r.id), JobId())
          case Left(why) => Left(why)
          case Right(jobs) => Right(before + LatestJobs(r, jobs, |jobs|, r.id in trusted))
  }

  predicate Named(e: Entry, context: string) {
    e.job.name == Some(context)
  }

  predicate Required(w: World, e: Entry) {
    exists k :: 0 <= k < |w.required| && Named(e, w.required[k].context)
  }

  /** Whether a trusted run's workflow is a file of the base branch; a 404 says no. */
  function OnBase(w: World, path: string): Either<bool> {
    match w.file(path)
    case Got(isFile) => Right(isFile)
    case Refused(status) => if status == 404 then Right(false) else Left(Auth)
    case Unanswered => Left(Infra)
  }

  /** The first error while the workflows of trusted required jobs are looked up, if any. */
  function BaseError(w: World, es: seq<Entry>, n: nat): Option<Class>
    requires n <= |es|
  {
    if n == 0 then None
    else if BaseError(w, es, n - 1).Some? then BaseError(w, es, n - 1)
    else
      var e := es[n - 1];
      if !e.trusted || !Required(w, e) then None
      else if e.run.path.None? then Some(Infra)
      else if OnBase(w, e.run.path.value).Left? then Some(OnBase(w, e.run.path.value).why) else None
  }

  /** A job that can supply a success: from a trusted run whose workflow is on the base branch. */
  predicate Counted(w: World, e: Entry) {
    e.trusted && e.run.path.Some? && OnBase(w, e.run.path.value) == Right(true)
  }

  // ----- the outcome of one required name -----

  /** The classes of the jobs of that name that `which` selects, in order. */
  function Classes(w: World, es: seq<Entry>, n: nat, context: string, counted: bool): seq<Class>
    requires n <= |es|
  {
    if n == 0 then []
    else
      var before, e := Classes(w, es, n - 1, context, counted), es[n - 1];
      var c := Classify(w, e.job);
      if Named(e, context) && Counted(w, e) == counted && (counted || c != Success) then before + [c] else before
  }

  predicate AnyNamed(es: seq<Entry>, context: string, trusted: bool) {
    exists k :: 0 <= k < |es| && Named(es[k], context) && (trusted ==> es[k].trusted)
  }

  /** The required name ran only in runs that are not evidence. */
  predicate UntrustedOnly(w: World, es: seq<Entry>, context: string, waiting: bool) {
    && Classes(w, es, |es|, context, true) == [] && Classes(w, es, |es|, context, false) == []
    && AnyNamed(es, context, false) && (AnyNamed(es, context, true) || !waiting)
  }

  /** The outcomes of one required name: its counted jobs, then the other jobs that refuse; or why there is none. */
  function Outcomes(w: World, es: seq<Entry>, context: string, waiting: bool): seq<Class> {
    var cs := Classes(w, es, |es|, context, true) + Classes(w, es, |es|, context, false);
    if cs != [] then cs
    else if waiting && !UntrustedOnly(w, es, context, waiting) then [Pending]
    else [Missing]
  }

  function AllOutcomes(w: World, es: seq<Entry>, n: nat, waiting: bool): seq<Class>
    requires n <= |w.required|
  {
    if n == 0 then []
    else AllOutcomes(w, es, n - 1, waiting) + Outcomes(w, es, w.required[n - 1].context, waiting)
  }

  /** The first class from index `i` on that is not a success; nothing at all proves nothing. */
  function Verdict(cs: seq<Class>, i: nat): Class
    requires i <= |cs|
    decreases |cs| - i
  {
    if cs == [] then Missing else if i == |cs| then Success else if cs[i] != Success then cs[i] else Verdict(cs, i + 1)
  }

  predicate SomeUntrustedOnly(w: World, es: seq<Entry>, waiting: bool) {
    exists k :: 0 <= k < |w.required| && UntrustedOnly(w, es, w.required[k].context, waiting)
  }

  predicate NothingBad(cs: seq<Class>) {
    forall k :: 0 <= k < |cs| ==> cs[k] == Success || cs[k] == Missing
  }

  predicate Running(w: World, runs: seq<Run>, trusted: set<int>) {
    || trusted == {}
    || exists k :: 0 <= k < |runs| && OnHead(w, runs[k]) && runs[k].id in trusted
                   && runs[k].status != None && runs[k].status != Some("completed")
  }

  /** What is left once the jobs are read. */
  function DecideJobs(w: World, pr: Pull, es: seq<Entry>, waiting: bool): Class {
    var cs := AllOutcomes(w, es, |w.required|, waiting);
    if SomeUntrustedOnly(w, es, waiting) && NothingBad(cs) then Unprovable
    else
      match Current(w.again, w.sha, Some(pr.base))
      case Left(why) => why
      case Right(_) => Verdict(cs, 0)
  }

  function DecideRuns(w: World, pr: Pull, runs: seq<Run>): Class {
    match Trusted(w, runs, |runs|)
    case Left(why) => why
    case Right(trusted) =>
      match Entries(w, runs, |runs|, trusted)
      case Left(why) => why
      case Right(es) =>
        if BaseError(w, es, |es|).Some? then BaseError(w, es, |es|).value
        else DecideJobs(w, pr, es, pr.state == "open" && Running(w, runs, trusted))
  }

  /** The class the fallback ends with. */
  function Decide(w: World): Class {
    if !ExactSha(w.sha) then Infra
    else if exists k :: 0 <= k < |w.required| && w.required[k].app != Some(ACTIONS_APP_ID) then Unprovable
    else
      match Current(w.pull, w.sha, None)
      case Left(why) => why
      case Right(pr) =>
        if pr.headRepo != Some(w.repo) then Unprovable
        else
          match Rows(w.runs, RunId())
          case Left(why) => why
          case Right(runs) => DecideRuns(w, pr, runs)
  }

  // ----- what a success means -----

  /** The exact head, pinned requirements, and the repository's own pull request that still stands on the same base. */
  predicate SamePull(w: World) {
    && ExactSha(w.sha) && w.required != []
    && (forall k :: 0 <= k < |w.required| ==> w.required[k].app == Some(ACTIONS_APP_ID))
    && w.pull.Got? && w.again.Got?
    && !ClosedUnmerged(w.pull.value) && !ClosedUnmerged(w.again.value)
    && w.pull.value.head == w.sha == w.again.value.head && w.again.value.base == w.pull.value.base
    && w.pull.value.headRepo == Some(w.repo)
  }

  /** A run of the head that can be evidence, by its id. */
  ghost predicate Evidence(w: World, runs: seq<Run>, r: Run) {
    exists k :: 0 <= k < |runs| && Eligible(w, runs[k]) && runs[k].id == r.id
  }

  function JobsOf(w: World, r: Run): Either<seq<Job>> {
    Rows(w.jobs(r.id), JobId())
  }

  /** `j` is a job of the latest attempt of `r`, a run on the head. */
  ghost predicate Ran(w: World, runs: seq<Run>, r: Run, j: Job) {
    r in runs && OnHead(w, r) && JobsOf(w, r).Right? && j in JobsOf(w, r).value && Latest(r, j)
  }

  ghost predicate IsRequired(w: World, j: Job) {
    exists k :: 0 <= k < |w.required| && j.name == Some(w.required[k].context)
  }

  /** Every read the decision needs came back whole. */
  ghost predicate Complete(w: World, runs: seq<Run>) {
    && Rows(w.runs, RunId()) == Right(runs)
    && (forall r :: r in runs && Eligible(w, r) ==> HasAttempt(r))
    && (forall r :: r in runs && OnHead(w, r) ==> JobsOf(w, r).Right?)
    && (forall r, j :: Ran(w, runs, r, j) && IsRequired(w, j) && Evidence(w, runs, r) ==>
          r.path.Some? && OnBase(w, r.path.value).Right?)
  }

  /** A job that can prove a name: its run is evidence and its workflow is the base branch's. */
  ghost predicate Supplies(w: World, runs: seq<Run>, r: Run, j: Job) {
    Ran(w, runs, r, j) && Evidence(w, runs, r) && r.path.Some? && OnBase(w, r.path.value) == Right(true)
  }

  /** Some job that can prove the name succeeded, and no job of that name on the head did anything else. */
  ghost predicate NameProved(w: World, runs: seq<Run>, context: string) {
    && (exists r, j :: Supplies(w, runs, r, j) && j.name == Some(context))
    && (forall r, j :: Ran(w, runs, r, j) && j.name == Some(context) ==> Classify(w, j) == Success)
  }

  /** What the module promises before it accepts. */
  ghost predicate Proved(w: World, runs: seq<Run>) {
    && SamePull(w) && Complete(w, runs)
    && forall k :: 0 <= k < |w.required| ==> NameProved(w, runs, w.required[k].context)
  }

  // ----- the decision is the promise -----

  lemma {:induction false} TrustedAre(w: World, runs: seq<Run>, n: nat)
    requires n <= |runs|
    ensures Trusted(w, runs, n).Left? ==>
              && Trusted(w, runs, n).why == Infra
              && exists k :: 0 <= k < n && Eligible(w, runs[k]) && !HasAttempt(runs[k])
    ensures Trusted(w, runs, n).Right? ==>
              && (forall k :: 0 <= k < n && Eligible(w, runs[k]) ==> HasAttempt(runs[k]))
              && forall i :: i in Trusted(w, runs, n).value
                  <==> exists k :: 0 <= k < n && Eligible(w, runs[k]) && runs[k].id == i
  {
    if n > 0 {
      TrustedAre(w, runs, n - 1);
    }
  }

  lemma {:induction false} LatestJobsAre(r: Run, jobs: seq<Job>, n: nat, trusted: bool, e: Entry)
    requires n <= |jobs|
    ensures e in LatestJobs(r, jobs, n, trusted)
       <==> e.run == r && e.trusted == trusted && e.job in jobs[..n] && Latest(r, e.job)
  {
    if n > 0 {
      LatestJobsAre(r, jobs, n - 1, trusted, e);
      assert jobs[..n] == jobs[..n - 1] + [jobs[n - 1]];
    }
  }

  lemma {:induction false} EntriesAre(w: World, runs: seq<Run>, n: nat, trusted: set<int>, e: Entry)
    requires n <= |runs|
    ensures Entries(w, runs, n, trusted).Left? ==>
              && Entries(w, runs, n, trusted).why != Success
              && exists k :: 0 <= k < n && OnHead(w, runs[k]) && JobsOf(w, runs[k]).Left?
    ensures Entries(w, runs, n, trusted).Right? ==>
              && (forall k :: 0 <= k < n && OnHead(w, runs[k]) ==> JobsOf(w, runs[k]).Right?)
              && (e in Entries(w, runs, n, trusted).value
                  <==> Ran(w, runs[..n], e.run, e.job) && e.trusted == (e.run.id in trusted))
  {
    if n > 0 {
      EntriesAre(w, runs, n - 1, trusted, e);
      var r := runs[n - 1];
      assert runs[..n] == runs[..n - 1] + [r];
      if OnHead(w, r) && JobsOf(w, r).Right? {
        var jobs := JobsOf(w, r).value;
        LatestJobsAre(r, jobs, |jobs|, r.id in trusted, e);
        assert jobs[..|jobs|] == jobs;
      }
    }
  }

  lemma {:induction false} BaseErrorIs(w: World, es: seq<Entry>, n: nat)
    requires n <= |es|
    ensures BaseError(w, es, n) != Some(Success)
    ensures BaseError(w, es, n).Some? <==>
              exists k :: 0 <= k < n && es[k].trusted && Required(w, es[k])
                          && (es[k].run.path.None? || OnBase(w, es[k].run.path.value).Left?)
  {
    if n > 0 {
      BaseErrorIs(w, es, n - 1);
    }
  }

  lemma {:induction false} ClassesAre(w: World, es: seq<Entry>, n: nat, context: string, counted: bool, c: Class)
    requires n <= |es|
    ensures c in Classes(w, es, n, context, counted) <==>
              exists k ::
                0 <= k < n && Named(es[k], context) && Counted(w, es[k]) == counted && Classify(w, es[k].job) == c
                          && (counted || c != Success)
  {
    if n > 0 {
      ClassesAre(w, es, n - 1, context, counted, c);
    }
  }

  lemma {:induction false} VerdictIs(cs: seq<Class>, i: nat)
    requires i <= |cs|
    ensures Verdict(cs, i) == Success <==> cs != [] && forall k :: i <= k < |cs| ==> cs[k] == Success
    decreases |cs| - i
  {
    if i < |cs| {
      VerdictIs(cs, i + 1);
    }
  }

  lemma YesAndNo(w: World, es: seq<Entry>, context: string)
    ensures var yes, no := Classes(w, es, |es|, context, true), Classes(w, es, |es|, context, false);
            && (forall k :: 0 <= k < |es| && Named(es[k], context) && Counted(w, es[k]) ==>
                  Classify(w, es[k].job) in yes)
            && (forall k :: 0 <= k < |es| && Named(es[k], context) && !Counted(w, es[k]) ==>
                  Classify(w, es[k].job) == Success || Classify(w, es[k].job) in no)
            && (forall k :: 0 <= k < |no| ==> no[k] != Success)
            && (yes != [] ==> exists k :: 0 <= k < |es| && Named(es[k], context) && Counted(w, es[k]))
            && (forall c :: c in yes ==>
                  exists k ::
                    0 <= k < |es| && Named(es[k], context) && Counted(w, es[k]) && Classify(w, es[k].job) == c)
            && (forall c :: c in no ==>
                  exists k :: 0 <= k < |es| && Named(es[k], context) && Classify(w, es[k].job) == c && c != Success)
  {
    var yes, no := Classes(w, es, |es|, context, true), Classes(w, es, |es|, context, false);
    forall k | 0 <= k < |es| && Named(es[k], context) && Counted(w, es[k]) ensures Classify(w, es[k].job) in yes {
      ClassesAre(w, es, |es|, context, true, Classify(w, es[k].job));
    }
    forall k | 0 <= k < |es| && Named(es[k], context) && !Counted(w, es[k]) && Classify(w, es[k].job) != Success
      ensures Classify(w, es[k].job) in no
    {
      ClassesAre(w, es, |es|, context, false, Classify(w, es[k].job));
    }
    forall c | c in yes
      ensures exists k :: 0 <= k < |es| && Named(es[k], context) && Counted(w, es[k]) && Classify(w, es[k].job) == c
    {
      ClassesAre(w, es, |es|, context, true, c);
    }
    forall c | c in no
      ensures exists k :: 0 <= k < |es| && Named(es[k], context) && Classify(w, es[k].job) == c && c != Success
    {
      ClassesAre(w, es, |es|, context, false, c);
    }
    if yes != [] {
      assert yes[0] in yes;
    }
    forall k | 0 <= k < |no| ensures no[k] != Success {
      assert no[k] in no;
    }
  }

  ghost predicate AllSuccess(cs: seq<Class>) {
    forall k :: 0 <= k < |cs| ==> cs[k] == Success
  }

  ghost predicate NameHolds(w: World, es: seq<Entry>, context: string) {
    && (exists k :: 0 <= k < |es| && Named(es[k], context) && Counted(w, es[k]))
    && (forall k :: 0 <= k < |es| && Named(es[k], context) ==> Classify(w, es[k].job) == Success)
  }

  /**
    Every outcome of one name is a success exactly when a counted job is there and no job of that name did anything
    else.
   */
  lemma OutcomesSucceed(w: World, es: seq<Entry>, context: string, waiting: bool)
    ensures Outcomes(w, es, context, waiting) != []
    ensures AllSuccess(Outcomes(w, es, context, waiting)) <==> NameHolds(w, es, context)
  {
    hide Classify;
    hide Counted;
    hide Classes;
    var yes, no := Classes(w, es, |es|, context, true), Classes(w, es, |es|, context, false);
    var cs := Outcomes(w, es, context, waiting);
    YesAndNo(w, es, context);
    if yes + no != [] {
      assert cs == yes + no;
      AppendSuccess(yes, no);
      NoneRefuse(no);
      if AllSuccess(cs) {
        forall k | 0 <= k < |es| && Named(es[k], context) && Counted(w, es[k])
            ensures Classify(w, es[k].job) == Success {
          assert Classify(w, es[k].job) in yes;
        }
      }
      if NameHolds(w, es, context) {
        forall k | 0 <= k < |yes| ensures yes[k] == Success { assert yes[k] in yes; }
        forall k | 0 <= k < |no| ensures no[k] == Success { assert no[k] in no; }
      }
    } else {
      assert cs[0] != Success;
    }
  }

  lemma NoneRefuse(no: seq<Class>)
    ensures AllSuccess(no) && (forall k :: 0 <= k < |no| ==> no[k] != Success) ==> no == []
  {
    assert no == [] || no[0] == Success || no[0] != Success;
  }

  lemma AppendSuccess(a: seq<Class>, b: seq<Class>)
    ensures AllSuccess(a + b) <==> AllSuccess(a) && AllSuccess(b)
  {
    assert forall k :: 0 <= k < |a| ==> (a + b)[k] == a[k];
    forall k | 0 <= k < |b| ensures b[k] == (a + b)[|a| + k] {
    }
  }

  lemma {:induction false} AllSucceed(w: World, es: seq<Entry>, n: nat, waiting: bool)
    requires n <= |w.required|
    ensures AllOutcomes(w, es, n, waiting) != [] <==> n > 0
    ensures AllSuccess(AllOutcomes(w, es, n, waiting))
       <==> forall k :: 0 <= k < n ==> NameHolds(w, es, w.required[k].context)
  {
    hide NameHolds;
    hide Outcomes;
    if n > 0 {
      AllSucceed(w, es, n - 1, waiting);
      OutcomesSucceed(w, es, w.required[n - 1].context, waiting);
      var before, last := AllOutcomes(w, es, n - 1, waiting), Outcomes(w, es, w.required[n - 1].context, waiting);
      assert AllOutcomes(w, es, n, waiting) == before + last;
      hide AllOutcomes;
      hide AllSuccess;
      AppendSuccess(before, last);
    }
  }

  /** What the entries say of one name is what the runs say of it. */
  lemma NameIs(w: World, runs: seq<Run>, es: seq<Entry>, trusted: set<int>, k: nat)
    requires k < |w.required| && Trusted(w, runs, |runs|) == Right(trusted)
             && Entries(w, runs, |runs|, trusted) == Right(es)
    ensures NameHolds(w, es, w.required[k].context) <==> NameProved(w, runs, w.required[k].context)
  {
    hide Ran;
    hide Evidence;
    hide OnBase;
    hide Classify;
    hide Entries;
    hide Trusted;
    var context := w.required[k].context;
    EntriesHold(w, runs, es, trusted);
    if NameHolds(w, es, context) {
      var i :| 0 <= i < |es| && Named(es[i], context) && Counted(w, es[i]);
      assert es[i] in es;
      assert Supplies(w, runs, es[i].run, es[i].job);
      forall r, j | Ran(w, runs, r, j) && j.name == Some(context) ensures Classify(w, j) == Success {
        assert Entry(r, j, r.id in trusted) in es;
      }
    }
    if NameProved(w, runs, context) {
      var r, j :| Supplies(w, runs, r, j) && j.name == Some(context);
      assert Entry(r, j, r.id in trusted) in es;
      forall i | 0 <= i < |es| && Named(es[i], context) ensures Classify(w, es[i].job) == Success {
        assert es[i] in es;
      }
    }
  }

  lemma EntriesHold(w: World, runs: seq<Run>, es: seq<Entry>, trusted: set<int>)
    requires Trusted(w, runs, |runs|) == Right(trusted) && Entries(w, runs, |runs|, trusted) == Right(es)
    ensures forall e :: e in es <==> Ran(w, runs, e.run, e.job) && e.trusted == (e.run.id in trusted)
    ensures forall r: Run :: r.id in trusted <==> Evidence(w, runs, r)
    ensures forall r :: r in runs && OnHead(w, r) ==> JobsOf(w, r).Right?
    ensures forall r :: r in runs && Eligible(w, r) ==> HasAttempt(r)
  {
    assert runs[..|runs|] == runs;
    forall e ensures e in es <==> Ran(w, runs, e.run, e.job) && e.trusted == (e.run.id in trusted) {
      EntriesAre(w, runs, |runs|, trusted, e);
    }
    forall r | r in runs && OnHead(w, r) ensures JobsOf(w, r).Right? {
      var e: Entry := Entry(r, Job(0, None, None, None, None, None), false);
      EntriesAre(w, runs, |runs|, trusted, e);
    }
    TrustedAre(w, runs, |runs|);
  }

  lemma BaseIs(w: World, runs: seq<Run>, es: seq<Entry>, trusted: set<int>)
    requires Trusted(w, runs, |runs|) == Right(trusted) && Entries(w, runs, |runs|, trusted) == Right(es)
    ensures BaseError(w, es, |es|) != Some(Success)
    ensures BaseError(w, es, |es|).None? <==>
              forall r, j :: Ran(w, runs, r, j) && IsRequired(w, j) && Evidence(w, runs, r) ==>
                r.path.Some? && OnBase(w, r.path.value).Right?
  {
    hide Ran;
    hide Evidence;
    hide OnBase;
    hide BaseError;
    hide Entries;
    hide Trusted;
    EntriesHold(w, runs, es, trusted);
    BaseErrorIs(w, es, |es|);
    if BaseError(w, es, |es|).None? {
      forall r, j | Ran(w, runs, r, j) && IsRequired(w, j) && Evidence(w, runs, r)
        ensures r.path.Some? && OnBase(w, r.path.value).Right?
      {
        var e := Entry(r, j, true);
        assert e in es;
        var k :| 0 <= k < |w.required| && j.name == Some(w.required[k].context);
        assert Named(e, w.required[k].context);
      }
    } else {
      var k :| 0 <= k < |es| && es[k].trusted && Required(w, es[k])
               && (es[k].run.path.None? || OnBase(w, es[k].run.path.value).Left?);
      assert es[k] in es;
      var q :| 0 <= q < |w.required| && Named(es[k], w.required[q].context);
      assert IsRequired(w, es[k].job);
    }
  }

  lemma DecideRunsIs(w: World, pr: Pull, runs: seq<Run>)
    ensures DecideRuns(w, pr, runs) == Success <==>
              && w.required != [] && Current(w.again, w.sha, Some(pr.base)).Right?
              && (forall r :: r in runs && Eligible(w, r) ==> HasAttempt(r))
              && (forall r :: r in runs && OnHead(w, r) ==> JobsOf(w, r).Right?)
              && (forall r, j :: Ran(w, runs, r, j) && IsRequired(w, j) && Evidence(w, runs, r) ==>
                    r.path.Some? && OnBase(w, r.path.value).Right?)
              && forall k :: 0 <= k < |w.required| ==> NameProved(w, runs, w.required[k].context)
  {
    hide Ran;
    hide Evidence;
    hide OnBase;
    hide NameHolds;
    hide NameProved;
    hide DecideJobs;
    hide Current;
    hide Running;
    hide BaseError;
    hide Entries;
    hide Trusted;
    TrustedAre(w, runs, |runs|);
    if Trusted(w, runs, |runs|).Left? {
      var k :| 0 <= k < |runs| && Eligible(w, runs[k]) && !HasAttempt(runs[k]);
      assert runs[k] in runs;
    } else {
      var trusted := Trusted(w, runs, |runs|).value;
      var none := Job(0, None, None, None, None, None);
      EntriesAre(w, runs, |runs|, trusted, Entry(Run(0, None, None, None, None, None, None), none, false));
      if Entries(w, runs, |runs|, trusted).Left? {
        var k :| 0 <= k < |runs| && OnHead(w, runs[k]) && JobsOf(w, runs[k]).Left?;
        assert runs[k] in runs;
      } else {
        var es := Entries(w, runs, |runs|, trusted).value;
        EntriesHold(w, runs, es, trusted);
        BaseIs(w, runs, es, trusted);
        DecideJobsIs(w, pr, es, pr.state == "open" && Running(w, runs, trusted));
        forall k | 0 <= k < |w.required|
          ensures NameHolds(w, es, w.required[k].context) <==> NameProved(w, runs, w.required[k].context)
        {
          NameIs(w, runs, es, trusted, k);
        }
      }
    }
  }

  lemma DecideJobsIs(w: World, pr: Pull, es: seq<Entry>, waiting: bool)
    ensures DecideJobs(w, pr, es, waiting) == Success <==>
              && w.required != [] && Current(w.again, w.sha, Some(pr.base)).Right?
              && forall k :: 0 <= k < |w.required| ==> NameHolds(w, es, w.required[k].context)
  {
    hide NameHolds;
    hide UntrustedOnly;
    hide Outcomes;
    var cs := AllOutcomes(w, es, |w.required|, waiting);
    AllSucceed(w, es, |w.required|, waiting);
    VerdictIs(cs, 0);
    assert AllSuccess(cs) <==> forall k :: 0 <= k < |cs| ==> cs[k] == Success;
    if SomeUntrustedOnly(w, es, waiting) {
      var k :| 0 <= k < |w.required| && UntrustedOnly(w, es, w.required[k].context, waiting);
      UntrustedFails(w, es, w.required[k].context, waiting);
    }
  }

  lemma UntrustedFails(w: World, es: seq<Entry>, context: string, waiting: bool)
    requires UntrustedOnly(w, es, context, waiting)
    ensures !NameHolds(w, es, context)
  {
    YesAndNo(w, es, context);
  }

  /** The fallback accepts exactly what it promises, given the pages of runs it read. */
  lemma AcceptsExactlyTheProved(w: World)
    ensures Decide(w) == Success <==> exists runs :: Proved(w, runs)
  {
    hide DecideRuns;
    hide NameProved;
    hide Ran;
    hide ExactSha;
    if Rows(w.runs, RunId()).Right? && Current(w.pull, w.sha, None).Right? {
      DecideRunsIs(w, w.pull.value, Rows(w.runs, RunId()).value);
      if Decide(w) == Success {
        assert Proved(w, Rows(w.runs, RunId()).value);
      }
    }
  }

  // ----- what a refusal means -----

  /** What the job itself says. */
  ghost predicate Says(w: World, j: Job, c: Class) {
    var onHead, done := j.headSha == Some(w.sha), j.status == Some("completed");
    match c
    case Success => onHead && done && j.conclusion == Some("success")
    case Failure => onHead && done && j.conclusion == Some("failure")
    case Infra => onHead && done && j.conclusion != Some("success") && j.conclusion != Some("failure")
    case Pending => onHead && !done
    case Stale => !onHead
    case _ => false
  }

  lemma ClassifyIs(w: World, j: Job, c: Class)
    ensures Classify(w, j) == c <==> Says(w, j, c)
  {
  }

  /** The name has no job that can prove it, and none that did anything but succeed. */
  ghost predicate Silent(w: World, runs: seq<Run>, context: string) {
    forall r, j :: Ran(w, runs, r, j) && j.name == Some(context) ==> Says(w, j, Success) && !Supplies(w, runs, r, j)
  }

  /** The pull request is open, and its trusted runs are not all over, or there is none. */
  ghost predicate Waiting(w: World, runs: seq<Run>) {
    && w.pull.Got? && w.pull.value.state == "open"
    && ((forall r :: r in runs ==> !Eligible(w, r))
        || exists r :: r in runs && OnHead(w, r) && Evidence(w, runs, r)
                       && r.status.Some? && r.status.value != "completed")
  }

  /** Some job of the name ran in a trusted run. */
  ghost predicate RanTrusted(w: World, runs: seq<Run>, context: string) {
    exists r, j :: Ran(w, runs, r, j) && Evidence(w, runs, r) && j.name == Some(context)
  }

  ghost predicate RanAtAll(w: World, runs: seq<Run>, context: string) {
    exists r, j :: Ran(w, runs, r, j) && j.name == Some(context)
  }

  ghost predicate RequiredJobSays(w: World, runs: seq<Run>, c: Class) {
    exists r, j :: Ran(w, runs, r, j) && IsRequired(w, j) && Says(w, j, c)
  }

  /** What the runs that were read give for one class. */
  ghost predicate RunsGive(w: World, runs: seq<Run>, c: Class) {
    || RequiredJobSays(w, runs, c)
    || (&& c == Pending && Waiting(w, runs)
        && exists k :: 0 <= k < |w.required| && Silent(w, runs, w.required[k].context)
                       && !RanTrusted(w, runs, w.required[k].context))
    || (&& c == Missing
        && (w.required == []
            || exists k :: 0 <= k < |w.required| && Silent(w, runs, w.required[k].context)
                           && (Waiting(w, runs) ==> RanTrusted(w, runs, w.required[k].context))))
    || (&& c == Unprovable
        && exists k :: && 0 <= k < |w.required| && Silent(w, runs, w.required[k].context)
                       && RanAtAll(w, runs, w.required[k].context)
                       && (Waiting(w, runs) ==> RanTrusted(w, runs, w.required[k].context)))
  }

  lemma ClassesMean(w: World, es: seq<Entry>, context: string, c: Class)
    ensures var yes, no := Classes(w, es, |es|, context, true), Classes(w, es, |es|, context, false);
            && (c in yes + no ==> exists k :: 0 <= k < |es| && Named(es[k], context) && Classify(w, es[k].job) == c)
            && (yes + no == [] <==>
                  forall k :: 0 <= k < |es| && Named(es[k], context) ==>
                    !Counted(w, es[k]) && Classify(w, es[k].job) == Success)
  {
    hide Classify, Counted, Classes;
    YesAndNo(w, es, context);
    var yes, no := Classes(w, es, |es|, context, true), Classes(w, es, |es|, context, false);
    if no != [] {
      assert no[0] in no;
    }
  }

  /** Where one outcome of a name comes from. */
  lemma OutcomeMeans(w: World, es: seq<Entry>, context: string, waiting: bool, c: Class)
    requires c in Outcomes(w, es, context, waiting)
    ensures || (exists k :: 0 <= k < |es| && Named(es[k], context) && Classify(w, es[k].job) == c)
            || (&& (forall k :: 0 <= k < |es| && Named(es[k], context) ==>
                      !Counted(w, es[k]) && Classify(w, es[k].job) == Success)
                && c == if waiting && !AnyNamed(es, context, true) then Pending else Missing)
  {
    hide Classify, Counted, Classes;
    ClassesMean(w, es, context, c);
  }

  /** The entries and the runs they came from. */
  ghost predicate Collected(w: World, runs: seq<Run>, es: seq<Entry>, trusted: set<int>) {
    Trusted(w, runs, |runs|) == Right(trusted) && Entries(w, runs, |runs|, trusted) == Right(es)
  }

  lemma NamedRan(w: World, runs: seq<Run>, es: seq<Entry>, trusted: set<int>, k: nat)
    requires Collected(w, runs, es, trusted) && k < |es|
    ensures Ran(w, runs, es[k].run, es[k].job) && (es[k].trusted <==> Evidence(w, runs, es[k].run))
    ensures Counted(w, es[k]) <==> Supplies(w, runs, es[k].run, es[k].job)
  {
    hide Ran, Evidence, OnBase, Trusted, Entries, JobsOf, OnHead, Eligible, HasAttempt;
    EntriesHold(w, runs, es, trusted);
    assert es[k] in es;
  }

  lemma RanNamed(w: World, runs: seq<Run>, es: seq<Entry>, trusted: set<int>, r: Run, j: Job) returns (k: nat)
    requires Collected(w, runs, es, trusted) && Ran(w, runs, r, j)
    ensures k < |es| && es[k].run == r && es[k].job == j
  {
    hide Ran, Evidence, OnBase, Trusted, Entries, JobsOf, OnHead, Eligible, HasAttempt;
    EntriesHold(w, runs, es, trusted);
    assert Entry(r, j, r.id in trusted) in es;
    k :| 0 <= k < |es| && es[k] == Entry(r, j, r.id in trusted);
  }

  lemma SilentIs(w: World, runs: seq<Run>, es: seq<Entry>, trusted: set<int>, context: string)
    requires Collected(w, runs, es, trusted)
    ensures Silent(w, runs, context)
       <==> forall k :: 0 <= k < |es| && Named(es[k], context) ==>
              !Counted(w, es[k]) && Classify(w, es[k].job) == Success
    ensures AnyNamed(es, context, true) <==> RanTrusted(w, runs, context)
    ensures AnyNamed(es, context, false) <==> RanAtAll(w, runs, context)
  {
    hide Ran, Evidence, Counted, Supplies, Classify, Says, Collected;
    forall k | 0 <= k < |es|
      ensures Ran(w, runs, es[k].run, es[k].job) && (es[k].trusted <==> Evidence(w, runs, es[k].run))
      ensures Counted(w, es[k]) <==> Supplies(w, runs, es[k].run, es[k].job)
      ensures Classify(w, es[k].job) == Success <==> Says(w, es[k].job, Success)
    {
      NamedRan(w, runs, es, trusted, k);
      ClassifyIs(w, es[k].job, Success);
    }
    forall r, j | Ran(w, runs, r, j) ensures exists k :: 0 <= k < |es| && es[k].run == r && es[k].job == j {
      var k := RanNamed(w, runs, es, trusted, r, j);
    }
  }

  lemma WaitingIs(w: World, runs: seq<Run>, trusted: set<int>)
    requires Trusted(w, runs, |runs|) == Right(trusted) && w.pull.Got?
    ensures w.pull.value.state == "open" && Running(w, runs, trusted) <==> Waiting(w, runs)
  {
    hide Eligible, Trusted, OnHead, HasAttempt, Evidence;
    TrustedByIds(w, runs, trusted);
    NotOver(w, runs, trusted);
  }

  /** Some run of the head with a trusted id has not completed. */
  ghost predicate Unfinished(w: World, runs: seq<Run>, trusted: set<int>) {
    exists r :: r in runs && OnHead(w, r) && r.id in trusted && r.status.Some? && r.status.value != "completed"
  }

  lemma NotOver(w: World, runs: seq<Run>, trusted: set<int>)
    ensures Running(w, runs, trusted) <==> trusted == {} || Unfinished(w, runs, trusted)
  {
    hide OnHead;
    if Unfinished(w, runs, trusted) {
      var r :| r in runs && OnHead(w, r) && r.id in trusted && r.status.Some? && r.status.value != "completed";
      var k :| 0 <= k < |runs| && runs[k] == r;
      assert OnHead(w, runs[k]);
    }
    if k :| 0 <= k < |runs| && OnHead(w, runs[k]) && runs[k].id in trusted
            && runs[k].status != None && runs[k].status != Some("completed")
    {
      assert runs[k] in runs;
    }
  }

  lemma TrustedByIds(w: World, runs: seq<Run>, trusted: set<int>)
    requires Trusted(w, runs, |runs|) == Right(trusted)
    ensures forall r: Run :: r.id in trusted <==> Evidence(w, runs, r)
    ensures trusted == {} <==> forall r :: r in runs ==> !Eligible(w, r)
  {
    hide Eligible, OnHead, HasAttempt;
    TrustedAre(w, runs, |runs|);
    assert forall i :: i in trusted <==> exists k :: 0 <= k < |runs| && Eligible(w, runs[k]) && runs[k].id == i;
    forall r | r in runs && Eligible(w, r) ensures r.id in trusted {
      var k :| 0 <= k < |runs| && runs[k] == r;
      assert Eligible(w, runs[k]);
    }
    if trusted != {} {
      var i :| i in trusted;
      var k :| 0 <= k < |runs| && Eligible(w, runs[k]) && runs[k].id == i;
      assert runs[k] in runs;
    }
  }

  /** The verdict is the first class that is not a success. */
  lemma {:induction false} VerdictFirst(cs: seq<Class>, i: nat, c: Class)
    requires i <= |cs| && cs != [] && c != Success
    ensures Verdict(cs, i) == c
       <==> exists k :: i <= k < |cs| && cs[k] == c && forall before :: i <= before < k ==> cs[before] == Success
    decreases |cs| - i
  {
    if i < |cs| {
      VerdictFirst(cs, i + 1, c);
      if cs[i] == Success && Verdict(cs, i) == c {
        var k :| i + 1 <= k < |cs| && cs[k] == c && forall before :: i + 1 <= before < k ==> cs[before] == Success;
        assert forall before :: i <= before < k ==> cs[before] == Success;
      }
    }
  }

  lemma {:induction false} InAll(w: World, es: seq<Entry>, n: nat, waiting: bool, c: Class)
    requires n <= |w.required|
    ensures c in AllOutcomes(w, es, n, waiting)
       <==> exists k :: 0 <= k < n && c in Outcomes(w, es, w.required[k].context, waiting)
  {
    hide Outcomes;
    if n > 0 {
      InAll(w, es, n - 1, waiting, c);
    }
  }

  /** One outcome of a required name has its ground in the runs. */
  lemma OutcomeGiven(w: World, runs: seq<Run>, es: seq<Entry>, trusted: set<int>, k: nat, c: Class)
    requires Collected(w, runs, es, trusted) && k < |w.required| && w.pull.Got?
    requires c in Outcomes(w, es, w.required[k].context, w.pull.value.state == "open" && Running(w, runs, trusted))
    ensures RunsGive(w, runs, c)
  {
    var context, waiting := w.required[k].context, w.pull.value.state == "open" && Running(w, runs, trusted);
    WaitingIs(w, runs, trusted);
    SilentIs(w, runs, es, trusted, context);
    OutcomeMeans(w, es, context, waiting, c);
    hide Ran, Silent, Waiting, RanTrusted, Says, Running, Classify, Counted, Collected, AnyNamed, Outcomes;
    if exists i :: 0 <= i < |es| && Named(es[i], context) && Classify(w, es[i].job) == c {
      var i :| 0 <= i < |es| && Named(es[i], context) && Classify(w, es[i].job) == c;
      NamedRan(w, runs, es, trusted, i);
      ClassifyIs(w, es[i].job, c);
      assert IsRequired(w, es[i].job);
      assert RequiredJobSays(w, runs, c);
    }
  }

  lemma JobsGive(w: World, runs: seq<Run>, es: seq<Entry>, trusted: set<int>, c: Class)
    requires Collected(w, runs, es, trusted) && w.pull.Got? && c != Success
    requires DecideJobs(w, w.pull.value, es, w.pull.value.state == "open" && Running(w, runs, trusted)) == c
    ensures RunsGive(w, runs, c) || Current(w.again, w.sha, Some(w.pull.value.base)) == Left(c)
  {
    var waiting := w.pull.value.state == "open" && Running(w, runs, trusted);
    var cs := AllOutcomes(w, es, |w.required|, waiting);
    AllSucceed(w, es, |w.required|, waiting);
    hide Running, Collected, Outcomes, Current, AllOutcomes, NothingBad, AllSuccess, NameHolds;
    if SomeUntrustedOnly(w, es, waiting) && c == Unprovable {
      var k :| 0 <= k < |w.required| && UntrustedOnly(w, es, w.required[k].context, waiting);
      UntrustedGives(w, runs, es, trusted, k);
    } else if cs != [] && Verdict(cs, 0) == c {
      VerdictFirst(cs, 0, c);
      InAll(w, es, |w.required|, waiting, c);
      var k :| 0 <= k < |w.required| && c in Outcomes(w, es, w.required[k].context, waiting);
      OutcomeGiven(w, runs, es, trusted, k, c);
    }
  }

  lemma UntrustedGives(w: World, runs: seq<Run>, es: seq<Entry>, trusted: set<int>, k: nat)
    requires Collected(w, runs, es, trusted) && w.pull.Got? && k < |w.required|
    requires UntrustedOnly(w, es, w.required[k].context, w.pull.value.state == "open" && Running(w, runs, trusted))
    ensures RunsGive(w, runs, Unprovable)
  {
    var context := w.required[k].context;
    WaitingIs(w, runs, trusted);
    SilentIs(w, runs, es, trusted, context);
    ClassesMean(w, es, context, Unprovable);
    hide Ran, Silent, Waiting, RanTrusted, RanAtAll, Running, Classify, Counted, Collected, AnyNamed, Classes;
    hide RequiredJobSays;
  }

  /** Why a list of rows is not whole. */
  ghost predicate Broken<R>(r: Read<seq<Page<R>>>, id: R -> int, c: Class) {
    match r
    case Refused(_) => c == Auth
    case Unanswered => c == Infra
    case Got(pages) =>
      && c == Infra
      && (pages == [] || pages[0].total.None?
          || |set p, r | p in pages && r in p.rows :: id(r)| != pages[0].total.value)
  }

  /** The ids that came are those of the rows of all pages. */
  lemma {:induction false} IdsCome<R>(pages: seq<Page<R>>, n: nat, id: R -> int, i: int)
    requires n <= |pages|
    ensures i in Ids(Flat(pages, n), id) <==> exists p, r :: p in pages[..n] && r in p.rows && id(r) == i
  {
    if n > 0 {
      IdsCome(pages, n - 1, id, i);
      var before, last := Flat(pages, n - 1), pages[n - 1].rows;
      assert pages[..n] == pages[..n - 1] + [pages[n - 1]];
      IdsJoin(before, last, id, i);
    }
  }

  lemma IdsJoin<R>(a: seq<R>, b: seq<R>, id: R -> int, i: int)
    ensures i in Ids(a + b, id) <==> i in Ids(a, id) || exists r :: r in b && id(r) == i
  {
    if i in Ids(a, id) {
      var k :| 0 <= k < |a| && id(a[k]) == i;
      assert (a + b)[k] == a[k];
    }
    if r :| r in b && id(r) == i {
      var k :| 0 <= k < |b| && b[k] == r;
      assert (a + b)[|a| + k] == r;
    }
  }

  lemma BrokenIs<R>(r: Read<seq<Page<R>>>, id: R -> int, c: Class)
    ensures Rows(r, id) == Left(c) <==> Broken(r, id, c)
  {
    if r.Got? {
      var pages := r.value;
      forall i ensures i in Ids(Flat(pages, |pages|), id) <==> exists p, q :: p in pages && q in p.rows && id(q) == i {
        IdsCome(pages, |pages|, id, i);
        assert pages[..|pages|] == pages;
      }
      assert Ids(Flat(pages, |pages|), id) == set p, q | p in pages && q in p.rows :: id(q);
    }
  }

  lemma CurrentMeans(r: Read<Pull>, sha: string, branch: Option<string>, c: Class)
    ensures Current(r, sha, branch) == Left(c)
       <==> match c
            case Auth => r.Refused?
            case Infra => r.Unanswered?
            case Closed => r.Got? && r.value.state == "closed" && !r.value.merged
            case Pending => && r.Got? && !(r.value.state == "closed" && !r.value.merged)
                            && (r.value.head != sha || (branch.Some? && r.value.base != branch.value))
            case _ => false
  {
  }

  /** A read of the runs' jobs or of a workflow that did not come back whole. */
  ghost predicate ReadFails(w: World, runs: seq<Run>, c: Class) {
    || (exists r :: r in runs && OnHead(w, r) && Broken(w.jobs(r.id), JobId(), c))
    || (c == Infra && exists r :: r in runs && Eligible(w, r) && !HasAttempt(r))
    || exists r, j ::
         && Ran(w, runs, r, j) && IsRequired(w, j) && Evidence(w, runs, r)
         && match c
            case Auth => r.path.Some? && w.file(r.path.value).Refused? && w.file(r.path.value).status != 404
            case Infra => r.path.None? || w.file(r.path.value).Unanswered?
            case _ => false
  }

  lemma {:induction false} EntriesLeft(w: World, runs: seq<Run>, n: nat, trusted: set<int>)
    requires n <= |runs| && Entries(w, runs, n, trusted).Left?
    ensures exists r :: r in runs && OnHead(w, r) && Broken(w.jobs(r.id), JobId(), Entries(w, runs, n, trusted).why)
  {
    if Entries(w, runs, n - 1, trusted).Left? {
      EntriesLeft(w, runs, n - 1, trusted);
    } else {
      BrokenIs(w.jobs(runs[n - 1].id), JobId(), Entries(w, runs, n, trusted).why);
      assert runs[n - 1] in runs;
    }
  }

  lemma {:induction false} BaseLeft(w: World, es: seq<Entry>, n: nat)
    requires n <= |es| && BaseError(w, es, n).Some?
    ensures exists k :: && 0 <= k < n && es[k].trusted && Required(w, es[k])
                        && if es[k].run.path.None? then BaseError(w, es, n) == Some(Infra)
                           else OnBase(w, es[k].run.path.value) == Left(BaseError(w, es, n).value)
  {
    hide OnBase, Required;
    if BaseError(w, es, n - 1).Some? {
      BaseLeft(w, es, n - 1);
    }
  }

  lemma RunsRefuse(w: World, runs: seq<Run>, c: Class)
    requires w.pull.Got? && DecideRuns(w, w.pull.value, runs) == c && c != Success
    ensures || ReadFails(w, runs, c) || RunsGive(w, runs, c)
            || Current(w.again, w.sha, Some(w.pull.value.base)) == Left(c)
  {
    hide Ran, Evidence, DecideJobs, Current, Running, JobsOf, Broken, RunsGive;
    if Trusted(w, runs, |runs|).Left? {
      TrustedAre(w, runs, |runs|);
      var k :| 0 <= k < |runs| && Eligible(w, runs[k]) && !HasAttempt(runs[k]);
      assert runs[k] in runs;
    } else {
      var trusted := Trusted(w, runs, |runs|).value;
      if Entries(w, runs, |runs|, trusted).Left? {
        EntriesLeft(w, runs, |runs|, trusted);
      } else {
        var es := Entries(w, runs, |runs|, trusted).value;
        if BaseError(w, es, |es|).Some? {
          BaseRefuses(w, runs, es, trusted, c);
        } else {
          JobsGive(w, runs, es, trusted, c);
        }
      }
    }
  }

  lemma BaseRefuses(w: World, runs: seq<Run>, es: seq<Entry>, trusted: set<int>, c: Class)
    requires Collected(w, runs, es, trusted) && BaseError(w, es, |es|) == Some(c)
    ensures ReadFails(w, runs, c)
  {
    hide Ran, Evidence, JobsOf, Broken, Trusted, Entries, Collected, BaseError, Counted;
    BaseLeft(w, es, |es|);
    var k :| && 0 <= k < |es| && es[k].trusted && Required(w, es[k])
             && if es[k].run.path.None? then BaseError(w, es, |es|) == Some(Infra)
                else OnBase(w, es[k].run.path.value) == Left(BaseError(w, es, |es|).value);
    NamedRan(w, runs, es, trusted, k);
    assert IsRequired(w, es[k].job);
  }

  /** The pull request, read first or again, is no longer what it was. */
  ghost predicate PullGives(w: World, c: Class) {
    || Current(w.pull, w.sha, None) == Left(c)
    || (w.pull.Got? && Current(w.again, w.sha, Some(w.pull.value.base)) == Left(c))
  }

  /** Every refusal has its ground in what was read. */
  lemma RefusalHasGround(w: World, c: Class)
    requires Decide(w) == c && c != Success
    ensures || (c == Infra && !ExactSha(w.sha))
            || (c == Unprovable && exists k :: 0 <= k < |w.required| && w.required[k].app != Some(15368))
            || PullGives(w, c)
            || (c == Unprovable && w.pull.Got? && w.pull.value.headRepo != Some(w.repo))
            || Broken(w.runs, RunId(), c)
            || exists runs :: Rows(w.runs, RunId()) == Right(runs) && (ReadFails(w, runs, c) || RunsGive(w, runs, c))
  {
    hide DecideRuns, Rows, Broken, ReadFails, RunsGive, ExactSha;
    var pr := Current(w.pull, w.sha, None);
    if pr.Right? {
      assert w.pull == Got(pr.value);
      hide Current;
      var rows := Rows(w.runs, RunId());
      if rows.Left? {
        BrokenIs(w.runs, RunId(), c);
      } else if Decide(w) == DecideRuns(w, pr.value, rows.value) {
        RunsRefuse(w, rows.value, c);
      }
    }
  }

  /** The base branch has the workflow, or not, or does not say; an answer "not found" is a no. */
  lemma OnBaseIs(w: World, path: string)
    ensures OnBase(w, path) == Right(true) <==> w.file(path) == Got(true)
    ensures OnBase(w, path) == Right(false) <==> w.file(path) == Got(false) || w.file(path) == Refused(404)
  {
  }

  /** Every outcome of the name is a success, or there is none and none to wait for. */
  ghost predicate NotBad(w: World, es: seq<Entry>, context: string, waiting: bool) {
    && (forall k :: 0 <= k < |es| && Named(es[k], context) ==> Says(w, es[k].job, Success))
    && (waiting ==> exists k :: 0 <= k < |es| && Named(es[k], context) && es[k].trusted)
  }

  /**
    The answer is that the checks cannot be proved exactly when some name ran, never where it could be proved, and no
    job of a required name did anything but succeed, nor is any awaited.
   */
  lemma UnprovableExactly(w: World, pr: Pull, es: seq<Entry>, waiting: bool)
    ensures DecideJobs(w, pr, es, waiting) == Unprovable
       <==> && (forall k :: 0 <= k < |w.required| ==> NotBad(w, es, w.required[k].context, waiting))
            && exists k :: && 0 <= k < |w.required| && AnyNamed(es, w.required[k].context, false)
                           && NoneCounted(w, es, w.required[k].context)
  {
    var cs := AllOutcomes(w, es, |w.required|, waiting);
    hide Outcomes, AllOutcomes, NotBad, UntrustedOnly, AnyNamed, NoneCounted;
    NeverUnprovable(w, es, waiting);
    forall k | 0 <= k < |w.required|
      ensures NotBad(w, es, w.required[k].context, waiting)
         <==> forall c :: c in Outcomes(w, es, w.required[k].context, waiting) ==> c == Success || c == Missing
      ensures NotBad(w, es, w.required[k].context, waiting) ==>
                (UntrustedOnly(w, es, w.required[k].context, waiting)
                 <==> AnyNamed(es, w.required[k].context, false) && NoneCounted(w, es, w.required[k].context))
    {
      NotBadIs(w, es, w.required[k].context, waiting);
    }
    BadIs(w, es, waiting);
  }

  ghost predicate NoneCounted(w: World, es: seq<Entry>, context: string) {
    forall k :: 0 <= k < |es| && Named(es[k], context) ==> !Counted(w, es[k])
  }

  lemma BadIs(w: World, es: seq<Entry>, waiting: bool)
    ensures NothingBad(AllOutcomes(w, es, |w.required|, waiting))
       <==> forall k, c :: 0 <= k < |w.required| && c in Outcomes(w, es, w.required[k].context, waiting) ==>
              c == Success || c == Missing
  {
    hide Outcomes, AllOutcomes;
    var cs := AllOutcomes(w, es, |w.required|, waiting);
    forall c
      ensures c in cs <==> exists k :: 0 <= k < |w.required| && c in Outcomes(w, es, w.required[k].context, waiting)
    {
      InAll(w, es, |w.required|, waiting, c);
    }
    if NothingBad(cs) {
      forall k, c | 0 <= k < |w.required| && c in Outcomes(w, es, w.required[k].context, waiting)
        ensures c == Success || c == Missing
      {
        assert c in cs;
      }
    } else {
      var k :| 0 <= k < |cs| && !(cs[k] == Success || cs[k] == Missing);
      assert cs[k] in cs;
    }
  }

  lemma NotBadIs(w: World, es: seq<Entry>, context: string, waiting: bool)
    ensures NotBad(w, es, context, waiting)
       <==> forall c :: c in Outcomes(w, es, context, waiting) ==> c == Success || c == Missing
    ensures NotBad(w, es, context, waiting) ==>
              (UntrustedOnly(w, es, context, waiting) <==> AnyNamed(es, context, false) && NoneCounted(w, es, context))
  {
    hide Classes, Classify, Says, Outcomes, UntrustedOnly;
    forall k | 0 <= k < |es|
      ensures Classify(w, es[k].job) == Success <==> Says(w, es[k].job, Success)
      ensures Classify(w, es[k].job) != Missing
    {
      ClassifyIs(w, es[k].job, Success);
      ClassifyIs(w, es[k].job, Missing);
      NobodySays(w, es[k].job);
    }
    if NotBad(w, es, context, waiting) {
      GoodOutcomes(w, es, context, waiting);
    }
    if forall c :: c in Outcomes(w, es, context, waiting) ==> c == Success || c == Missing {
      OnlyGood(w, es, context, waiting);
    }
  }

  lemma GoodOutcomes(w: World, es: seq<Entry>, context: string, waiting: bool)
    requires forall k :: 0 <= k < |es| && Named(es[k], context) ==> Classify(w, es[k].job) == Success
    requires waiting ==> exists k :: 0 <= k < |es| && Named(es[k], context) && es[k].trusted
    ensures forall c :: c in Outcomes(w, es, context, waiting) ==> c == Success || c == Missing
    ensures UntrustedOnly(w, es, context, waiting) <==> AnyNamed(es, context, false) && NoneCounted(w, es, context)
  {
    hide Classes, Classify, Counted;
    forall c | c in Outcomes(w, es, context, waiting) ensures c == Success || c == Missing {
      OutcomeMeans(w, es, context, waiting, c);
    }
    ClassesMean(w, es, context, Success);
  }

  lemma OnlyGood(w: World, es: seq<Entry>, context: string, waiting: bool)
    requires forall c :: c in Outcomes(w, es, context, waiting) ==> c == Success || c == Missing
    requires forall k :: 0 <= k < |es| ==> Classify(w, es[k].job) != Missing
    ensures forall k :: 0 <= k < |es| && Named(es[k], context) ==> Classify(w, es[k].job) == Success
    ensures waiting ==> exists k :: 0 <= k < |es| && Named(es[k], context) && es[k].trusted
  {
    hide Classes, Classify;
    YesAndNo(w, es, context);
    ClassesMean(w, es, context, Success);
    var yes, no := Classes(w, es, |es|, context, true), Classes(w, es, |es|, context, false);
    var cs := Outcomes(w, es, context, waiting);
    if yes + no != [] {
      assert cs == yes + no;
      assert forall c :: c in cs <==> c in yes || c in no;
    } else {
      assert cs[0] in cs;
    }
  }

  lemma NobodySays(w: World, j: Job)
    ensures !Says(w, j, Missing) && !Says(w, j, Unprovable)
  {
  }

  /** A job never says that it cannot be proved. */
  lemma NeverUnprovable(w: World, es: seq<Entry>, waiting: bool)
    ensures Verdict(AllOutcomes(w, es, |w.required|, waiting), 0) != Unprovable
  {
    hide Outcomes, AllOutcomes, Says, Classify, Counted;
    var cs := AllOutcomes(w, es, |w.required|, waiting);
    if cs != [] && Verdict(cs, 0) == Unprovable {
      VerdictFirst(cs, 0, Unprovable);
      InAll(w, es, |w.required|, waiting, Unprovable);
      var k :| 0 <= k < |w.required| && Unprovable in Outcomes(w, es, w.required[k].context, waiting);
      OutcomeMeans(w, es, w.required[k].context, waiting, Unprovable);
      var i :| 0 <= i < |es| && Named(es[i], w.required[k].context) && Classify(w, es[i].job) == Unprovable;
      ClassifyIs(w, es[i].job, Unprovable);
      NobodySays(w, es[i].job);
    }
  }

  /** Outcomes that are successes or one class, and that class at least once. */
  lemma {:induction false} OnlyOther(cs: seq<Class>, i: nat, c: Class)
    requires i <= |cs| && c != Success && c in cs[i..] && forall k :: i <= k < |cs| ==> cs[k] == Success || cs[k] == c
    ensures Verdict(cs, i) == c
    decreases |cs| - i
  {
    assert cs[i..] == [cs[i]] + cs[i + 1..];
    if cs[i] == Success {
      OnlyOther(cs, i + 1, c);
    }
  }

  /**
    When everything was read whole, each required name has a job that could prove it or one that refuses, and all that
    refuse say the same, this is the answer.
   */
  lemma RefusesAsItsJobs(w: World, runs: seq<Run>, c: Class)
    requires SamePull(w) && Complete(w, runs) && c != Success && RequiredJobSays(w, runs, c)
    requires forall k :: 0 <= k < |w.required| ==> !Silent(w, runs, w.required[k].context)
    requires forall r, j :: Ran(w, runs, r, j) && IsRequired(w, j) ==> Says(w, j, Success) || Says(w, j, c)
    ensures Decide(w) == c
  {
    ReadWhole(w, runs);
    var trusted := Trusted(w, runs, |runs|).value;
    var es := Entries(w, runs, |runs|, trusted).value;
    JobsRefuse(w, runs, es, trusted, w.pull.value.state == "open" && Running(w, runs, trusted), c);
    hide DecideJobs, Running, Says, Silent, Ran, Rows, ExactSha, BaseError, Trusted, Entries, RequiredJobSays, Complete;
  }

  lemma ReadWhole(w: World, runs: seq<Run>)
    requires Complete(w, runs)
    ensures Trusted(w, runs, |runs|).Right? && Entries(w, runs, |runs|, Trusted(w, runs, |runs|).value).Right?
    ensures var es := Entries(w, runs, |runs|, Trusted(w, runs, |runs|).value).value; BaseError(w, es, |es|).None?
  {
    hide Ran, Evidence, OnBase, BaseError, JobsOf, HasAttempt, Eligible, OnHead;
    TrustedAre(w, runs, |runs|);
    assert Trusted(w, runs, |runs|).Right?;
    var trusted := Trusted(w, runs, |runs|).value;
    var none := Job(0, None, None, None, None, None);
    EntriesAre(w, runs, |runs|, trusted, Entry(Run(0, None, None, None, None, None, None), none, false));
    assert Entries(w, runs, |runs|, trusted).Right?;
    BaseIs(w, runs, Entries(w, runs, |runs|, trusted).value, trusted);
  }

  lemma JobsRefuse(w: World, runs: seq<Run>, es: seq<Entry>, trusted: set<int>, waiting: bool, c: Class)
    requires Collected(w, runs, es, trusted) && SamePull(w) && c != Success && RequiredJobSays(w, runs, c)
    requires forall k :: 0 <= k < |w.required| ==> !Silent(w, runs, w.required[k].context)
    requires forall r, j :: Ran(w, runs, r, j) && IsRequired(w, j) ==> Says(w, j, Success) || Says(w, j, c)
    ensures DecideJobs(w, w.pull.value, es, waiting) == c
  {
    var cs := AllOutcomes(w, es, |w.required|, waiting);
    hide Running, Collected, Outcomes, AllOutcomes, NothingBad, Says, Silent, Ran, UntrustedOnly, Verdict, ExactSha;
    hide RequiredJobSays;
    forall k | 0 <= k < |w.required|
      ensures !UntrustedOnly(w, es, w.required[k].context, waiting)
      ensures forall x :: x in Outcomes(w, es, w.required[k].context, waiting) ==> x == Success || x == c
    {
      NameRefuses(w, runs, es, trusted, waiting, c, k);
    }
    forall x | x in cs ensures x == Success || x == c {
      InAll(w, es, |w.required|, waiting, x);
    }
    forall k | 0 <= k < |cs| ensures cs[k] == Success || cs[k] == c {
      assert cs[k] in cs;
    }
    SaidInOutcomes(w, runs, es, trusted, waiting, c);
    assert cs[0..] == cs;
    OnlyOther(cs, 0, c);
  }

  lemma SaidInOutcomes(w: World, runs: seq<Run>, es: seq<Entry>, trusted: set<int>, waiting: bool, c: Class)
    requires Collected(w, runs, es, trusted) && c != Success && RequiredJobSays(w, runs, c)
    ensures c in AllOutcomes(w, es, |w.required|, waiting)
  {
    hide Collected, AllOutcomes, Ran, Says, Classify, Counted, Classes;
    var r, j :| Ran(w, runs, r, j) && IsRequired(w, j) && Says(w, j, c);
    var i := RanNamed(w, runs, es, trusted, r, j);
    var k :| 0 <= k < |w.required| && j.name == Some(w.required[k].context);
    ClassifyIs(w, j, c);
    YesAndNo(w, es, w.required[k].context);
    assert Named(es[i], w.required[k].context);
    assert c in Outcomes(w, es, w.required[k].context, waiting);
    hide Outcomes;
    InAll(w, es, |w.required|, waiting, c);
  }

  lemma NameRefuses(
      w: World, runs: seq<Run>, es: seq<Entry>, trusted: set<int>, waiting: bool, c: Class, k: nat)
    requires Collected(w, runs, es, trusted) && k < |w.required| && !Silent(w, runs, w.required[k].context)
    requires forall r, j :: Ran(w, runs, r, j) && IsRequired(w, j) ==> Says(w, j, Success) || Says(w, j, c)
    ensures !UntrustedOnly(w, es, w.required[k].context, waiting)
    ensures forall x :: x in Outcomes(w, es, w.required[k].context, waiting) ==> x == Success || x == c
  {
    hide Collected, Ran, Says, Silent, Classify, Counted, Classes, AnyNamed;
    var context := w.required[k].context;
    SilentIs(w, runs, es, trusted, context);
    forall x | x in Outcomes(w, es, context, waiting) ensures x == Success || x == c {
      OutcomeMeans(w, es, context, waiting, x);
      var i :| 0 <= i < |es| && Named(es[i], context) && Classify(w, es[i].job) == x;
      NamedRan(w, runs, es, trusted, i);
      assert IsRequired(w, es[i].job);
      ClassifyIs(w, es[i].job, Success);
      ClassifyIs(w, es[i].job, c);
    }
    ClassesMean(w, es, context, c);
  }

  // ----- more jobs never help -----

  /** `v` is `w` with one more job in the replies for runs with that id, which still come back whole. */
  ghost predicate OneMoreJob(w: World, v: World, id: int, j: Job) {
    && v == w.(jobs := v.jobs)
    && (forall i :: i != id ==> v.jobs(i) == w.jobs(i))
    && Rows(w.jobs(id), JobId()).Right? && Rows(v.jobs(id), JobId()).Right?
    && forall x :: x in Rows(v.jobs(id), JobId()).value <==> x == j || x in Rows(w.jobs(id), JobId()).value
  }

  lemma MoreRan(w: World, v: World, id: int, j: Job, runs: seq<Run>, r: Run, x: Job)
    requires OneMoreJob(w, v, id, j)
    ensures Ran(w, runs, r, x) ==> Ran(v, runs, r, x)
    ensures Ran(v, runs, r, x) ==> Ran(w, runs, r, x) || x == j
    ensures Evidence(w, runs, r) <==> Evidence(v, runs, r)
    ensures Classify(v, x) == Classify(w, x)
    ensures OnHead(w, r) ==> (JobsOf(v, r).Right? <==> JobsOf(w, r).Right?)
  {
  }

  /** A job that is not a success never turns a refusal into an acceptance. */
  lemma MoreJobsNeverHelp(w: World, v: World, id: int, j: Job)
    requires OneMoreJob(w, v, id, j) && Classify(w, j) != Success
    ensures Decide(v) == Success ==> Decide(w) == Success
  {
    hide Decide;
    AcceptsExactlyTheProved(w);
    AcceptsExactlyTheProved(v);
    if Decide(v) == Success {
      var runs :| Proved(v, runs);
      StillProved(w, v, id, j, runs);
    }
  }

  lemma StillProved(w: World, v: World, id: int, j: Job, runs: seq<Run>)
    requires OneMoreJob(w, v, id, j) && Classify(w, j) != Success && Proved(v, runs)
    ensures Proved(w, runs)
  {
    hide Ran;
    hide Classify;
    hide Rows;
    hide NameProved;
    hide Evidence;
    forall k | 0 <= k < |w.required| ensures NameProved(w, runs, w.required[k].context) {
      assert NameProved(v, runs, v.required[k].context);
      NameStillProved(w, v, id, j, runs, w.required[k].context);
    }
    forall r | r in runs && OnHead(w, r) ensures JobsOf(w, r).Right? {
      MoreRan(w, v, id, j, runs, r, j);
    }
    forall r, y | Ran(w, runs, r, y) && IsRequired(w, y) && Evidence(w, runs, r)
      ensures r.path.Some? && OnBase(w, r.path.value).Right?
    {
      MoreRan(w, v, id, j, runs, r, y);
    }
  }

  lemma NameStillProved(w: World, v: World, id: int, j: Job, runs: seq<Run>, context: string)
    requires OneMoreJob(w, v, id, j) && Classify(w, j) != Success && NameProved(v, runs, context)
    ensures NameProved(w, runs, context)
  {
    hide Ran;
    hide Classify;
    hide Rows;
    hide Evidence;
    var r, x :| Supplies(v, runs, r, x) && x.name == Some(context);
    MoreRan(w, v, id, j, runs, r, x);
    assert Classify(v, x) == Success;
    assert Supplies(w, runs, r, x);
    forall q, y | Ran(w, runs, q, y) && y.name == Some(context) ensures Classify(w, y) == Success {
      MoreRan(w, v, id, j, runs, q, y);
    }
  }

  // ----- the decision as the module runs it -----

  /** The ids of the trusted runs, or the error of the first that names no attempt. */
  method CollectTrusted(w: World, runs: seq<Run>) returns (r: Either<set<int>>)
    ensures r == Trusted(w, runs, |runs|)
  {
    var ids: set<int> := {};
    var n := 0;
    while n < |runs|
      invariant n <= |runs| && Trusted(w, runs, n) == Right(ids)
    {
      if Eligible(w, runs[n]) {
        if !HasAttempt(runs[n]) {
          TrustedFails(w, runs, n + 1, |runs|);
          return Left(Infra);
        }
        ids := ids + {runs[n].id};
      }
      n := n + 1;
    }
    return Right(ids);
  }

  lemma {:induction false} TrustedFails(w: World, runs: seq<Run>, n: nat, m: nat)
    requires n <= m <= |runs| && Trusted(w, runs, n).Left?
    ensures Trusted(w, runs, m) == Trusted(w, runs, n)
    decreases m
  {
    if n < m {
      TrustedFails(w, runs, n, m - 1);
    }
  }

  /** Every latest job of every run on the head. */
  method CollectJobs(w: World, runs: seq<Run>, trusted: set<int>) returns (r: Either<seq<Entry>>)
    ensures r == Entries(w, runs, |runs|, trusted)
  {
    var found: seq<Entry> := [];
    var n := 0;
    while n < |runs|
      invariant n <= |runs| && Entries(w, runs, n, trusted) == Right(found)
    {
      var run := runs[n];
      if OnHead(w, run) {
        var jobs := Rows(w.jobs(run.id), JobId());
        if jobs.Left? {
          EntriesFail(w, runs, n + 1, |runs|, trusted);
          return Left(jobs.why);
        }
        ghost var before := found;
        var k := 0;
        while k < |jobs.value|
          invariant k <= |jobs.value| && found == before + LatestJobs(run, jobs.value, k, run.id in trusted)
        {
          if Latest(run, jobs.value[k]) {
            found := found + [Entry(run, jobs.value[k], run.id in trusted)];
          }
          k := k + 1;
        }
      }
      n := n + 1;
    }
    return Right(found);
  }

  lemma {:induction false} EntriesFail(w: World, runs: seq<Run>, n: nat, m: nat, trusted: set<int>)
    requires n <= m <= |runs| && Entries(w, runs, n, trusted).Left?
    ensures Entries(w, runs, m, trusted) == Entries(w, runs, n, trusted)
    decreases m
  {
    if n < m {
      EntriesFail(w, runs, n, m - 1, trusted);
    }
  }

  /** The outcomes of every required name, in order. */
  method CollectOutcomes(w: World, es: seq<Entry>, waiting: bool) returns (outcomes: seq<Class>, untrustedOnly: bool)
    ensures outcomes == AllOutcomes(w, es, |w.required|, waiting) && untrustedOnly == SomeUntrustedOnly(w, es, waiting)
  {
    hide Outcomes;
    hide UntrustedOnly;
    outcomes, untrustedOnly := [], false;
    var n := 0;
    while n < |w.required|
      invariant n <= |w.required| && outcomes == AllOutcomes(w, es, n, waiting)
      invariant untrustedOnly <==> exists k :: 0 <= k < n && UntrustedOnly(w, es, w.required[k].context, waiting)
    {
      var more, only := OutcomesOf(w, es, w.required[n].context, waiting);
      outcomes := outcomes + more;
      untrustedOnly := untrustedOnly || only;
      n := n + 1;
    }
  }

  method OutcomesOf(w: World, es: seq<Entry>, context: string, waiting: bool) returns (outcomes: seq<Class>, only: bool)
    ensures outcomes == Outcomes(w, es, context, waiting) && only == UntrustedOnly(w, es, context, waiting)
  {
    hide Classes;
    hide AnyNamed;
    var counted, refusing := ClassesOf(w, es, context);
    var none := counted == [] && refusing == [];
    only := none && AnyNamed(es, context, false) && (AnyNamed(es, context, true) || !waiting);
    if none {
      outcomes := if waiting && !only then [Pending] else [Missing];
    } else {
      outcomes := counted + refusing;
    }
  }

  method ClassesOf(w: World, es: seq<Entry>, context: string) returns (counted: seq<Class>, refusing: seq<Class>)
    ensures counted == Classes(w, es, |es|, context, true) && refusing == Classes(w, es, |es|, context, false)
  {
    counted, refusing := [], [];
    var n := 0;
    while n < |es|
      invariant n <= |es|
      invariant counted == Classes(w, es, n, context, true) && refusing == Classes(w, es, n, context, false)
    {
      if Named(es[n], context) {
        var c := Classify(w, es[n].job);
        if Counted(w, es[n]) {
          counted := counted + [c];
        } else if c != Success {
          refusing := refusing + [c];
        }
      }
      n := n + 1;
    }
  }

  /** `actions_fallback`: it accepts exactly what is proved. */
  method ActionsFallback(w: World) returns (verdict: Class)
    ensures verdict == Decide(w)
    ensures verdict == Success <==> exists runs :: Proved(w, runs)
  {
    AcceptsExactlyTheProved(w);
    hide Proved;
    hide Rows;
    if !ExactSha(w.sha) {
      return Infra;
    }
    if exists k :: 0 <= k < |w.required| && w.required[k].app != Some(ACTIONS_APP_ID) {
      return Unprovable;
    }
    var pr := Current(w.pull, w.sha, None);
    if pr.Left? {
      return pr.why;
    }
    if pr.value.headRepo != Some(w.repo) {
      return Unprovable;
    }
    var runs := Rows(w.runs, RunId());
    if runs.Left? {
      return runs.why;
    }
    var trusted := CollectTrusted(w, runs.value);
    if trusted.Left? {
      return trusted.why;
    }
    var found := CollectJobs(w, runs.value, trusted.value);
    if found.Left? {
      return found.why;
    }
    var refused := BaseError(w, found.value, |found.value|);
    if refused.Some? {
      return refused.value;
    }
    var waiting := pr.value.state == "open" && Running(w, runs.value, trusted.value);
    var outcomes, untrustedOnly := CollectOutcomes(w, found.value, waiting);
    if untrustedOnly && NothingBad(outcomes) {
      return Unprovable;
    }
    var again := Current(w.again, w.sha, Some(pr.value.base));
    if again.Left? {
      return again.why;
    }
    return Verdict(outcomes, 0);
  }
}
