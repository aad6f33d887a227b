/** `NativeGate`: one connector call, approved at most once, and the one native result that may answer it. */
module ConnectorGate {
  import opened Basics

  // ----- what the transport hands over -----

  /** `rawInput`: not an object, or an object with its canonical JSON; None when that raises. */
  datatype Input = NotObject | Object(canonical: Option<string>)

  datatype Choice = Choice(kind: string, id: string)

  datatype Permission = Permission(
    session: Option<string>, inner: Option<string>, name: Option<string>, call: Option<string>,
    options: seq<Choice>, source: Option<string>, parent: bool, input: Input)

  /** `opens` tells a `tool_call` from an update; `input` and `output` are None when the key is missing. */
  datatype Event = Event(
    session: Option<string>, name: Option<string>, call: Option<string>, opens: bool,
    input: Option<Input>, status: Option<string>, output: Option<string>)

  datatype Callback = OnPermission(p: Permission) | OnToolEvent(e: Event)

  // ----- the gate -----

  /** What a call was opened with, or last updated to. */
  datatype Call = Call(name: string, canonical: string)

  datatype Output = Output(status: string, tool: string, call: string, raw: string)

  /** `authorize` is None when it raises. */
  datatype Asked = Asked(tool: Option<string>, arguments: string, authorize: string -> Option<bool>)

  datatype Gate = Gate(
    session: Option<string>, approved: Option<string>, pending: map<string, Call>, finished: set<string>,
    output: Option<Output>, discovery: seq<string>)

  const FRESH := Gate(None, None, map[], {}, None, [])

  datatype Answer = Raised | Denied(option: string) | Allowed(call: string, option: string) | Quiet

  /** The gate after a callback, and what the callback answered. */
  datatype Step = Step(gate: Gate, answer: Answer)

  const TOOL_SEARCH := "ToolSearch"

  function Bound(g: Gate, session: Option<string>): Option<Gate> {
    if session.None? || session.value == "" then None
    else if g.session.Some? && g.session != session then None
    else Some(g.(session := session))
  }

  /** The first option of a kind. */
  function Offered(options: seq<Choice>, kind: string, i: nat): Option<string>
    decreases |options| - i
  {
    if i >= |options| then None
    else if options[i].kind == kind then Some(options[i].id)
    else Offered(options, kind, i + 1)
  }

  /** Whether the request is the one asked for: None when a check raises, in the order the checks are made. */
  function Matches(a: Asked, g: Gate, p: Permission): Option<bool> {
    if g.approved.Some? || a.tool.None? || a.tool == Some("") || p.name != a.tool then Some(false)
    else if a.authorize(p.name.value).None? then None
    else if !a.authorize(p.name.value).value || p.source != Some("claudeai") || p.parent || p.input.NotObject? then
      Some(false)
    else if p.input.canonical.None? then None
    else
      Some(&& p.input.canonical.value == a.arguments && p.call.Some? && p.call.value in g.pending
           && g.pending[p.call.value] == Call(p.name.value, a.arguments))
  }

  function Permit(a: Asked, g: Gate, p: Permission): Step {
    match Bound(g, p.session)
    case None => Step(g, Raised)
    case Some(b) =>
      var reject := Offered(p.options, "reject_once", 0);
      if p.inner != p.session || reject.None? then Step(b, Raised)
      else
        match Matches(a, b, p)
        case None => Step(b, Raised)
        case Some(false) => Step(b, Denied(reject.value))
        case Some(true) =>
          var allow := Offered(p.options, "allow_once", 0);
          if allow.None? then Step(b, Denied(reject.value))
          else Step(b.(approved := p.call), Allowed(p.call.value, allow.value))
  }

  /** The calls with this event's input recorded; None when that raises, and then nothing is recorded. */
  function Recorded(g: Gate, e: Event): Option<map<string, Call>>
    requires e.name.Some? && e.call.Some?
  {
    var id, name := e.call.value, e.name.value;
    if e.opens then
      if id in g.pending || e.input.None? || e.input.value.NotObject? || e.input.value.canonical.None? then None
      else Some(g.pending[id := Call(name, e.input.value.canonical.value)])
    else if id !in g.pending || g.pending[id].name != name then None
    else if e.input.None? then Some(g.pending)
    else if e.input.value.NotObject? || e.input.value.canonical.None? then None
    else Some(g.pending[id := Call(name, e.input.value.canonical.value)])
  }

  /** A call's last event; what it leaves is kept even when it raises. */
  function Ends(a: Asked, g: Gate, e: Event): Step
    requires e.name.Some? && e.call.Some? && e.status.Some?
  {
    var id, name, completed := e.call.value, e.name.value, e.status == Some("completed");
    var done := g.(finished := g.finished + {id});
    if name == TOOL_SEARCH then
      Step(if completed && e.output.Some? then done.(discovery := done.discovery + [e.output.value]) else done, Quiet)
    else if completed && g.approved != Some(id) then Step(done, Raised)
    else if g.approved == Some(id) then
      if e.output.None? then Step(done, Raised)
      else Step(done.(output := Some(Output(e.status.value, name, id, e.output.value))), Quiet)
    else Step(done, Quiet)
  }

  function Observe(a: Asked, g: Gate, e: Event): Step {
    match Bound(g, e.session)
    case None => Step(g, Raised)
    case Some(b) =>
      if e.call.None? || e.call.value == "" || e.name.None? || e.call.value in b.finished then Step(b, Raised)
      else
        match Recorded(b, e)
        case None => Step(b, Raised)
        case Some(pending) =>
          var next := b.(pending := pending);
          if b.approved == e.call && pending[e.call.value].canonical != a.arguments then Step(next, Raised)
          else if e.status != Some("completed") && e.status != Some("failed") then Step(next, Quiet)
          else Ends(a, next, e)
  }

  function React(a: Asked, g: Gate, c: Callback): Step {
    match c
    case OnPermission(p) => Permit(a, g, p)
    case OnToolEvent(e) => Observe(a, g, e)
  }

  function After(a: Asked, cs: seq<Callback>, n: nat): Gate
    requires n <= |cs|
  {
    if n == 0 then FRESH else React(a, After(a, cs, n - 1), cs[n - 1]).gate
  }

  /** How many of the first `n` callbacks were answered with an allow. */
  function Allows(a: Asked, cs: seq<Callback>, n: nat): nat
    requires n <= |cs|
  {
    if n == 0 then 0
    else Allows(a, cs, n - 1) + if React(a, After(a, cs, n - 1), cs[n - 1]).answer.Allowed? then 1 else 0
  }

  // ----- one callback -----

  /** The first option of the kind has this id. */
  ghost predicate FirstOption(options: seq<Choice>, kind: string, id: string) {
    exists k :: 0 <= k < |options| && options[k] == Choice(kind, id)
                && forall before :: 0 <= before < k ==> options[before].kind != kind
  }

  lemma {:induction false} OfferedIs(options: seq<Choice>, kind: string, i: nat)
    requires i <= |options|
    ensures match Offered(options, kind, i)
            case None => forall k :: i <= k < |options| ==> options[k].kind != kind
            case Some(id) =>
              exists k :: i <= k < |options| && options[k] == Choice(kind, id)
                          && forall before :: i <= before < k ==> options[before].kind != kind
    decreases |options| - i
  {
    if i < |options| && options[i].kind != kind {
      OfferedIs(options, kind, i + 1);
      var r := Offered(options, kind, i + 1);
      if r.Some? {
        var k :| i + 1 <= k < |options| && options[k] == Choice(kind, r.value)
                 && forall before :: i + 1 <= before < k ==> options[before].kind != kind;
        assert forall before :: i <= before < k ==> options[before].kind != kind;
      }
    } else if i < |options| {
      assert options[i] == Choice(kind, options[i].id);
    }
  }

  lemma FirstOptionIs(options: seq<Choice>, kind: string, id: string)
    ensures Offered(options, kind, 0) == Some(id) <==> FirstOption(options, kind, id)
    ensures Offered(options, kind, 0).None? <==> forall k :: 0 <= k < |options| ==> options[k].kind != kind
  {
    OfferedIs(options, kind, 0);
    if FirstOption(options, kind, id) {
      var k :| 0 <= k < |options| && options[k] == Choice(kind, id)
               && forall before :: 0 <= before < k ==> options[before].kind != kind;
      assert options[k].kind == kind;
    }
  }

  /** The session is a name, and the gate's own once that has one. */
  ghost predicate SameSession(g: Gate, session: Option<string>) {
    session.Some? && session.value != "" && (g.session.None? || g.session == session)
  }

  /** The permission is for the tool asked for, on its own behalf, and its source is the account's connectors. */
  ghost predicate Asks(a: Asked, p: Permission) {
    && a.tool.Some? && a.tool.value != "" && p.name == a.tool && a.authorize(a.tool.value) == Some(true)
    && p.source == Some("claudeai") && !p.parent && p.input.Object?
  }

  /**
    When a permission is allowed: nothing was approved yet, it is the one asked for, its arguments and those the call
    was opened with are those asked for, and both answers are on offer. The allow carries the call and the id of the
    first allowing option, and only then the call is approved.
   */
  lemma AllowedExactly(a: Asked, g: Gate, p: Permission, call: string, option: string)
    ensures Permit(a, g, p).answer == Allowed(call, option)
       <==> && SameSession(g, p.session) && p.inner == p.session && g.approved.None? && Asks(a, p)
            && p.input == Object(Some(a.arguments)) && p.call == Some(call)
            && call in g.pending && g.pending[call].name == p.name.value && g.pending[call].canonical == a.arguments
            && FirstOption(p.options, "allow_once", option) && exists id :: FirstOption(p.options, "reject_once", id)
    ensures var s := Permit(a, g, p);
            && s.gate.approved == (if s.answer.Allowed? then Some(s.answer.call) else g.approved)
            && s.gate.session == (if SameSession(g, p.session) then p.session else g.session)
            && s.gate.pending == g.pending && s.gate.finished == g.finished && s.gate.output == g.output
            && s.gate.discovery == g.discovery
  {
    FirstOptionIs(p.options, "allow_once", option);
    forall id ensures Offered(p.options, "reject_once", 0) == Some(id) <==> FirstOption(p.options, "reject_once", id) {
      FirstOptionIs(p.options, "reject_once", id);
    }
    hide FirstOption, Offered;
  }

  /** It raises in another session, without a rejecting option, and when a check it comes to cannot be made. */
  lemma PermissionRaises(a: Asked, g: Gate, p: Permission)
    ensures Permit(a, g, p).answer == Raised
       <==> || !SameSession(g, p.session) || p.inner != p.session
            || (forall k :: 0 <= k < |p.options| ==> p.options[k].kind != "reject_once")
            || (&& g.approved.None? && a.tool.Some? && a.tool.value != "" && p.name == a.tool
                && (|| a.authorize(a.tool.value).None?
                    || (Asks(a, p) && p.input.canonical.None?)))
  {
    FirstOptionIs(p.options, "reject_once", "");
  }

  /** Everything else is denied, by the first rejecting option. */
  lemma DeniedBy(a: Asked, g: Gate, p: Permission, option: string)
    ensures Permit(a, g, p).answer == Denied(option)
       <==> !Permit(a, g, p).answer.Allowed? && !Permit(a, g, p).answer.Raised?
            && FirstOption(p.options, "reject_once", option)
  {
    FirstOptionIs(p.options, "reject_once", option);
    hide FirstOption, Offered;
  }

  /** The input an event leaves the call with: its own, or what an update without one left; None when it may not. */
  ghost predicate Leaves(g: Gate, e: Event, call: Call) {
    && e.name == Some(call.name) && e.call.Some?
    && (if e.opens then e.call.value !in g.pending
        else e.call.value in g.pending && g.pending[e.call.value].name == call.name)
    && (e.input == Some(Object(Some(call.canonical)))
        || (!e.opens && e.input.None? && g.pending[e.call.value].canonical == call.canonical))
  }

  /**
    What an event does when it fits: the call is recorded, and if the event is its last, it is finished. A result is
    recorded only for the approved call, and is that event's own.
   */
  lemma EventDoes(a: Asked, g: Gate, e: Event, call: Call)
    requires SameSession(g, e.session) && e.call.Some? && e.call.value != "" && e.call.value !in g.finished
    requires Leaves(g, e, call) && (g.approved == e.call ==> call.canonical == a.arguments)
    ensures var s, id := Observe(a, g, e), e.call.value;
            var ended, mine := e.status == Some("completed") || e.status == Some("failed"), g.approved == e.call;
            var search := call.name == "ToolSearch";
            && s.gate.session == e.session && s.gate.approved == g.approved && s.gate.pending == g.pending[id := call]
            && s.gate.finished == (if ended then g.finished + {id} else g.finished)
            && s.gate.discovery == (if search && e.status == Some("completed") && e.output.Some?
                                    then g.discovery + [e.output.value] else g.discovery)
            && s.gate.output == (if ended && mine && !search && e.output.Some?
                                 then Some(Output(e.status.value, call.name, id, e.output.value)) else g.output)
            && (s.answer == Raised
                <==> ended && !search && if mine then e.output.None? else e.status == Some("completed"))
            && (s.answer == Quiet || s.answer == Raised)
  {
    assert e.input.None? ==> g.pending[e.call.value := call] == g.pending;
  }

  /** An event that does not fit raises; it ends no call and records no result. */
  lemma EventRefused(a: Asked, g: Gate, e: Event)
    requires || !SameSession(g, e.session) || e.call.None? || e.call.value == "" || e.call.value in g.finished
             || (forall call :: !Leaves(g, e, call))
             || (g.approved == e.call && forall call :: Leaves(g, e, call) ==> call.canonical != a.arguments)
    ensures var s := Observe(a, g, e);
            && s.answer == Raised && s.gate.finished == g.finished && s.gate.output == g.output
            && s.gate.approved == g.approved && s.gate.discovery == g.discovery
  {
    if Bound(g, e.session).Some? && e.call.Some? && e.call.value != "" && e.name.Some? && e.call.value !in g.finished {
      var b := Bound(g, e.session).value;
      if Recorded(b, e).Some? {
        assert Leaves(g, e, Recorded(b, e).value[e.call.value]);
      }
    }
  }

  // ----- what every run keeps -----

  /** The approved call is the one asked for, and so is what a recorded output answers. */
  ghost predicate Inv(a: Asked, g: Gate) {
    && (forall id :: id in g.finished ==> id in g.pending)
    && (g.approved.Some? ==> g.approved.value in g.pending && a.tool == Some(g.pending[g.approved.value].name))
    && (g.output.Some? ==>
          var o := g.output.value;
          && g.approved == Some(o.call) && o.call in g.finished && a.tool == Some(o.tool)
          && (o.status == "completed" || o.status == "failed")
          && g.pending[o.call] == Call(o.tool, a.arguments))
  }

  lemma StepKeeps(a: Asked, g: Gate, c: Callback)
    requires Inv(a, g)
    ensures var s := React(a, g, c);
            && Inv(a, s.gate)
            && (g.output.Some? ==> s.gate.output == g.output)
            && (g.approved.Some? ==> s.gate.approved == g.approved)
            && (s.answer.Allowed? <==> g.approved.None? && s.gate.approved.Some?)
            && (s.answer.Allowed? ==> s.gate.approved == Some(s.answer.call))
  {
  }

  lemma {:induction false} RunKeeps(a: Asked, cs: seq<Callback>, n: nat)
    requires n <= |cs|
    ensures Inv(a, After(a, cs, n))
    ensures Allows(a, cs, n) == if After(a, cs, n).approved.Some? then 1 else 0
  {
    if n > 0 {
      RunKeeps(a, cs, n - 1);
      hide React;
      StepKeeps(a, After(a, cs, n - 1), cs[n - 1]);
    }
  }

  /** At most one allow is ever answered, however the callbacks come and whichever of them raise. */
  lemma AtMostOneAllow(a: Asked, cs: seq<Callback>, n: nat)
    requires n <= |cs|
    ensures Allows(a, cs, n) <= 1
  {
    RunKeeps(a, cs, n);
  }

  /** Callback `k` was a permission answered with an allow of `call`, and it was the one asked for. */
  ghost predicate AllowedAt(a: Asked, cs: seq<Callback>, k: nat, call: string)
    requires k < |cs|
  {
    var g := After(a, cs, k);
    && cs[k].OnPermission? && React(a, g, cs[k]).answer.Allowed? && React(a, g, cs[k]).answer.call == call
    && var p := cs[k].p;
    && a.tool.Some? && p.name == a.tool && a.authorize(a.tool.value) == Some(true) && p.call == Some(call)
    && p.source == Some("claudeai") && !p.parent && p.inner == p.session && p.input == Object(Some(a.arguments))
    && call in g.pending && g.pending[call] == Call(a.tool.value, a.arguments)
  }

  ghost predicate OnlyAllow(a: Asked, cs: seq<Callback>, n: nat, k: nat)
    requires n <= |cs|
  {
    forall j :: 0 <= j < n && React(a, After(a, cs, j), cs[j]).answer.Allowed? ==> j == k
  }

  lemma AllowIsTheAsked(a: Asked, cs: seq<Callback>, k: nat)
    requires k < |cs| && React(a, After(a, cs, k), cs[k]).answer.Allowed?
    ensures AllowedAt(a, cs, k, React(a, After(a, cs, k), cs[k]).answer.call)
  {
  }

  /** The approved call was allowed once, by a permission for the tool and the arguments asked for. */
  lemma {:induction false} ApprovedWasAllowed(a: Asked, cs: seq<Callback>, n: nat) returns (k: nat)
    requires n <= |cs| && After(a, cs, n).approved.Some?
    ensures k < n && AllowedAt(a, cs, k, After(a, cs, n).approved.value) && OnlyAllow(a, cs, n, k)
  {
    var before := After(a, cs, n - 1);
    RunKeeps(a, cs, n - 1);
    StepKeeps(a, before, cs[n - 1]);
    AllowsNone(a, cs, n - 1);
    if before.approved.Some? {
      k := ApprovedWasAllowed(a, cs, n - 1);
    } else {
      k := n - 1;
      AllowIsTheAsked(a, cs, k);
    }
  }

  lemma {:induction false} AllowsNone(a: Asked, cs: seq<Callback>, n: nat)
    requires n <= |cs|
    ensures After(a, cs, n).approved.None? ==>
              forall j :: 0 <= j < n ==> !React(a, After(a, cs, j), cs[j]).answer.Allowed?
  {
    hide React;
    hide Inv;
    if n > 0 {
      AllowsNone(a, cs, n - 1);
      RunKeeps(a, cs, n - 1);
      StepKeeps(a, After(a, cs, n - 1), cs[n - 1]);
    }
  }

  /**
    In every run, a recorded output answers a call that one permission allowed, and no other callback allowed anything:
    authorized, from the right source, with no parent, and with stored and sent arguments those asked for.
   */
  lemma AllowsOnlyTheAsked(a: Asked, cs: seq<Callback>, n: nat)
    requires n <= |cs| && After(a, cs, n).output.Some?
    ensures exists k ::
              0 <= k < n && AllowedAt(a, cs, k, After(a, cs, n).output.value.call) && OnlyAllow(a, cs, n, k)
  {
    RunKeeps(a, cs, n);
    var k := ApprovedWasAllowed(a, cs, n);
  }

  /** A recorded output answers the one allowed call, whose tool and arguments are the ones asked for. */
  lemma OutputIsTheAllowedCalls(a: Asked, cs: seq<Callback>, n: nat)
    requires n <= |cs| && After(a, cs, n).output.Some?
    ensures var g := After(a, cs, n);
            var o := g.output.value;
            && Allows(a, cs, n) == 1 && g.approved == Some(o.call) && o.call in g.finished
            && a.tool == Some(o.tool) && o.call in g.pending && g.pending[o.call] == Call(o.tool, a.arguments)
  {
    RunKeeps(a, cs, n);
  }

  /** Finished calls are known calls. */
  lemma FinishedAreKnown(a: Asked, cs: seq<Callback>, n: nat, id: string)
    requires n <= |cs| && id in After(a, cs, n).finished
    ensures id in After(a, cs, n).pending
  {
    RunKeeps(a, cs, n);
  }

  /** Once recorded, the output stays as it is. */
  lemma {:induction false} OutputNeverChanges(a: Asked, cs: seq<Callback>, m: nat, n: nat)
    requires m <= n <= |cs| && After(a, cs, m).output.Some?
    ensures After(a, cs, n).output == After(a, cs, m).output
    decreases n
  {
    if m < n {
      OutputNeverChanges(a, cs, m, n - 1);
      RunKeeps(a, cs, n - 1);
      hide React;
      StepKeeps(a, After(a, cs, n - 1), cs[n - 1]);
    }
  }

  // ----- the object -----

  class NativeGate {
    const asked: Asked
    var session: Option<string>
    var approved: Option<string>
    var pending: map<string, Call>
    var finished: set<string>
    var output: Option<Output>
    var discovery: seq<string>

    constructor (asked: Asked)
      ensures this.asked == asked && Now() == FRESH
    {
      this.asked := asked;
      session, approved, pending, finished, output, discovery := None, None, map[], {}, None, [];
    }

    function Now(): Gate
      reads this
    {
      Gate(session, approved, pending, finished, output, discovery)
    }

    /** False when it raises. */
    method Bind(with: Option<string>) returns (ok: bool)
      modifies `session
      ensures Bound(old(Now()), with) == if ok then Some(Now()) else None
      ensures !ok ==> Now() == old(Now())
    {
      if with.None? || with.value == "" {
        return false;
      }
      if session.None? {
        session := with;
      }
      ok := session == with;
    }

    method OnPermission(p: Permission) returns (answer: Answer)
      modifies `session, `approved
      ensures Permit(asked, old(Now()), p) == Step(Now(), answer)
    {
      var ok := Bind(p.session);
      if !ok || p.inner != p.session {
        return Raised;
      }
      var reject := Offered(p.options, "reject_once", 0);
      if reject.None? {
        return Raised;
      }
      var matches := Matches(asked, Now(), p);
      if matches.None? {
        return Raised;
      }
      if !matches.value {
        return Denied(reject.value);
      }
      var allow := Offered(p.options, "allow_once", 0);
      if allow.None? {
        return Denied(reject.value);
      }
      approved := p.call;
      return Allowed(p.call.value, allow.value);
    }

    method OnToolEvent(e: Event) returns (answer: Answer)
      modifies `session, `pending, `finished, `output, `discovery
      ensures Observe(asked, old(Now()), e) == Step(Now(), answer)
    {
      var ok := Bind(e.session);
      if !ok || e.call.None? || e.call.value == "" || e.name.None? || e.call.value in finished {
        return Raised;
      }
      var id, name := e.call.value, e.name.value;
      if e.opens {
        if id in pending || e.input.None? || e.input.value.NotObject? || e.input.value.canonical.None? {
          return Raised;
        }
        pending := pending[id := Call(name, e.input.value.canonical.value)];
      } else {
        if id !in pending || pending[id].name != name {
          return Raised;
        }
        if e.input.Some? {
          if e.input.value.NotObject? || e.input.value.canonical.None? {
            return Raised;
          }
          pending := pending[id := Call(name, e.input.value.canonical.value)];
        }
      }
      if approved == Some(id) && pending[id].canonical != asked.arguments {
        return Raised;
      }
      if e.status != Some("completed") && e.status != Some("failed") {
        return Quiet;
      }
      finished := finished + {id};
      if name == TOOL_SEARCH {
        if e.status == Some("completed") && e.output.Some? {
          discovery := discovery + [e.output.value];
        }
        return Quiet;
      }
      if e.status == Some("completed") && approved != Some(id) {
        return Raised;
      }
      if approved == Some(id) {
        if e.output.None? {
          return Raised;
        }
        output := Some(Output(e.status.value, name, id, e.output.value));
      }
      return Quiet;
    }
  }
}
