/** The paged routing history: who changed an issue's state, assignee or delegate, read newest first and bounded. */
module RoutingScan {
  import opened Basics

  const HISTORY_PAGES := 5

  /** One history entry; `at` is in milliseconds, the pairs are from and to. */
  datatype Node = Node(
    at: int, actor: Option<string>,
    fromState: Option<string>, toState: Option<string>,
    fromAssignee: Option<string>, toAssignee: Option<string>,
    fromDelegate: Option<string>, toDelegate: Option<string>)

  predicate Moves(n: Node) {
    n.fromState != n.toState
  }

  /** The entry changed state, assignee or delegate. */
  predicate Routed(n: Node) {
    Moves(n) || n.fromAssignee != n.toAssignee || n.fromDelegate != n.toDelegate
  }

  /** Whose pause reports do not count, and the state they move the issue to. */
  datatype PauseOf = PauseOf(actor: Option<string>, blocked: Option<string>)

  predicate PauseReport(pause: Option<PauseOf>, n: Node) {
    && pause.Some? && pause.value.blocked.Some? && n.actor == pause.value.actor
    && n.toState == pause.value.blocked && n.fromAssignee == n.toAssignee && n.fromDelegate == n.toDelegate
  }

  /** Someone else's routing change after the fence. */
  predicate Human(viewer: string, since: int, pause: Option<PauseOf>, n: Node) {
    n.at > since && Routed(n) && n.actor != Some(viewer) && !PauseReport(pause, n)
  }

  // ----- pages -----

  /** The entries of the first `n` pages. */
  function Flat(pages: seq<seq<Node>>, n: nat): seq<Node>
    requires n <= |pages|
  {
    if n == 0 then [] else Flat(pages, n - 1) + pages[n - 1]
  }

  function History(pages: seq<seq<Node>>): seq<Node> {
    Flat(pages, |pages|)
  }

  ghost predicate NewestFirst(h: seq<Node>) {
    forall i, j :: 0 <= i < j < |h| ==> h[i].at >= h[j].at
  }

  predicate Any(p: Node -> bool, ns: seq<Node>) {
    exists k :: 0 <= k < |ns| && p(ns[k])
  }

  lemma {:induction false} FlatPrefix(pages: seq<seq<Node>>, n: nat, m: nat)
    requires n <= m <= |pages|
    ensures |Flat(pages, n)| <= |Flat(pages, m)| && Flat(pages, m)[..|Flat(pages, n)|] == Flat(pages, n)
    decreases m
  {
    if n < m {
      FlatPrefix(pages, n, m - 1);
    }
  }

  lemma AnyOf(p: Node -> bool, a: seq<Node>, b: seq<Node>)
    ensures Any(p, a + b) <==> Any(p, a) || Any(p, b)
  {
    if Any(p, a) {
      var k :| 0 <= k < |a| && p(a[k]);
      assert p((a + b)[k]);
    }
    if Any(p, b) {
      var k :| 0 <= k < |b| && p(b[k]);
      assert p((a + b)[|a| + k]);
    }
  }

  lemma {:induction false} AnyFlat(p: Node -> bool, pages: seq<seq<Node>>, n: nat)
    requires n <= |pages|
    ensures Any(p, Flat(pages, n)) <==> exists k :: 0 <= k < n && Any(p, pages[k])
  {
    if n > 0 {
      AnyFlat(p, pages, n - 1);
      AnyOf(p, Flat(pages, n - 1), pages[n - 1]);
    }
  }

  // ----- the scan -----

  /** The scan stopped after `n` pages: at the end, or at the first page that was enough, or at the bound. */
  ghost predicate StopsAfter(pages: seq<seq<Node>>, enough: seq<Node> -> bool, n: nat, complete: bool) {
    && 0 < n <= |pages| && n <= HISTORY_PAGES
    && (forall k :: 0 <= k < n - 1 ==> !enough(pages[k]))
    && (complete <==> n == |pages| || enough(pages[n - 1]))
    && (complete || n == HISTORY_PAGES)
  }

  /** `_routing_scan` */
  method Scan(pages: seq<seq<Node>>, enough: seq<Node> -> bool) returns (nodes: seq<Node>, complete: bool)
    requires pages != []
    ensures exists n :: StopsAfter(pages, enough, n, complete) && nodes == Flat(pages, n)
  {
    nodes := [];
    var cursor := 0;
    while cursor < HISTORY_PAGES
      invariant cursor <= HISTORY_PAGES && cursor < |pages| && nodes == Flat(pages, cursor)
      invariant forall k :: 0 <= k < cursor ==> !enough(pages[k])
    {
      var page := pages[cursor];
      nodes := nodes + page;
      cursor := cursor + 1;
      if cursor == |pages| || enough(page) {
        assert StopsAfter(pages, enough, cursor, true);
        return nodes, true;
      }
    }
    assert StopsAfter(pages, enough, cursor, false);
    return nodes, false;
  }

  // ----- did anyone else route the issue -----

  function Past(since: int): Node -> bool {
    (n: Node) => n.at <= since
  }

  function ByOthers(viewer: string, since: int, pause: Option<PauseOf>): Node -> bool {
    (n: Node) => Human(viewer, since, pause, n)
  }

  /** The first five pages are the whole history, or reach back to the fence. */
  predicate Reaches(pages: seq<seq<Node>>, since: int) {
    |pages| <= HISTORY_PAGES || Any(Past(since), Flat(pages, HISTORY_PAGES))
  }

  /** Somebody else is to see to the issue. */
  ghost predicate HandedOn(n: Node) {
    n.fromAssignee != n.toAssignee || n.fromDelegate != n.toDelegate
  }

  ghost predicate Rerouted(n: Node) {
    n.fromState != n.toState || HandedOn(n)
  }

  lemma OthersRoute(pages: seq<seq<Node>>, viewer: string, since: int, pause: Option<PauseOf>)
    ensures !Any(ByOthers(viewer, since, pause), History(pages))
       <==> forall n :: n in History(pages) && n.at > since && n.actor != Some(viewer) && Rerouted(n) ==>
              && pause.Some? && n.actor == pause.value.actor && pause.value.blocked.Some?
              && n.toState == pause.value.blocked && !HandedOn(n)
  {
    var h, human := History(pages), ByOthers(viewer, since, pause);
    if !Any(human, h) {
      forall n | n in h && n.at > since && n.actor != Some(viewer) && Rerouted(n)
        ensures && pause.Some? && n.actor == pause.value.actor && pause.value.blocked.Some?
                && n.toState == pause.value.blocked && !HandedOn(n)
      {
        var k :| 0 <= k < |h| && h[k] == n;
        assert !human(h[k]);
      }
    }
  }

  lemma FenceRead(pages: seq<seq<Node>>, since: int)
    ensures Reaches(pages, since) <==> |pages| <= 5 || exists n :: n in Flat(pages, 5) && n.at <= since
  {
    if |pages| > 5 {
      var read := Flat(pages, 5);
      if exists n :: n in read && n.at <= since {
        var n :| n in read && n.at <= since;
        var k :| 0 <= k < |read| && read[k] == n;
        assert Past(since)(read[k]);
      }
    }
  }

  /**
    `_human_routing_changed`: false exactly when five pages reach the fence and nobody but this app routed the issue
    after it, in the whole history, however that is paged.
   */
  method HumanRoutingChanged(pages: seq<seq<Node>>, viewer: string, since: int, pause: Option<PauseOf>)
      returns (changed: bool)
    requires pages != [] && NewestFirst(History(pages))
    ensures !changed <==> Reaches(pages, since) && !Any(ByOthers(viewer, since, pause), History(pages))
    ensures !changed
       <==> && (|pages| <= 5 || exists n :: n in Flat(pages, 5) && n.at <= since)
            && forall n :: n in History(pages) && n.at > since && n.actor != Some(viewer) && Rerouted(n) ==>
                 && pause.Some? && n.actor == pause.value.actor && pause.value.blocked.Some?
                 && n.toState == pause.value.blocked && !HandedOn(n)
  {
    OthersRoute(pages, viewer, since, pause);
    FenceRead(pages, since);
    var human, past := ByOthers(viewer, since, pause), Past(since);
    var enough := (page: seq<Node>) => Any(human, page) || Any(past, page);
    var nodes, complete := Scan(pages, enough);
    ghost var n: nat :| StopsAfter(pages, enough, n, complete) && nodes == Flat(pages, n);
    changed := Any(human, nodes) || !complete;
    ScanDecides(pages, viewer, since, pause, n, complete);
  }

  lemma ScanDecides(pages: seq<seq<Node>>, viewer: string, since: int, pause: Option<PauseOf>, n: nat, complete: bool)
    requires NewestFirst(History(pages))
    requires var human, past := ByOthers(viewer, since, pause), Past(since);
             StopsAfter(pages, (page: seq<Node>) => Any(human, page) || Any(past, page), n, complete)
    ensures var human := ByOthers(viewer, since, pause);
            Any(human, Flat(pages, n)) || !complete <==> !(Reaches(pages, since) && !Any(human, History(pages)))
  {
    var human, past := ByOthers(viewer, since, pause), Past(since);
    AnyFlat(human, pages, n);
    AnyFlat(human, pages, |pages|);
    AnyFlat(past, pages, n);
    if |pages| > HISTORY_PAGES {
      AnyFlat(past, pages, HISTORY_PAGES);
    }
    if complete && n < |pages| && !Any(human, Flat(pages, n)) {
      assert Any(past, pages[n - 1]);
      OlderStillPast(pages, viewer, since, pause, n);
    }
  }

  /** Newest first, everything after an entry at the fence is past it too. */
  lemma OlderStillPast(pages: seq<seq<Node>>, viewer: string, since: int, pause: Option<PauseOf>, n: nat)
    requires NewestFirst(History(pages)) && n <= |pages| && Any(Past(since), Flat(pages, n))
    requires !Any(ByOthers(viewer, since, pause), Flat(pages, n))
    ensures !Any(ByOthers(viewer, since, pause), History(pages))
  {
    var h, read, human := History(pages), Flat(pages, n), ByOthers(viewer, since, pause);
    FlatPrefix(pages, n, |pages|);
    var k :| 0 <= k < |read| && Past(since)(read[k]);
    forall j | 0 <= j < |h| ensures !human(h[j]) {
      if j < |read| {
        assert h[j] == read[j] && !human(read[j]);
      } else {
        assert h[k] == read[k] && h[k].at >= h[j].at;
      }
    }
  }

  // ----- did this app set the started state -----

  datatype Issue = Issue(started: bool, state: Option<string>, creator: Option<string>)

  predicate ByViewer(viewer: string, n: Node) {
    n.actor == Some(viewer)
  }

  function Moving(): Node -> bool {
    (n: Node) => Moves(n)
  }

  /** The first index whose entry moved the state, or the length. */
  function FirstMove(h: seq<Node>, i: nat): (r: nat)
    requires i <= |h|
    ensures i <= r <= |h| && (r < |h| ==> Moves(h[r])) && forall k :: i <= k < r ==> !Moves(h[k])
    decreases |h| - i
  {
    if i == |h| || Moves(h[i]) then i else FirstMove(h, i + 1)
  }

  /** Every routing change in the history that `which` holds of was this app's. */
  predicate AllOwn(h: seq<Node>, viewer: string, after: int, every: bool) {
    forall k :: 0 <= k < |h| && Routed(h[k]) && (every || h[k].at > after) ==> ByViewer(viewer, h[k])
  }

  /** What the whole history says, when five pages reach its newest state move or its end. */
  predicate AppSet(pages: seq<seq<Node>>, viewer: string, issue: Issue) {
    var h := History(pages);
    var m := FirstMove(h, 0);
    issue.started
    && if m < |h| then
         && (|pages| <= HISTORY_PAGES || m < |Flat(pages, HISTORY_PAGES)|)
         && ByViewer(viewer, h[m]) && h[m].toState == issue.state && AllOwn(h, viewer, h[m].at, false)
       else |pages| <= HISTORY_PAGES && issue.creator == Some(viewer) && AllOwn(h, viewer, 0, true)
  }

  /** Every entry that hands the issue on or moves it, after `fence` if there is one, is the viewer's. */
  ghost predicate OnlyBy(h: seq<Node>, viewer: string, fence: Option<int>) {
    forall n :: n in h && Rerouted(n) && (fence.Some? ==> n.at > fence.value) ==> n.actor == Some(viewer)
  }

  lemma AllOwnIs(h: seq<Node>, viewer: string, after: int, every: bool)
    ensures AllOwn(h, viewer, after, every) <==> OnlyBy(h, viewer, if every then None else Some(after))
  {
    if AllOwn(h, viewer, after, every) {
      forall n | n in h && Rerouted(n) && (every || n.at > after) ensures n.actor == Some(viewer) {
        var k :| 0 <= k < |h| && h[k] == n;
        assert Routed(h[k]);
      }
    }
    if OnlyBy(h, viewer, if every then None else Some(after)) {
      forall k | 0 <= k < |h| && Routed(h[k]) && (every || h[k].at > after) ensures ByViewer(viewer, h[k]) {
        assert h[k] in h && Rerouted(h[k]);
      }
    }
  }

  /**
    The started state is this app's own exactly when the newest move of state is in the first five pages, was made by
    this app, led to the state shown, and only this app routed the issue later; or when five pages hold the whole
    history, no state was ever moved, and this app created the issue and made every change.
   */
  lemma AppSetIs(pages: seq<seq<Node>>, h: seq<Node>, viewer: string, issue: Issue)
    requires h == History(pages)
    ensures AppSet(pages, viewer, issue)
       <==> issue.started
            && (|| (exists m :: && 0 <= m < |h| && h[m].fromState != h[m].toState
                                && (forall k :: 0 <= k < m ==> h[k].fromState == h[k].toState)
                                && (|pages| <= 5 || m < |Flat(pages, 5)|)
                                && h[m].actor == Some(viewer) && h[m].toState == issue.state
                                && OnlyBy(h, viewer, Some(h[m].at)))
                || (&& (forall k :: 0 <= k < |h| ==> h[k].fromState == h[k].toState)
                    && |pages| <= 5 && issue.creator == Some(viewer) && OnlyBy(h, viewer, None)))
  {
    var m := FirstMove(h, 0);
    AllOwnIs(h, viewer, 0, true);
    if m < |h| {
      AllOwnIs(h, viewer, h[m].at, false);
      forall k | 0 <= k < |h| && h[k].fromState != h[k].toState && (forall j :: 0 <= j < k ==> !Moves(h[j]))
        ensures k == m
      {
        FirstMoveIs(h, k);
      }
    }
    hide AllOwn, OnlyBy;
  }

  /** The newest state move among the entries read; the earliest listed of equals. */
  method NewestMove(nodes: seq<Node>) returns (moved: Option<Node>)
    requires NewestFirst(nodes)
    ensures var m := FirstMove(nodes, 0); moved == if m < |nodes| then Some(nodes[m]) else None
  {
    moved := None;
    var k := 0;
    while k < |nodes|
      invariant k <= |nodes|
      invariant var m := FirstMove(nodes, 0); moved == if m < k then Some(nodes[m]) else None
    {
      if Moves(nodes[k]) && (moved.None? || nodes[k].at > moved.value.at) {
        moved := Some(nodes[k]);
      }
      k := k + 1;
    }
  }

  /** `_app_set_started_state` */
  method AppSetStartedState(pages: seq<seq<Node>>, viewer: string, issue: Issue) returns (own: bool)
    requires pages != [] && NewestFirst(History(pages))
    ensures own == AppSet(pages, viewer, issue)
  {
    if !issue.started {
      return false;
    }
    var enough := (page: seq<Node>) => Any(Moving(), page);
    var nodes, complete := Scan(pages, enough);
    ghost var n: nat :| StopsAfter(pages, enough, n, complete) && nodes == Flat(pages, n);
    FlatPrefix(pages, n, |pages|);
    var moved := NewestMove(nodes);
    if moved.None? {
      own := complete && issue.creator == Some(viewer) && AllOwn(nodes, viewer, 0, true);
    } else {
      own := ByViewer(viewer, moved.value) && moved.value.toState == issue.state
          && AllOwn(nodes, viewer, moved.value.at, false);
    }
    MoveRead(pages, viewer, issue, n, complete);
  }

  lemma MoveRead(pages: seq<seq<Node>>, viewer: string, issue: Issue, n: nat, complete: bool)
    requires issue.started && pages != [] && NewestFirst(History(pages))
    requires StopsAfter(pages, (page: seq<Node>) => Any(Moving(), page), n, complete)
    ensures var nodes := Flat(pages, n);
            var m := FirstMove(nodes, 0);
            AppSet(pages, viewer, issue)
            <==> if m < |nodes| then ByViewer(viewer, nodes[m]) && nodes[m].toState == issue.state
                                     && AllOwn(nodes, viewer, nodes[m].at, false)
                 else complete && issue.creator == Some(viewer) && AllOwn(nodes, viewer, 0, true)
  {
    var h, nodes := History(pages), Flat(pages, n);
    FlatPrefix(pages, n, |pages|);
    AnyFlat(Moving(), pages, n);
    var m := FirstMove(nodes, 0);
    if m < |nodes| {
      FirstMoveIs(h, m);
      if |pages| > HISTORY_PAGES {
        FlatPrefix(pages, n, HISTORY_PAGES);
      }
      SameLater(h, nodes, viewer, m);
    } else {
      NoMoveRead(pages, n, complete);
    }
  }

  lemma FirstMoveIs(h: seq<Node>, m: nat)
    requires m < |h| && Moves(h[m]) && forall k :: 0 <= k < m ==> !Moves(h[k])
    ensures FirstMove(h, 0) == m
  {
  }

  /** What is strictly newer than an entry was read before it. */
  lemma SameLater(h: seq<Node>, nodes: seq<Node>, viewer: string, m: nat)
    requires NewestFirst(h) && m < |nodes| <= |h| && h[..|nodes|] == nodes
    ensures AllOwn(h, viewer, h[m].at, false) <==> AllOwn(nodes, viewer, h[m].at, false)
  {
    assert forall k :: 0 <= k < |nodes| ==> h[k] == nodes[k];
    forall k | |nodes| <= k < |h| ensures h[k].at <= h[m].at {
    }
  }

  lemma NoMoveRead(pages: seq<seq<Node>>, n: nat, complete: bool)
    requires pages != [] && StopsAfter(pages, (page: seq<Node>) => Any(Moving(), page), n, complete)
    requires FirstMove(Flat(pages, n), 0) == |Flat(pages, n)|
    ensures complete ==> n == |pages|
    ensures !complete ==> |pages| > HISTORY_PAGES && n == HISTORY_PAGES
  {
    var nodes := Flat(pages, n);
    assert !Any(Moving(), nodes) by {
      forall k | 0 <= k < |nodes| ensures !Moving()(nodes[k]) {
      }
    }
    AnyFlat(Moving(), pages, n);
  }
}
