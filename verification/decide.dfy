/** The scheduling decision of one tick: which issues to spawn, which gates to service, what to tear down. */
module Decide {
  import opened Wrappers
  import opened IssueState

  datatype MergeMode = Local | Pr

  datatype CompletionPolicy = Manual | Soft | Auto

  datatype Project = Project(
    maxConcurrency: int,
    mergeMode: MergeMode,
    completionPolicy: CompletionPolicy,
    planGateTimeoutMin: int,
    completionSoftTimeoutMin: int)

  datatype Issue = Issue(id: i64, status: Status, hasWorktree: bool, waitUntil: Option<int>)

  datatype Decision = Spawn(id: i64) | SoftGate(id: i64) | Teardown(id: i64)

  function Cap(project: Project): nat {
    if project.maxConcurrency < 0 then 0 else project.maxConcurrency
  }

  function FreeSlots(project: Project, running: set<int>): nat {
    if Cap(project) < |running| then 0 else Cap(project) - |running|
  }

  /** A gate that releases itself: PLAN_READY always, READY_TO_MERGE only under a local soft or auto policy. */
  predicate SoftReleasable(issue: Issue, project: Project) {
    match issue.status
    case PlanReady => true
    case ReadyToMerge => project.mergeMode.Local? && project.completionPolicy in {Soft, Auto}
    case _ => false
  }

  predicate SoftGateDue(issue: Issue, project: Project, now: int) {
    SoftReleasable(issue, project) && (issue.waitUntil.None? || now >= issue.waitUntil.value)
  }

  // ---------------------------------------------------------------- dispatch order

  const TWO_TO_THE_64: int := 0x1_0000_0000_0000_0000

  /** The cast of a 64-bit id to `usize`. */
  function AsUsize(id: int): int {
    if id < 0 then id + TWO_TO_THE_64 else id
  }

  datatype Entry = Entry(index: nat, issue: Issue) {
    function Rank(): int { if issue.status == Merging then 0 else 1 }
    function Key(): int { if issue.status == Merging then AsUsize(issue.id) else index }
    predicate KeyAtMost(other: Entry) {
      Rank() < other.Rank() || (Rank() == other.Rank() && Key() <= other.Key())
    }
  }

  function Enumerate(issues: seq<Issue>, from: nat): seq<Entry> {
    if issues == [] then [] else [Entry(from, issues[0])] + Enumerate(issues[1..], from + 1)
  }

  function Insert(e: Entry, sorted: seq<Entry>): seq<Entry> {
    if sorted == [] || e.KeyAtMost(sorted[0]) then [e] + sorted
    else [sorted[0]] + Insert(e, sorted[1..])
  }

  /** A stable sort by key: each entry goes before the first one whose key is not smaller. */
  function StableSort(entries: seq<Entry>): seq<Entry> {
    if entries == [] then [] else Insert(entries[0], StableSort(entries[1..]))
  }

  function Issues(entries: seq<Entry>): seq<Issue> {
    if entries == [] then [] else [entries[0].issue] + Issues(entries[1..])
  }

  function DispatchOrder(issues: seq<Issue>, mode: MergeMode): seq<Issue> {
    if mode.Local? then Issues(StableSort(Enumerate(issues, 0))) else issues
  }

  // ---------------------------------------------------------------- which issues are spawned

  /** What a tick knows besides the issue list: its view of the running set and of the merge lane. */
  datatype View = View(project: Project, running: set<int>, now: int, free: nat, laneOpen: bool)

  predicate LaneBlocked(issues: seq<Issue>, project: Project) {
    project.mergeMode.Local? && exists issue <- issues :: issue.status == ConflictBlocked
  }

  predicate LaneTaken(issues: seq<Issue>, project: Project, running: set<int>) {
    project.mergeMode.Local? && exists issue <- issues :: issue.status == Merging && issue.id in running
  }

  function ViewOf(issues: seq<Issue>, project: Project, running: set<int>, now: int): View {
    View(project, running, now, FreeSlots(project, running),
         !LaneBlocked(issues, project) && !LaneTaken(issues, project, running))
  }

  predicate Idle(v: View, issue: Issue) {
    IsActionable(issue.status) && issue.id !in v.running
  }

  predicate NeedsLane(v: View, issue: Issue) {
    v.project.mergeMode.Local? && issue.status == Merging
  }

  /** The `k`-th issue may be spawned if a slot is left for it. */
  predicate Candidate(v: View, s: seq<Issue>, k: nat)
    requires k < |s|
  {
    && Idle(v, s[k])
    && (NeedsLane(v, s[k]) ==> v.laneOpen && forall j :: 0 <= j < k ==> !(Idle(v, s[j]) && NeedsLane(v, s[j])))
  }

  function CandidatesBefore(v: View, s: seq<Issue>, k: nat): (n: nat)
    requires k <= |s|
  {
    if k == 0 then 0 else CandidatesBefore(v, s, k - 1) + if Candidate(v, s, k - 1) then 1 else 0
  }

  predicate Chosen(v: View, s: seq<Issue>, k: nat)
    requires k < |s|
  {
    Candidate(v, s, k) && CandidatesBefore(v, s, k) < v.free
  }

  predicate GateOrTeardown(v: View, issue: Issue) {
    match ClassOf(issue.status)
    case Actionable => false
    case HumanGated => SoftGateDue(issue, v.project, v.now)
    case Terminal => issue.status in {Done, Abandoned} && issue.hasWorktree
  }

  /** What the tick does with the `k`-th issue in dispatch order. */
  function DecisionAt(v: View, s: seq<Issue>, k: nat): seq<Decision>
    requires k < |s|
  {
    if Chosen(v, s, k) then [Spawn(s[k].id)] else Gates(v, s[k])
  }

  function GateDecision(issue: Issue): Decision {
    if ClassOf(issue.status) == Terminal then Teardown(issue.id) else SoftGate(issue.id)
  }

  function Gates(v: View, issue: Issue): seq<Decision> {
    if GateOrTeardown(v, issue) then [GateDecision(issue)] else []
  }

  function DecisionsUpTo(v: View, s: seq<Issue>, k: nat): seq<Decision>
    requires k <= |s|
  {
    if k == 0 then [] else DecisionsUpTo(v, s, k - 1) + DecisionAt(v, s, k - 1)
  }

  function Decisions(issues: seq<Issue>, project: Project, running: set<int>, now: int): seq<Decision> {
    var s := DispatchOrder(issues, project.mergeMode);
    DecisionsUpTo(ViewOf(issues, project, running, now), s, |s|)
  }

  predicate IdleMergeBefore(v: View, s: seq<Issue>, k: nat)
    requires k <= |s|
  {
    exists j :: 0 <= j < k && Idle(v, s[j]) && NeedsLane(v, s[j])
  }

  method MakeDecisions(issues: seq<Issue>, project: Project, running: set<int>, now: int) returns (out: seq<Decision>)
    ensures out == Decisions(issues, project, running, now)
  {
    hide DispatchOrder, SoftGateDue, LaneBlocked, LaneTaken;
    out := [];
    var slots := FreeSlots(project, running);
    var localMode := project.mergeMode.Local?;
    var blocked := LaneBlocked(issues, project);
    var slotTaken := LaneTaken(issues, project, running);
    var ordered := DispatchOrder(issues, project.mergeMode);
    ghost var v := ViewOf(issues, project, running, now);
    for k := 0 to |ordered|
      invariant out == DecisionsUpTo(v, ordered, k)
      invariant slots == var before := CandidatesBefore(v, ordered, k); if before < v.free then v.free - before else 0
      invariant slots > 0 && !blocked ==>
                  (slotTaken <==> LaneTaken(issues, project, running) || IdleMergeBefore(v, ordered, k))
    {
      var issue := ordered[k];
      match ClassOf(issue.status) {
        case Actionable =>
          if issue.id in running {
            continue;
          }
          if slots > 0 {
            if localMode && issue.status == Merging {
              if blocked {
                continue;
              }
              if slotTaken {
                continue;
              }
              slotTaken := true;
            }
            out := out + [Spawn(issue.id)];
            slots := slots - 1;
          }
        case HumanGated =>
          if SoftGateDue(issue, project, now) {
            out := out + [SoftGate(issue.id)];
          }
        case Terminal =>
          if issue.status in {Done, Abandoned} && issue.hasWorktree {
            out := out + [Teardown(issue.id)];
          }
      }
    }
  }

  // ---------------------------------------------------------------- exact specification

  function SpawnIds(ds: seq<Decision>): seq<i64> {
    if ds == [] then []
    else SpawnIds(ds[..|ds| - 1]) + if ds[|ds| - 1].Spawn? then [ds[|ds| - 1].id] else []
  }

  function WithoutSpawns(ds: seq<Decision>): seq<Decision> {
    if ds == [] then []
    else WithoutSpawns(ds[..|ds| - 1]) + if ds[|ds| - 1].Spawn? then [] else [ds[|ds| - 1]]
  }

  /** Ids of the idle actionable issues that do not queue for the merge lane, in list order. */
  function IdleOthers(v: View, issues: seq<Issue>): seq<i64> {
    if issues == [] then []
    else
      var last := issues[|issues| - 1];
      IdleOthers(v, issues[..|issues| - 1]) + if Idle(v, last) && !NeedsLane(v, last) then [last.id] else []
  }

  function CandidateIds(v: View, s: seq<Issue>, k: nat): seq<i64>
    requires k <= |s|
  {
    if k == 0 then [] else CandidateIds(v, s, k - 1) + if Candidate(v, s, k - 1) then [s[k - 1].id] else []
  }

  lemma SpawnIdsOfAppend(ds: seq<Decision>, d: Decision)
    ensures SpawnIds(ds + [d]) == SpawnIds(ds) + if d.Spawn? then [d.id] else []
  {
    assert (ds + [d])[..|ds|] == ds;
  }

  lemma {:induction false} CandidatesAreCounted(v: View, s: seq<Issue>, k: nat)
    requires k <= |s|
    ensures |CandidateIds(v, s, k)| == CandidatesBefore(v, s, k)
  {
    if k > 0 {
      CandidatesAreCounted(v, s, k - 1);
    }
  }

  lemma TakeOfAppend<T>(s: seq<T>, x: T, n: nat)
    ensures Take(s + [x], n) == if |s| < n then Take(s, n) + [x] else Take(s, n)
  {
  }

  function ChosenId(v: View, s: seq<Issue>, k: nat): seq<i64>
    requires k < |s|
  {
    if Chosen(v, s, k) then [s[k].id] else []
  }

  function ChosenIds(v: View, s: seq<Issue>, k: nat): seq<i64>
    requires k <= |s|
  {
    if k == 0 then [] else ChosenIds(v, s, k - 1) + ChosenId(v, s, k - 1)
  }

  lemma SpawnsAreFirstCandidates(v: View, s: seq<Issue>, k: nat)
    requires k <= |s|
    ensures SpawnIds(DecisionsUpTo(v, s, k)) == Take(CandidateIds(v, s, k), v.free)
  {
    SpawnsAreChosen(v, s, k);
    ChosenAreFirstCandidates(v, s, k);
  }

  lemma {:induction false} ChosenAreFirstCandidates(v: View, s: seq<Issue>, k: nat)
    requires k <= |s|
    ensures ChosenIds(v, s, k) == Take(CandidateIds(v, s, k), v.free)
  {
    if k > 0 {
      ChosenAreFirstCandidates(v, s, k - 1);
      CandidatesAreCounted(v, s, k - 1);
      TakeOfAppend(CandidateIds(v, s, k - 1), s[k - 1].id, v.free);
    }
  }

  lemma {:induction false} SpawnsAreChosen(v: View, s: seq<Issue>, k: nat)
    requires k <= |s|
    ensures SpawnIds(DecisionsUpTo(v, s, k)) == ChosenIds(v, s, k)
  {
    hide SpawnIds, DecisionsUpTo, ChosenId, ChosenIds;
    NoneChosenAtFirst(v, s);
    if k > 0 {
      SpawnsAreChosen(v, s, k - 1);
      DecisionSpawns(v, s, k - 1);
      OneMoreChosen(v, s, k - 1);
    }
  }

  lemma NoneChosenAtFirst(v: View, s: seq<Issue>)
    ensures SpawnIds(DecisionsUpTo(v, s, 0)) == ChosenIds(v, s, 0) == []
  {
  }

  lemma OneMoreChosen(v: View, s: seq<Issue>, k: nat)
    requires k < |s|
    ensures ChosenIds(v, s, k + 1) == ChosenIds(v, s, k) + ChosenId(v, s, k)
  {
    hide ChosenId;
  }

  lemma DecisionSpawns(v: View, s: seq<Issue>, k: nat)
    requires k < |s|
    ensures SpawnIds(DecisionsUpTo(v, s, k + 1)) == SpawnIds(DecisionsUpTo(v, s, k)) + ChosenId(v, s, k)
  {
    var before, at := DecisionsUpTo(v, s, k), DecisionAt(v, s, k);
    if at == [] {
      assert before + at == before;
    } else {
      SpawnIdsOfAppend(before, at[0]);
    }
  }

  /** Appending issues that need no lane appends exactly the idle ones among them. */
  lemma {:induction false} CandidatesOfConcat(v: View, a: seq<Issue>, b: seq<Issue>, k: nat)
    requires k <= |b| && forall issue <- b :: !NeedsLane(v, issue)
    ensures CandidateIds(v, a + b, |a| + k) == CandidateIds(v, a, |a|) + IdleOthers(v, b[..k])
  {
    if k > 0 {
      CandidatesOfConcat(v, a, b, k - 1);
      assert b[..k][..k - 1] == b[..k - 1];
      assert (a + b)[|a| + k - 1] == b[k - 1];
    } else {
      CandidatesOfPrefix(v, a, b, |a|);
    }
  }

  lemma {:induction false} CandidatesOfPrefix(v: View, a: seq<Issue>, b: seq<Issue>, k: nat)
    requires k <= |a|
    ensures CandidateIds(v, a + b, k) == CandidateIds(v, a, k)
  {
    if k > 0 {
      CandidatesOfPrefix(v, a, b, k - 1);
      assert forall j :: 0 <= j < k ==> (a + b)[j] == a[j];
    }
  }

  predicate SortedById(s: seq<Issue>) {
    forall i, j :: 0 <= i < j < |s| ==> AsUsize(s[i].id) <= AsUsize(s[j].id)
  }

  /** Among issues that all need the lane, in id order, only the first idle one is a candidate. */
  lemma {:induction false} LaneCandidates(v: View, m: seq<Issue>, k: nat)
    requires k <= |m| && SortedById(m) && forall issue <- m :: NeedsLane(v, issue)
    ensures !v.laneOpen || !IdleMergeBefore(v, m, k) ==> CandidateIds(v, m, k) == []
    ensures v.laneOpen && IdleMergeBefore(v, m, k) ==>
              exists h :: 0 <= h < k && Idle(v, m[h]) && CandidateIds(v, m, k) == [m[h].id]
                          && forall j :: 0 <= j < |m| && Idle(v, m[j]) ==> AsUsize(m[h].id) <= AsUsize(m[j].id)
  {
    if k > 0 {
      LaneCandidates(v, m, k - 1);
    }
  }

  function MergeEntries(issues: seq<Issue>, from: nat): seq<Entry> {
    if issues == [] then []
    else if issues[0].status == Merging then Insert(Entry(from, issues[0]), MergeEntries(issues[1..], from + 1))
    else MergeEntries(issues[1..], from + 1)
  }

  function RestEntries(issues: seq<Issue>, from: nat): seq<Entry> {
    if issues == [] then []
    else if issues[0].status == Merging then RestEntries(issues[1..], from + 1)
    else [Entry(from, issues[0])] + RestEntries(issues[1..], from + 1)
  }

  predicate SortedMerges(es: seq<Entry>) {
    && (forall e <- es :: e.issue.status == Merging)
    && (forall i, j :: 0 <= i < j < |es| ==> es[i].Key() <= es[j].Key())
  }

  lemma {:induction false} InsertKeepsSortedMerges(e: Entry, es: seq<Entry>)
    requires SortedMerges(es) && e.issue.status == Merging
    ensures SortedMerges(Insert(e, es))
    ensures forall x :: x in Insert(e, es) <==> x == e || x in es
  {
    if es != [] && !e.KeyAtMost(es[0]) {
      InsertKeepsSortedMerges(e, es[1..]);
      assert es == [es[0]] + es[1..];
      var rest := Insert(e, es[1..]);
      forall x <- rest ensures es[0].Key() <= x.Key() {
        assert x == e || x in es[1..];
      }
    }
  }

  lemma {:induction false} MergeEntriesSorted(issues: seq<Issue>, from: nat)
    ensures SortedMerges(MergeEntries(issues, from))
    ensures forall e <- MergeEntries(issues, from) :: e.issue in issues
  {
    if issues != [] {
      MergeEntriesSorted(issues[1..], from + 1);
      if issues[0].status == Merging {
        InsertKeepsSortedMerges(Entry(from, issues[0]), MergeEntries(issues[1..], from + 1));
      }
    }
  }

  lemma {:induction false} MergeEntriesComplete(issues: seq<Issue>, from: nat, issue: Issue)
    requires issue in issues && issue.status == Merging
    ensures exists k :: 0 <= k < |MergeEntries(issues, from)| && MergeEntries(issues, from)[k].issue == issue
  {
    var e: Entry;
    if issues[0] == issue {
      e := Entry(from, issue);
    } else {
      MergeEntriesComplete(issues[1..], from + 1, issue);
      var k :| 0 <= k < |MergeEntries(issues[1..], from + 1)| && MergeEntries(issues[1..], from + 1)[k].issue == issue;
      e := MergeEntries(issues[1..], from + 1)[k];
    }
    MergeEntriesSorted(issues[1..], from + 1);
    if issues[0].status == Merging {
      InsertKeepsSortedMerges(Entry(from, issues[0]), MergeEntries(issues[1..], from + 1));
    }
    assert e in MergeEntries(issues, from);
  }

  lemma {:induction false} InsertMergeBeforeRest(e: Entry, m: seq<Entry>, r: seq<Entry>)
    requires e.Rank() == 0 && forall x <- r :: x.Rank() == 1
    ensures Insert(e, m + r) == Insert(e, m) + r
  {
    if m != [] && !e.KeyAtMost(m[0]) {
      InsertMergeBeforeRest(e, m[1..], r);
      assert (m + r)[1..] == m[1..] + r;
    } else if m == [] {
      assert m + r == r;
    } else {
      assert [e] + (m + r) == [e] + m + r;
    }
  }

  lemma {:induction false} InsertRestAfterMerges(e: Entry, m: seq<Entry>, r: seq<Entry>)
    requires e.Rank() == 1 && (forall x <- m :: x.Rank() == 0)
    requires forall x <- r :: x.Rank() == 1 && e.Key() <= x.Key()
    ensures Insert(e, m + r) == m + [e] + r
  {
    if m != [] {
      InsertRestAfterMerges(e, m[1..], r);
      assert (m + r)[1..] == m[1..] + r;
      assert m + [e] + r == [m[0]] + (m[1..] + [e] + r);
    } else {
      assert m + r == r;
    }
  }

  lemma InsertPutsMergesFirst(e: Entry, m: seq<Entry>, r: seq<Entry>)
    requires (forall x <- m :: x.Rank() == 0) && (forall x <- r :: x.Rank() == 1 && e.index < x.Key())
    ensures Insert(e, m + r) == if e.Rank() == 0 then Insert(e, m) + r else m + ([e] + r)
  {
    if e.Rank() == 0 {
      InsertMergeBeforeRest(e, m, r);
    } else {
      InsertRestAfterMerges(e, m, r);
      assert m + [e] + r == m + ([e] + r);
    }
  }

  lemma {:induction false} SortPutsMergesFirst(issues: seq<Issue>, from: nat)
    ensures StableSort(Enumerate(issues, from)) == MergeEntries(issues, from) + RestEntries(issues, from)
    ensures forall e <- RestEntries(issues, from) :: e.Rank() == 1 && from <= e.Key()
  {
    if issues != [] {
      SortPutsMergesFirst(issues[1..], from + 1);
      MergeEntriesSorted(issues[1..], from + 1);
      var merges, rest := MergeEntries(issues[1..], from + 1), RestEntries(issues[1..], from + 1);
      InsertPutsMergesFirst(Entry(from, issues[0]), merges, rest);
      assert Enumerate(issues, from)[1..] == Enumerate(issues[1..], from + 1);
    }
  }

  lemma {:induction false} IssuesOfConcat(a: seq<Entry>, b: seq<Entry>)
    ensures Issues(a + b) == Issues(a) + Issues(b)
  {
    if a == [] {
      assert a + b == b;
    } else {
      IssuesOfConcat(a[1..], b);
      assert (a + b)[1..] == a[1..] + b;
      assert [a[0].issue] + (Issues(a[1..]) + Issues(b)) == [a[0].issue] + Issues(a[1..]) + Issues(b);
    }
  }

  lemma {:induction false} IssuesAreThoseOfEntries(a: seq<Entry>)
    ensures |Issues(a)| == |a| && forall k :: 0 <= k < |a| ==> Issues(a)[k] == a[k].issue
  {
    if a != [] {
      IssuesAreThoseOfEntries(a[1..]);
      forall k | 0 <= k < |a| ensures Issues(a)[k] == a[k].issue {
        assert k > 0 ==> Issues(a)[k] == Issues(a[1..])[k - 1] && a[k] == a[1..][k - 1];
      }
    }
  }

  /** What is left after the merging issues keeps the list order, so its idle ids are those of the list. */
  lemma {:induction false} RestKeepsListOrder(issues: seq<Issue>, from: nat)
    ensures Issues(RestEntries(issues, from)) == NonMerging(issues)
  {
    if issues != [] {
      RestKeepsListOrder(issues[1..], from + 1);
    }
  }

  function NonMerging(issues: seq<Issue>): seq<Issue> {
    if issues == [] then []
    else (if issues[0].status == Merging then [] else [issues[0]]) + NonMerging(issues[1..])
  }

  lemma {:induction false} IdleOthersFromFront(v: View, issues: seq<Issue>)
    requires issues != []
    ensures IdleOthers(v, issues)
            == (if Idle(v, issues[0]) && !NeedsLane(v, issues[0]) then [issues[0].id] else [])
               + IdleOthers(v, issues[1..])
  {
    var n := |issues|;
    if n > 1 {
      IdleOthersFromFront(v, issues[..n - 1]);
      assert issues[..n - 1][1..] == issues[1..][..n - 2];
    }
  }

  lemma {:induction false} IdleOthersOfNonMerging(v: View, issues: seq<Issue>)
    requires v.project.mergeMode.Local?
    ensures IdleOthers(v, NonMerging(issues)) == IdleOthers(v, issues)
    ensures forall issue <- NonMerging(issues) :: issue in issues && issue.status != Merging
  {
    if issues != [] {
      IdleOthersOfNonMerging(v, issues[1..]);
      IdleOthersFromFront(v, issues);
      if issues[0].status != Merging {
        IdleOthersFromFront(v, NonMerging(issues));
        assert NonMerging(issues)[1..] == NonMerging(issues[1..]);
      } else {
        assert NonMerging(issues) == NonMerging(issues[1..]);
      }
    }
  }

  predicate IdleMerge(v: View, issue: Issue) {
    Idle(v, issue) && NeedsLane(v, issue)
  }

  /** The issue the merge lane goes to: idle, merging, and of least id among those. */
  ghost predicate LeadsLane(v: View, issues: seq<Issue>, id: i64) {
    && (exists issue <- issues :: IdleMerge(v, issue) && issue.id == id)
    && (forall issue <- issues :: IdleMerge(v, issue) ==> AsUsize(id) <= AsUsize(issue.id))
  }

  lemma SpawnsByView(issues: seq<Issue>, project: Project, running: set<int>, now: int) returns (head: seq<i64>)
    ensures var v := ViewOf(issues, project, running, now);
            && SpawnIds(Decisions(issues, project, running, now)) == Take(head + IdleOthers(v, issues), v.free)
            && |head| <= 1
            && (head != [] <==> v.laneOpen && exists issue <- issues :: IdleMerge(v, issue))
            && (head != [] ==> LeadsLane(v, issues, head[0]))
  {
    var v := ViewOf(issues, project, running, now);
    var s := DispatchOrder(issues, project.mergeMode);
    SpawnsAreFirstCandidates(v, s, |s|);
    if project.mergeMode.Pr? {
      head := [];
      AllCandidates(v, [], issues);
      assert [] + issues == issues;
    } else {
      var m := MergesInOrder(issues);
      IdleOthersOfNonMerging(v, issues);
      AllCandidates(v, m, NonMerging(issues));
      head := LaneHead(v, issues, m);
    }
  }

  lemma ViewMeans(issues: seq<Issue>, project: Project, running: set<int>, now: int)
    ensures var v, room := ViewOf(issues, project, running, now), project.maxConcurrency - |running|;
            && v.free == (if room > 0 then room else 0)
            && (project.mergeMode == Local ==>
                  (v.laneOpen
                   <==> && (forall issue <- issues :: issue.status != ConflictBlocked)
                        && (forall issue <- issues :: issue.status == Merging ==> issue.id !in running)))
  {
  }

  /**
    The spawned issues are exactly the first free-slots-many of: the least-id idle merging issue when
    the lane is open, then every other idle actionable issue in list order.
   */
  lemma SpawnsExactly(issues: seq<Issue>, project: Project, running: set<int>, now: int) returns (head: seq<i64>)
    ensures var v := ViewOf(issues, project, running, now);
            var room := project.maxConcurrency - |running|;
            && SpawnIds(Decisions(issues, project, running, now))
               == Take(head + IdleOthers(v, issues), if room > 0 then room else 0)
            && |head| <= 1
            && (head != [] <==>
                  && (forall issue <- issues :: issue.status != ConflictBlocked)
                  && (forall issue <- issues :: issue.status == Merging ==> issue.id !in running)
                  && (exists issue <- issues :: IdleMerge(v, issue)))
            && (head != [] ==> LeadsLane(v, issues, head[0]))
  {
    head := SpawnsByView(issues, project, running, now);
    ViewMeans(issues, project, running, now);
    MergesNeedLocal(issues, project, running, now);
    hide ViewOf, IdleMerge, IdleOthers, LeadsLane, Decisions, SpawnIds, Take;
  }

  lemma MergesNeedLocal(issues: seq<Issue>, project: Project, running: set<int>, now: int)
    ensures (exists issue <- issues :: IdleMerge(ViewOf(issues, project, running, now), issue)) ==>
              project.mergeMode == Local
  {
  }

  lemma AllCandidates(v: View, a: seq<Issue>, b: seq<Issue>)
    requires forall issue <- b :: !NeedsLane(v, issue)
    ensures CandidateIds(v, a + b, |a + b|) == CandidateIds(v, a, |a|) + IdleOthers(v, b)
  {
    CandidatesOfConcat(v, a, b, |b|);
    assert b[..|b|] == b && |a + b| == |a| + |b|;
  }

  lemma LaneHead(v: View, issues: seq<Issue>, m: seq<Issue>) returns (head: seq<i64>)
    requires v.project.mergeMode.Local? && SortedById(m)
    requires forall issue :: issue in m <==> issue in issues && issue.status == Merging
    ensures head == CandidateIds(v, m, |m|)
    ensures |head| <= 1
    ensures head != [] <==> v.laneOpen && exists issue <- issues :: IdleMerge(v, issue)
    ensures head != [] ==> LeadsLane(v, issues, head[0])
  {
    LaneCandidates(v, m, |m|);
    head := CandidateIds(v, m, |m|);
    IdleMergesListed(v, issues, m);
  }

  /** Local dispatch order: the merging issues by id, then the others as listed. */
  lemma MergesInOrder(issues: seq<Issue>) returns (m: seq<Issue>)
    ensures DispatchOrder(issues, Local) == m + NonMerging(issues)
    ensures SortedById(m)
    ensures forall issue :: issue in m <==> issue in issues && issue.status == Merging
  {
    var merges, rest := MergeEntries(issues, 0), RestEntries(issues, 0);
    SortPutsMergesFirst(issues, 0);
    MergeEntriesSorted(issues, 0);
    IssuesOfConcat(merges, rest);
    IssuesAreThoseOfEntries(merges);
    RestKeepsListOrder(issues, 0);
    m := Issues(merges);
    forall issue | issue in issues && issue.status == Merging ensures issue in m {
      MergeEntriesComplete(issues, 0, issue);
      var k :| 0 <= k < |merges| && merges[k].issue == issue;
      assert m[k] == issue;
    }
  }

  lemma IdleMergesListed(v: View, issues: seq<Issue>, m: seq<Issue>)
    requires forall issue :: issue in m <==> issue in issues && issue.status == Merging
    ensures (exists issue <- issues :: IdleMerge(v, issue))
            <==> v.project.mergeMode.Local? && IdleMergeBefore(v, m, |m|)
  {
    if issue :| issue in issues && IdleMerge(v, issue) {
      var k :| 0 <= k < |m| && m[k] == issue;
    }
  }

  lemma {:induction false} IdleOthersAreListed(v: View, issues: seq<Issue>)
    ensures forall id <- IdleOthers(v, issues) ::
                exists issue <- issues :: issue.id == id && Idle(v, issue) && !NeedsLane(v, issue)
  {
    if issues != [] {
      IdleOthersAreListed(v, issues[..|issues| - 1]);
    }
  }

  predicate UniqueIds(issues: seq<Issue>) {
    forall i, j :: 0 <= i < j < |issues| ==> issues[i].id != issues[j].id
  }

  lemma {:induction false} IdleOthersAreDistinct(v: View, issues: seq<Issue>)
    requires UniqueIds(issues)
    ensures NoDuplicates(IdleOthers(v, issues))
  {
    if issues != [] {
      var n := |issues| - 1;
      IdleOthersAreDistinct(v, issues[..n]);
      IdleOthersAreListed(v, issues[..n]);
      forall id <- IdleOthers(v, issues[..n]) ensures id != issues[n].id {
        var k :| 0 <= k < n && issues[..n][k].id == id;
        assert issues[k].id == id;
      }
      NoDuplicatesOfConcat(IdleOthers(v, issues[..n]), [issues[n].id]);
    }
  }

  /** No issue is spawned twice by one tick, and each spawned one is idle; at most one takes the lane. */
  lemma SpawnsAreDistinctAndIdle(issues: seq<Issue>, project: Project, running: set<int>, now: int)
    requires UniqueIds(issues)
    ensures var v := ViewOf(issues, project, running, now);
            var spawned := SpawnIds(Decisions(issues, project, running, now));
            && NoDuplicates(spawned) && |spawned| <= FreeSlots(project, running)
            && (forall issue <- issues :: issue.id in spawned ==> Idle(v, issue))
            && (forall id <- spawned :: exists issue <- issues :: issue.id == id)
            && (forall a <- issues, b <- issues ::
                  a.id in spawned && b.id in spawned && NeedsLane(v, a) && NeedsLane(v, b) ==> a == b)
            && (forall a <- issues :: a.id in spawned && NeedsLane(v, a) ==> v.laneOpen)
  {
    var v := ViewOf(issues, project, running, now);
    var head := SpawnsByView(issues, project, running, now);
    HeadMerges(v, issues, head);
    OthersNeedNoLane(v, issues);
    IdleOthersAreDistinct(v, issues);
    var others := IdleOthers(v, issues);
    TakenFrom(head, others, FreeSlots(project, running));
    hide Idle, NeedsLane, IdleMerge, LeadsLane, IdleOthers, Decisions, SpawnIds, ViewOf, Take, FreeSlots;
    assert UniqueById(issues);
    hide UniqueIds;
  }

  lemma TakenFrom(head: seq<i64>, others: seq<i64>, n: nat)
    requires |head| <= 1 && NoDuplicates(others) && (head != [] ==> head[0] !in others)
    ensures var taken := Take(head + others, n);
            && NoDuplicates(taken) && |taken| <= n
            && forall id <- taken :: id in others || (head != [] && id == head[0])
  {
    NoDuplicatesOfConcat(head, others);
    var all, taken := head + others, Take(head + others, n);
    forall k | 0 <= k < |taken| ensures taken[k] in others || (head != [] && taken[k] == head[0]) {
      assert taken[k] == all[k];
    }
  }

  /** Of unique ids, the one at the head is of an idle merging issue and of no other. */
  lemma HeadMerges(v: View, issues: seq<Issue>, head: seq<i64>)
    requires UniqueIds(issues) && |head| <= 1 && (head != [] ==> LeadsLane(v, issues, head[0]))
    ensures head != [] ==> exists issue <- issues :: issue.id == head[0]
    ensures forall a <- issues :: head != [] && a.id == head[0] ==> Idle(v, a) && NeedsLane(v, a)
    ensures head != [] ==> head[0] !in IdleOthers(v, issues)
  {
    assert UniqueById(issues);
    if head != [] {
      OthersNeedNoLane(v, issues);
      var a :| a in issues && IdleMerge(v, a) && a.id == head[0];
    }
  }

  lemma OthersNeedNoLane(v: View, issues: seq<Issue>)
    requires UniqueIds(issues)
    ensures forall a <- issues :: a.id in IdleOthers(v, issues) ==> Idle(v, a) && !NeedsLane(v, a)
    ensures forall id <- IdleOthers(v, issues) :: exists issue <- issues :: issue.id == id
  {
    assert UniqueById(issues);
    IdleOthersAreListed(v, issues);
    forall a <- issues | a.id in IdleOthers(v, issues) ensures Idle(v, a) && !NeedsLane(v, a) {
      var b :| b in issues && b.id == a.id && Idle(v, b) && !NeedsLane(v, b);
      assert a == b;
    }
  }

  predicate UniqueById(issues: seq<Issue>) {
    forall a <- issues, b <- issues :: a.id == b.id ==> a == b
  }

  /** The gate and teardown decisions the issues call for, in dispatch order. */
  function AllGates(v: View, s: seq<Issue>): seq<Decision> {
    if s == [] then [] else AllGates(v, s[..|s| - 1]) + Gates(v, s[|s| - 1])
  }

  /** Gates and teardowns are those of the issue list, whatever the cap and the running set are. */
  lemma GatesIgnoreSlots(issues: seq<Issue>, project: Project, running: set<int>, now: int,
                         otherCap: int, otherRunning: set<int>)
    ensures WithoutSpawns(Decisions(issues, project, running, now))
            == AllGates(ViewOf(issues, project, running, now), DispatchOrder(issues, project.mergeMode))
            == WithoutSpawns(Decisions(issues, project.(maxConcurrency := otherCap), otherRunning, now))
  {
    var s := DispatchOrder(issues, project.mergeMode);
    var v := ViewOf(issues, project, running, now);
    var w := ViewOf(issues, project.(maxConcurrency := otherCap), otherRunning, now);
    GatesUpTo(v, s, |s|);
    GatesUpTo(w, s, |s|);
    assert s[..|s|] == s;
    AllGatesIgnoreView(v, w, s);
  }

  lemma {:induction false} GatesUpTo(v: View, s: seq<Issue>, k: nat)
    requires k <= |s|
    ensures WithoutSpawns(DecisionsUpTo(v, s, k)) == AllGates(v, s[..k])
  {
    hide WithoutSpawns, DecisionsUpTo, AllGates;
    if k > 0 {
      GatesUpTo(v, s, k - 1);
      AppendDecision(v, s, k);
      AppendGates(v, s, k);
    } else {
      NoGatesAtFirst(v, s);
    }
  }

  lemma NoGatesAtFirst(v: View, s: seq<Issue>)
    ensures WithoutSpawns(DecisionsUpTo(v, s, 0)) == AllGates(v, s[..0]) == []
  {
  }

  lemma AppendGates(v: View, s: seq<Issue>, k: nat)
    requires 0 < k <= |s|
    ensures AllGates(v, s[..k]) == AllGates(v, s[..k - 1]) + Gates(v, s[k - 1])
  {
    hide Gates;
    assert s[..k][..k - 1] == s[..k - 1];
  }

  lemma {:induction false} AllGatesIgnoreView(v: View, w: View, s: seq<Issue>)
    requires v.now == w.now && w.project == v.project.(maxConcurrency := w.project.maxConcurrency)
    ensures AllGates(v, s) == AllGates(w, s)
  {
    if s != [] {
      AllGatesIgnoreView(v, w, s[..|s| - 1]);
    }
  }

  lemma AppendDecision(v: View, s: seq<Issue>, k: nat)
    requires 0 < k <= |s|
    ensures WithoutSpawns(DecisionsUpTo(v, s, k))
            == WithoutSpawns(DecisionsUpTo(v, s, k - 1)) + Gates(v, s[k - 1])
  {
    hide DecisionAt, Gates;
    var before, at := DecisionsUpTo(v, s, k - 1), DecisionAt(v, s, k - 1);
    SpawnOrGates(v, s, k - 1);
    if at == [] {
      assert before + at == before;
    } else {
      assert (before + at)[..|before + at| - 1] == before;
    }
  }

  lemma SpawnOrGates(v: View, s: seq<Issue>, k: nat)
    requires k < |s|
    ensures |DecisionAt(v, s, k)| <= 1
    ensures DecisionAt(v, s, k) == [] ==> Gates(v, s[k]) == []
    ensures DecisionAt(v, s, k) != [] ==>
              Gates(v, s[k]) == if DecisionAt(v, s, k)[0].Spawn? then [] else DecisionAt(v, s, k)
  {
    hide SoftGateDue, CandidatesBefore;
  }

  // ---------------------------------------------------------------- what each decision means

  /** The decision made for the `k`-th issue in dispatch order, if any, is in the list. */
  lemma {:induction false} DecisionIsMade(v: View, s: seq<Issue>, k: nat, n: nat)
    requires k < n <= |s|
    ensures forall d <- DecisionAt(v, s, k) :: d in DecisionsUpTo(v, s, n)
  {
    hide DecisionAt;
    if k < n - 1 {
      DecisionIsMade(v, s, k, n - 1);
    }
  }

  lemma {:induction false} DecidedIsInOrder(v: View, s: seq<Issue>, k: nat, d: Decision)
    requires k <= |s| && d in DecisionsUpTo(v, s, k)
    ensures exists j :: 0 <= j < k && d in DecisionAt(v, s, j)
  {
    hide DecisionAt;
    if k > 0 && d in DecisionsUpTo(v, s, k - 1) {
      DecidedIsInOrder(v, s, k - 1, d);
    }
  }

  /** What is decided for one issue, in terms of its row. */
  lemma DecisionMeans(v: View, s: seq<Issue>, k: nat, d: Decision)
    requires k < |s|
    ensures d in DecisionAt(v, s, k) ==> d.id == s[k].id
    ensures d.Teardown? ==>
              (d in DecisionAt(v, s, k)
               <==> d.id == s[k].id && s[k].status in {Done, Abandoned} && s[k].hasWorktree)
    ensures d.SoftGate? ==> (d in DecisionAt(v, s, k) <==> d.id == s[k].id && IsDueGate(s[k], v.project, v.now))
    ensures d.Spawn? && d in DecisionAt(v, s, k) ==> IsActionable(s[k].status)
  {
    hide CandidatesBefore;
  }

  /** A gate that releases itself by the project's policy, with no deadline yet or one that has passed. */
  predicate IsDueGate(issue: Issue, project: Project, now: int) {
    && (|| issue.status == PlanReady
        || (&& issue.status == ReadyToMerge && project.mergeMode == Local
            && project.completionPolicy in {CompletionPolicy.Soft, CompletionPolicy.Auto}))
    && (issue.waitUntil == None || (issue.waitUntil.Some? && issue.waitUntil.value <= now))
  }

  /** Dispatch order lists the listed issues. */
  lemma OrderKeepsIssues(issues: seq<Issue>, mode: MergeMode)
    ensures forall issue :: issue in DispatchOrder(issues, mode) <==> issue in issues
  {
    if mode.Local? {
      var m := MergesInOrder(issues);
      NonMergingAreListed(issues);
      forall issue ensures issue in m + NonMerging(issues) <==> issue in issues {
        assert issue in m + NonMerging(issues) <==> issue in m || issue in NonMerging(issues);
      }
    }
  }

  lemma {:induction false} NonMergingAreListed(issues: seq<Issue>)
    ensures forall issue :: issue in NonMerging(issues) <==> issue in issues && issue.status != Merging
  {
    if issues != [] {
      NonMergingAreListed(issues[1..]);
      assert issues == [issues[0]] + issues[1..];
    }
  }

  /** Membership of a decision comes down to that of one issue. */
  lemma DecidedIff(issues: seq<Issue>, project: Project, running: set<int>, now: int, d: Decision)
    ensures var v, s := ViewOf(issues, project, running, now), DispatchOrder(issues, project.mergeMode);
            d in Decisions(issues, project, running, now) <==> exists k :: 0 <= k < |s| && d in DecisionAt(v, s, k)
  {
    var v, s := ViewOf(issues, project, running, now), DispatchOrder(issues, project.mergeMode);
    hide DecisionAt, DecisionsUpTo;
    if d in Decisions(issues, project, running, now) {
      DecidedIsInOrder(v, s, |s|, d);
    }
    if k :| 0 <= k < |s| && d in DecisionAt(v, s, k) {
      DecisionIsMade(v, s, k, |s|);
    }
  }

  /** A worktree is torn down exactly if a listed issue is DONE or ABANDONED and has one. */
  lemma TeardownsExactly(issues: seq<Issue>, project: Project, running: set<int>, now: int, id: i64)
    ensures Teardown(id) in Decisions(issues, project, running, now) <==>
            exists issue <- issues :: issue.id == id && issue.status in {Done, Abandoned} && issue.hasWorktree
  {
    var v, s := ViewOf(issues, project, running, now), DispatchOrder(issues, project.mergeMode);
    OrderKeepsIssues(issues, project.mergeMode);
    DecidedIff(issues, project, running, now, Teardown(id));
    hide Decisions, DispatchOrder, DecisionAt;
    forall k | 0 <= k < |s|
      ensures Teardown(id) in DecisionAt(v, s, k)
              <==> id == s[k].id && s[k].status in {Done, Abandoned} && s[k].hasWorktree
    {
      DecisionMeans(v, s, k, Teardown(id));
    }
    if issue :| issue in issues && issue.id == id && issue.status in {Done, Abandoned} && issue.hasWorktree {
      var k :| 0 <= k < |s| && s[k] == issue;
    }
  }

  /** A gate is visited exactly if a listed issue is at one that releases itself and is due. */
  lemma GatesExactly(issues: seq<Issue>, project: Project, running: set<int>, now: int, id: i64)
    ensures SoftGate(id) in Decisions(issues, project, running, now) <==>
            exists issue <- issues :: issue.id == id && IsDueGate(issue, project, now)
  {
    var v, s := ViewOf(issues, project, running, now), DispatchOrder(issues, project.mergeMode);
    OrderKeepsIssues(issues, project.mergeMode);
    DecidedIff(issues, project, running, now, SoftGate(id));
    hide Decisions, DispatchOrder, DecisionAt, IsDueGate;
    forall k | 0 <= k < |s|
      ensures SoftGate(id) in DecisionAt(v, s, k) <==> id == s[k].id && IsDueGate(s[k], project, now)
    {
      DecisionMeans(v, s, k, SoftGate(id));
    }
    if issue :| issue in issues && issue.id == id && IsDueGate(issue, project, now) {
      var k :| 0 <= k < |s| && s[k] == issue;
    }
  }

  lemma DecidedIsListed(issues: seq<Issue>, project: Project, running: set<int>, now: int, d: Decision)
    requires d in Decisions(issues, project, running, now)
    ensures exists issue <- issues :: issue.id == d.id
  {
    var v, s := ViewOf(issues, project, running, now), DispatchOrder(issues, project.mergeMode);
    OrderKeepsIssues(issues, project.mergeMode);
    DecidedIff(issues, project, running, now, d);
    hide Decisions, DispatchOrder, DecisionAt;
    var k :| 0 <= k < |s| && d in DecisionAt(v, s, k);
    DecisionMeans(v, s, k, d);
  }

  // ---------------------------------------------------------------- one decision for each issue

  predicate DistinctDecisions(ds: seq<Decision>) {
    forall i, j :: 0 <= i < j < |ds| ==> ds[i].id != ds[j].id
  }

  lemma {:induction false} OrderedAreDistinct(v: View, s: seq<Issue>, k: nat)
    requires UniqueIds(s) && k <= |s|
    ensures DistinctDecisions(DecisionsUpTo(v, s, k))
  {
    if k > 0 {
      OrderedAreDistinct(v, s, k - 1);
      var before, at := DecisionsUpTo(v, s, k - 1), DecisionAt(v, s, k - 1);
      SpawnOrGates(v, s, k - 1);
      hide DecisionAt;
      forall i | 0 <= i < |before| && at != [] ensures before[i].id != at[0].id {
        assert before[i] in before;
        DecidedIsInOrder(v, s, k - 1, before[i]);
        var j :| 0 <= j < k - 1 && before[i] in DecisionAt(v, s, j);
        DecisionMeans(v, s, j, before[i]);
        DecisionMeans(v, s, k - 1, at[0]);
      }
    }
  }

  lemma {:induction false} SortKeepsIds(entries: seq<Entry>)
    ensures multiset(Issues(StableSort(entries))) == multiset(Issues(entries))
  {
    if entries != [] {
      SortKeepsIds(entries[1..]);
      InsertAdds(entries[0], StableSort(entries[1..]));
    }
  }

  lemma {:induction false} InsertAdds(e: Entry, sorted: seq<Entry>)
    ensures multiset(Issues(Insert(e, sorted))) == multiset(Issues(sorted)) + multiset{e.issue}
  {
    hide Entry.KeyAtMost;
    if sorted == [] || e.KeyAtMost(sorted[0]) {
      assert ([e] + sorted)[1..] == sorted;
    } else {
      InsertAdds(e, sorted[1..]);
      var rest := Insert(e, sorted[1..]);
      assert ([sorted[0]] + rest)[1..] == rest;
    }
  }

  lemma {:induction false} EnumerateKeepsIssues(issues: seq<Issue>, from: nat)
    ensures Issues(Enumerate(issues, from)) == issues
  {
    if issues != [] {
      EnumerateKeepsIssues(issues[1..], from + 1);
      var rest := Enumerate(issues[1..], from + 1);
      assert ([Entry(from, issues[0])] + rest)[1..] == rest;
    }
  }

  /** Dispatch order is a permutation, so it keeps unique ids. */
  lemma OrderIsPermutation(issues: seq<Issue>, mode: MergeMode)
    ensures multiset(DispatchOrder(issues, mode)) == multiset(issues)
  {
    if mode.Local? {
      SortKeepsIds(Enumerate(issues, 0));
      EnumerateKeepsIssues(issues, 0);
    }
  }

  lemma PermutationKeepsUniqueIds(a: seq<Issue>, b: seq<Issue>)
    requires multiset(a) == multiset(b) && UniqueIds(a)
    ensures UniqueIds(b)
  {
    forall i, j | 0 <= i < j < |b| ensures b[i].id != b[j].id {
      if b[i].id == b[j].id {
        assert b[i] in multiset(a) && b[j] in multiset(a);
        assert UniqueById(a);
        TwiceIsTwo(b, i, j);
        OnceEach(a, b[i]);
        assert false;
      }
    }
  }

  lemma TwiceIsTwo(s: seq<Issue>, i: nat, j: nat)
    requires i < j < |s| && s[i] == s[j]
    ensures multiset(s)[s[i]] >= 2
  {
    assert s == s[..j] + [s[j]] + s[j + 1..];
    assert s[..j] == s[..i] + [s[i]] + s[i + 1..j];
  }

  lemma {:induction false} OnceEach(s: seq<Issue>, issue: Issue)
    requires UniqueIds(s)
    ensures multiset(s)[issue] <= 1
  {
    if s != [] {
      var n := |s| - 1;
      OnceEach(s[..n], issue);
      assert s == s[..n] + [s[n]];
      assert forall k :: 0 <= k < n ==> s[..n][k] == s[k] && s[k].id != s[n].id;
      assert s[n] !in s[..n];
    }
  }

  /** For unique ids the tick decides at most one thing for each issue. */
  lemma OneDecisionEach(issues: seq<Issue>, project: Project, running: set<int>, now: int)
    requires UniqueIds(issues)
    ensures DistinctDecisions(Decisions(issues, project, running, now))
  {
    var s := DispatchOrder(issues, project.mergeMode);
    OrderIsPermutation(issues, project.mergeMode);
    PermutationKeepsUniqueIds(issues, s);
    OrderedAreDistinct(ViewOf(issues, project, running, now), s, |s|);
  }
}
