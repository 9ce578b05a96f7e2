/**
  Remote synchronization of one project: a pure plan of provider actions for an issue, queue rows made
  from it, and their serial execution, which plans again and acts only if the plan still asks for it.
 */
module Remote {
  import opened Wrappers
  import S = IssueState
  import Text

  datatype Config = Config(
    outboundIssueCreate: bool, remotePrMerge: bool, draftPr: bool, requireGreen: bool, prBaseBranch: Option<string>,
    syncAgentNotes: bool, syncSubtasks: bool, syncFindings: bool)

  datatype Issue = Issue(status: S.Status, branch: Option<string>, hasSummary: bool, hasSubtasks: bool,
                         hasFindings: bool)

  datatype PrState = Open | Closed | Merged

  datatype PrLink = PrLink(number: int, state: PrState)

  datatype Target = IssueThread | PullRequestThread

  datatype Action =
    | CreateIssue(issue: int)
    | CreateOrUpdatePr(issue: int, head: string, base: string, draft: bool, requireGreen: bool)
    | PostComment(issue: int, target: Target)

  datatype Blocker =
    | MissingConfig | OutboundIssueCreateDisabled | RemotePrMergeDisabled | MissingBranch
    | MissingRemoteIssueLink | PullRequestAlreadyMerged

  datatype Kind = WebhookRun | IssueRun | CommentRun | PrRun

  function KindOf(action: Action): Kind {
    match action
    case CreateIssue(_) => IssueRun
    case CreateOrUpdatePr(_, _, _, _, _) => PrRun
    case PostComment(_, _) => CommentRun
  }

  datatype RunStatus = Queued | Running | Done | Failed | Skipped

  datatype Run = Run(kind: Kind, issue: Option<int>, status: RunStatus)

  /** An issue the provider has opened for a local issue. */
  datatype Creation = Creation(issue: int, number: int)

  datatype Db = Db(
    config: Option<Config>, issues: map<int, Issue>,
    issueLinks: map<int, int>,        // local issue to remote number
    prLinks: map<int, PrLink>,
    runs: map<int, Run>,
    created: seq<Creation>)           // the provider's side

  // ---------------------------------------------------------------- planning

  predicate NonBlank(s: Option<string>) {
    s.Some? && Text.Trim(s.value) != ""
  }

  predicate WantsComment(config: Config, issue: Issue) {
    || (issue.hasSummary && config.syncAgentNotes)
    || (issue.hasSubtasks && config.syncSubtasks)
    || (issue.hasFindings && config.syncFindings)
  }

  /** The plan under construction; each planner pushes at most one action or one blocker. */
  class WorkflowPlan {
    var actions: seq<Action>
    var blockers: seq<Blocker>

    constructor ()
      ensures actions == [] && blockers == []
    {
      actions, blockers := [], [];
    }

    method PlanRemoteIssue(config: Config, id: int, linked: bool)
      modifies this
      ensures actions == old(actions) + if !linked && config.outboundIssueCreate then [CreateIssue(id)] else []
      ensures blockers == old(blockers) +
                          if !linked && !config.outboundIssueCreate then [OutboundIssueCreateDisabled] else []
    {
      if linked {
        return;
      }
      if !config.outboundIssueCreate {
        blockers := blockers + [OutboundIssueCreateDisabled];
        return;
      }
      actions := actions + [CreateIssue(id)];
    }

    method PlanProgressComment(config: Config, id: int, issue: Issue, linked: bool, pr: Option<PrLink>)
      modifies this
      ensures actions == old(actions) + CommentActions(config, id, issue, linked, pr)
      ensures blockers == old(blockers) +
                          if WantsComment(config, issue) && pr.None? && !linked then [MissingRemoteIssueLink] else []
    {
      if !WantsComment(config, issue) {
        return;
      }
      if pr.Some? {
        actions := actions + [PostComment(id, PullRequestThread)];
      } else if linked {
        actions := actions + [PostComment(id, IssueThread)];
      } else {
        blockers := blockers + [MissingRemoteIssueLink];
      }
    }

    method PlanPullRequest(config: Config, id: int, issue: Issue, pr: Option<PrLink>)
      modifies this
      ensures actions == old(actions) +
                         if PrBlocker(config, issue, pr) == Some(None) then [PrAction(config, id, issue)] else []
      ensures blockers == old(blockers) +
                          if PrBlocker(config, issue, pr).Some? && PrBlocker(config, issue, pr).value.Some?
                          then [PrBlocker(config, issue, pr).value.value] else []
    {
      if issue.status != S.ReadyToMerge {
        return;
      }
      if !config.remotePrMerge {
        blockers := blockers + [RemotePrMergeDisabled];
        return;
      }
      if pr.Some? && pr.value.state == Merged {
        blockers := blockers + [PullRequestAlreadyMerged];
        return;
      }
      if !NonBlank(issue.branch) {
        blockers := blockers + [MissingBranch];
        return;
      }
      actions := actions + [PrAction(config, id, issue)];
    }
  }

  /** A progress comment goes to the pull request if there is one, else to the remote issue. */
  function CommentActions(config: Config, id: int, issue: Issue, linked: bool, pr: Option<PrLink>): seq<Action> {
    if !WantsComment(config, issue) then []
    else if pr.Some? then [PostComment(id, PullRequestThread)]
    else if linked then [PostComment(id, IssueThread)]
    else []
  }

  /** None: the issue is not ready. Some(None): a pull request is due. Otherwise why it is not. */
  function PrBlocker(config: Config, issue: Issue, pr: Option<PrLink>): Option<Option<Blocker>> {
    if issue.status != S.ReadyToMerge then None
    else if !config.remotePrMerge then Some(Some(RemotePrMergeDisabled))
    else if pr.Some? && pr.value.state == Merged then Some(Some(PullRequestAlreadyMerged))
    else if !NonBlank(issue.branch) then Some(Some(MissingBranch))
    else Some(None)
  }

  function PrAction(config: Config, id: int, issue: Issue): Action {
    CreateOrUpdatePr(id, if issue.branch.Some? then issue.branch.value else "",
                     if NonBlank(config.prBaseBranch) then config.prBaseBranch.value else "main",
                     config.draftPr, config.requireGreen)
  }

  function PrOf(db: Db, id: int): Option<PrLink> {
    if id in db.prLinks then Some(db.prLinks[id]) else None
  }

  /** The actions planned for an issue, in the order they are queued. */
  function Actions(db: Db, id: int): seq<Action>
    requires id in db.issues
  {
    match db.config
    case None => []
    case Some(config) =>
      var issue, pr, linked := db.issues[id], PrOf(db, id), id in db.issueLinks;
      (if !linked && config.outboundIssueCreate then [CreateIssue(id)] else [])
      + CommentActions(config, id, issue, linked, pr)
      + (if PrBlocker(config, issue, pr) == Some(None) then [PrAction(config, id, issue)] else [])
  }

  function Blockers(db: Db, id: int): seq<Blocker>
    requires id in db.issues
  {
    match db.config
    case None => [MissingConfig]
    case Some(config) =>
      var issue, pr, linked := db.issues[id], PrOf(db, id), id in db.issueLinks;
      var prBlocker := PrBlocker(config, issue, pr);
      (if !linked && !config.outboundIssueCreate then [OutboundIssueCreateDisabled] else [])
      + (if WantsComment(config, issue) && pr.None? && !linked then [MissingRemoteIssueLink] else [])
      + (if prBlocker.Some? && prBlocker.value.Some? then [prBlocker.value.value] else [])
  }

  /** Some agent result is there whose synchronization is switched on. */
  predicate HasNews(config: Config, issue: Issue) {
    || (config.syncAgentNotes && issue.hasSummary)
    || (config.syncSubtasks && issue.hasSubtasks)
    || (config.syncFindings && issue.hasFindings)
  }

  predicate IsPrReady(db: Db, id: int)
    requires id in db.issues
  {
    db.issues[id].status == S.ReadyToMerge && !(id in db.prLinks && db.prLinks[id].state == Merged)
  }

  predicate HasBranch(issue: Issue) {
    issue.branch.Some? && Text.Trim(issue.branch.value) != ""
  }

  /** Each action is planned exactly under its own condition, with what the issue and the configuration say. */
  lemma PlanMeans(db: Db, id: int, action: Action)
    requires id in db.issues
    ensures db.config.None? ==> Actions(db, id) == []
    ensures db.config.Some? ==>
              var config, issue := db.config.value, db.issues[id];
              && (action.CreateIssue? ==>
                    (action in Actions(db, id)
                     <==> action.issue == id && id !in db.issueLinks && config.outboundIssueCreate))
              && (action.PostComment? ==>
                    (action in Actions(db, id)
                     <==> && action.issue == id && HasNews(config, issue)
                          && (if action.target == PullRequestThread then id in db.prLinks
                              else id in db.issueLinks && id !in db.prLinks)))
              && (action.CreateOrUpdatePr? ==>
                    (action in Actions(db, id)
                     <==> && action.issue == id && IsPrReady(db, id) && config.remotePrMerge && HasBranch(issue)
                          && action.head == issue.branch.value && action.draft == config.draftPr
                          && action.requireGreen == config.requireGreen
                          && action.base == if config.prBaseBranch.Some? && Text.Trim(config.prBaseBranch.value) != ""
                                            then config.prBaseBranch.value else "main"))
  {
    hide Text.Trim;
  }

  /** And each blocker is reported exactly where it is what stands in the way. */
  lemma BlockersMean(db: Db, id: int)
    requires id in db.issues
    ensures MissingConfig in Blockers(db, id) <==> db.config.None?
    ensures db.config.Some? ==>
              var config, issue, blockers := db.config.value, db.issues[id], Blockers(db, id);
              && (OutboundIssueCreateDisabled in blockers <==> id !in db.issueLinks && !config.outboundIssueCreate)
              && (MissingRemoteIssueLink in blockers
                  <==> HasNews(config, issue) && id !in db.issueLinks && id !in db.prLinks)
              && (RemotePrMergeDisabled in blockers <==> issue.status == S.ReadyToMerge && !config.remotePrMerge)
              && (PullRequestAlreadyMerged in blockers
                  <==> issue.status == S.ReadyToMerge && config.remotePrMerge && !IsPrReady(db, id))
              && (MissingBranch in blockers <==> IsPrReady(db, id) && config.remotePrMerge && !HasBranch(issue))
  {
    hide Text.Trim;
  }

  method PlanIssueWorkflow(db: Db, id: int) returns (plan: WorkflowPlan)
    requires id in db.issues
    ensures fresh(plan) && plan.actions == Actions(db, id) && plan.blockers == Blockers(db, id)
  {
    plan := new WorkflowPlan();
    match db.config {
      case None =>
        plan.blockers := plan.blockers + [MissingConfig];
      case Some(config) =>
        var linked := id in db.issueLinks;
        plan.PlanRemoteIssue(config, id, linked);
        plan.PlanProgressComment(config, id, db.issues[id], linked, PrOf(db, id));
        plan.PlanPullRequest(config, id, db.issues[id], PrOf(db, id));
    }
  }

  function Matching(kind: Kind, actions: seq<Action>): Option<Action> {
    if actions == [] then None
    else if KindOf(actions[0]) == kind then Some(actions[0])
    else Matching(kind, actions[1..])
  }

  predicate DistinctKinds(actions: seq<Action>) {
    forall i, j :: 0 <= i < j < |actions| ==> KindOf(actions[i]) != KindOf(actions[j])
  }

  lemma PlanHasDistinctKinds(db: Db, id: int)
    requires id in db.issues
    ensures DistinctKinds(Actions(db, id))
  {
  }

  lemma {:induction false} DistinctKindsAreFound(actions: seq<Action>, k: nat)
    requires DistinctKinds(actions) && k < |actions|
    ensures Matching(KindOf(actions[k]), actions) == Some(actions[k])
  {
    if k > 0 {
      DistinctKindsAreFound(actions[1..], k - 1);
    }
  }

  /** A plan has at most one action of each kind, so a queued action planned again on unchanged state is itself. */
  lemma ReplanFindsTheAction(db: Db, id: int, action: Action)
    requires id in db.issues && action in Actions(db, id)
    ensures Matching(KindOf(action), Actions(db, id)) == Some(action)
  {
    var k :| 0 <= k < |Actions(db, id)| && Actions(db, id)[k] == action;
    PlanHasDistinctKinds(db, id);
    hide Actions;
    DistinctKindsAreFound(Actions(db, id), k);
  }

  lemma {:induction false} MatchingIsPlanned(kind: Kind, actions: seq<Action>)
    ensures Matching(kind, actions).Some? ==>
        Matching(kind, actions).value in actions && KindOf(Matching(kind, actions).value) == kind
    ensures Matching(kind, actions).None? <==> forall a <- actions :: KindOf(a) != kind
  {
    if actions != [] {
      MatchingIsPlanned(kind, actions[1..]);
      assert actions == [actions[0]] + actions[1..];
    }
  }

  // ---------------------------------------------------------------- executing one run

  /** The provider's reply to one request; the state is that of a pull request. */
  datatype Reply = Refused | Accepted(number: int, state: PrState)

  predicate IsActive(run: Run) {
    run.status == Queued || run.status == Running
  }

  predicate HasActiveRun(db: Db, issue: int, kind: Kind) {
    exists id <- db.runs :: db.runs[id].issue == Some(issue) && db.runs[id].kind == kind && IsActive(db.runs[id])
  }

  /** Writing a link: a number that another issue had moves over to this one. */
  function LinkIssue(links: map<int, int>, issue: int, number: int): map<int, int> {
    (map i <- links | links[i] != number :: links[i])[issue := number]
  }

  /** The issue gets the number, whoever had it loses it, and no other link changes. */
  lemma LinkMeans(links: map<int, int>, issue: int, number: int)
    ensures var after := LinkIssue(links, issue, number);
            && issue in after && after[issue] == number
            && (forall i <- after :: after[i] == number ==> i == issue)
            && (forall i <- links :: i != issue && links[i] != number ==> i in after && after[i] == links[i])
            && (forall i <- after :: i != issue ==> i in links && after[i] == links[i])
  {
  }

  /** A pull request number belongs to one issue: the link of another issue is not taken over. */
  predicate IsOthersNumber(prLinks: map<int, PrLink>, issue: int, number: int) {
    exists other <- prLinks :: other != issue && prLinks[other].number == number
  }

  /** The provider has carried out the action; the link is written, or its write is refused. */
  function Carry(db: Db, action: Action, number: int, state: PrState): (Db, RunStatus) {
    match action
    case CreateIssue(issue) =>
      (db.(created := db.created + [Creation(issue, number)], issueLinks := LinkIssue(db.issueLinks, issue, number)),
       Done)
    case CreateOrUpdatePr(issue, _, _, _, _) =>
      if IsOthersNumber(db.prLinks, issue, number) then (db, Failed)
      else (db.(prLinks := db.prLinks[issue := PrLink(number, state)]), Done)
    case PostComment(_, _) => (db, Done)
  }

  /** What a claimed run does: where it ends, and what becomes of the rows and the provider. */
  function Claimed(db: Db, run: Run, reply: Reply): (Db, RunStatus) {
    if run.kind == WebhookRun || run.issue.None? then (db, Skipped)
    else if run.issue.value !in db.issues || db.config.None? then (db, Failed)
    else
      match Matching(run.kind, Actions(db, run.issue.value))
      case None => (db, Skipped)
      case Some(action) =>
        match reply
        case Refused => (db, Failed)
        case Accepted(number, state) => Carry(db, action, number, state)
  }

  function SetRun(db: Db, id: int, status: RunStatus): Db
    requires id in db.runs
  {
    db.(runs := db.runs[id := db.runs[id].(status := status)])
  }

  /** One run from claim to finish; a run that is not queued is left alone. */
  function Executed(db: Db, id: int, reply: Reply): Db {
    if id !in db.runs || db.runs[id].status != Queued then db
    else
      var result := Claimed(SetRun(db, id, Running), db.runs[id].(status := Running), reply);
      if id in result.0.runs && result.0.runs[id].status == Running then SetRun(result.0, id, result.1) else result.0
  }

  class Executor {
    var db: Db

    constructor (db: Db)
      ensures this.db == db
    {
      this.db := db;
    }

    /** The claim is a compare-and-set from queued. */
    method MarkRunning(id: int) returns (claimed: bool)
      modifies this
      ensures claimed <==> id in old(db).runs && old(db).runs[id].status == Queued
      ensures db == if claimed then SetRun(old(db), id, Running) else old(db)
    {
      claimed := id in db.runs && db.runs[id].status == Queued;
      if claimed {
        db := SetRun(db, id, Running);
      }
    }

    /** A finish changes a running run only. */
    method FinishRun(id: int, status: RunStatus)
      requires status in {Done, Failed, Skipped}
      modifies this
      ensures db == if id in old(db).runs && old(db).runs[id].status == Running
                    then SetRun(old(db), id, status) else old(db)
    {
      if id in db.runs && db.runs[id].status == Running {
        db := SetRun(db, id, status);
      }
    }

    method ExecuteRun(id: int, reply: Reply)
      modifies this
      ensures db == Executed(old(db), id, reply)
    {
      var claimed := MarkRunning(id);
      if !claimed {
        return;
      }
      var (after, status) := Claimed(db, db.runs[id], reply);
      db := after;
      FinishRun(id, status);
    }

    /** Queued runs by id, at most the clamped limit. */
    method QueuedRuns(limit: int) returns (ids: seq<int>)
      ensures IsIncreasing(ids) && |ids| <= if limit < 1 then 1 else if limit > 100 then 100 else limit
      ensures forall k :: 0 <= k < |ids| ==> ids[k] in db.runs && db.runs[ids[k]].status == Queued
      ensures forall id <- db.runs :: db.runs[id].status == Queued && id !in ids ==>
          |ids| == ClampLimit(limit) && forall k <- ids :: k < id
    {
      var queued := set id <- db.runs | db.runs[id].status == Queued;
      var all := InOrder(queued);
      assert forall id :: id in all <==> id in queued by { assert forall id :: id in all <==> id in ToSet(all); }
      ids := Take(all, ClampLimit(limit));
      forall k | 0 <= k < |ids| ensures ids[k] in queued {
        assert all[k] in all;
      }
      forall id <- db.runs | db.runs[id].status == Queued && id !in ids
        ensures |ids| == ClampLimit(limit) && forall k <- ids :: k < id
      {
        assert id in all;
        var p :| 0 <= p < |all| && all[p] == id;
        forall k <- ids ensures k < id {
          var q :| 0 <= q < |ids| && ids[q] == k;
          TakeMisses(all, ClampLimit(limit), p);
        }
      }
    }

    /** One pass: every run it listed is finished, each executed once, in id order. */
    method ExecuteQueued(limit: int, replies: int -> Reply) returns (ids: seq<int>)
      modifies this
      ensures IsIncreasing(ids) && |ids| <= ClampLimit(limit)
      ensures db == ExecutedAll(old(db), ids, replies)
      ensures forall k :: 0 <= k < |ids| ==> ids[k] in old(db).runs && old(db).runs[ids[k]].status == Queued
      ensures forall k :: 0 <= k < |ids| ==> ids[k] in db.runs && db.runs[ids[k]].status in {Done, Failed, Skipped}
    {
      hide Executed, Succeeds, IsDue, LacksRows, LinkIssue;
      ids := QueuedRuns(limit);
      for k := 0 to |ids|
        invariant db == ExecutedAll(old(db), ids[..k], replies)
        invariant db.runs.Keys == old(db).runs.Keys
        invariant forall j :: 0 <= j < k ==> db.runs[ids[j]].status in {Done, Failed, Skipped}
        invariant forall j :: k <= j < |ids| ==> ids[j] in db.runs && db.runs[ids[j]].status == Queued
      {
        assert ids[..k + 1][..k] == ids[..k];
        ghost var before := db;
        ExecuteRun(ids[k], replies(ids[k]));
        ExecutedMeans(before, ids[k], replies(ids[k]));
      }
      assert ids[..|ids|] == ids;
    }

    /** The observing run is created running and finished at the end, unless the completion is refused. */
    method ObservePullRequest(id: int, run: int, seen: Observation) returns (ok: bool)
      requires id in db.prLinks && run !in db.runs
      modifies this
      ensures db == Observed(old(db), id, run, seen)
      ensures ok <==> db.runs[run].status != Running
    {
      db := db.(runs := db.runs[run := Run(PrRun, Some(id), Running)]);
      if seen.Unreachable? {
        FinishRun(run, Failed);
        return true;
      }
      db := db.(prLinks := db.prLinks[id := db.prLinks[id].(state := seen.state)]);
      if seen.state == Merged {
        if id !in db.issues || db.issues[id].status != S.ReadyToMerge {
          return false;
        }
        db := db.(issues := db.issues[id := db.issues[id].(status := S.Done)]);
      }
      FinishRun(run, Done);
      return true;
    }

    /** Queues the issue's planned actions, except those of a kind that already has a run waiting or under way. */
    method QueueIssueWorkflow(issue: int) returns (queued: seq<int>)
      requires issue in db.issues
      modifies this
      ensures db.runs.Keys == old(db).runs.Keys + ToSet(queued) && forall id <- queued :: id !in old(db).runs
      ensures db == old(db).(runs := db.runs) && forall id <- old(db).runs :: db.runs[id] == old(db).runs[id]
      ensures forall id <- queued ::
                  exists a <- Actions(old(db), issue) :: db.runs[id] == Run(KindOf(a), Some(issue), Queued)
      ensures forall id <- queued :: !HasActiveRun(old(db), issue, db.runs[id].kind)
      ensures forall id <- queued, other <- old(db).runs ::
                  old(db).runs[other].issue == Some(issue) && old(db).runs[other].kind == db.runs[id].kind ==>
                    old(db).runs[other].status in {Done, Failed, Skipped}
      ensures forall a <- Actions(old(db), issue) :: HasActiveRun(db, issue, KindOf(a))
    {
      hide Actions, Blockers, KindOf;
      queued := [];
      var plan := PlanIssueWorkflow(db, issue);
      var actions := plan.actions;
      for k := 0 to |actions|
        invariant db.runs.Keys == old(db).runs.Keys + ToSet(queued) && forall id <- queued :: id !in old(db).runs
        invariant db == old(db).(runs := db.runs) && forall id <- old(db).runs :: db.runs[id] == old(db).runs[id]
        invariant forall id <- queued :: exists a <- actions :: db.runs[id] == Run(KindOf(a), Some(issue), Queued)
        invariant forall id <- queued :: !HasActiveRun(old(db), issue, db.runs[id].kind)
        invariant forall j :: 0 <= j < k ==> HasActiveRun(db, issue, KindOf(actions[j]))
      {
        var kind := KindOf(actions[k]);
        ActiveRunsStay(old(db), db);
        if HasActiveRun(db, issue, kind) {
          continue;
        }
        var id := NextRowId(db.runs);
        ghost var before := db;
        db := db.(runs := db.runs[id := Run(kind, Some(issue), Queued)]);
        ActiveRunsStay(before, db);
        assert IsActive(db.runs[id]);
        queued := queued + [id];
      }
    }
  }

  lemma TakeMisses(s: seq<int>, n: nat, p: nat)
    requires p < |s| && s[p] !in Take(s, n)
    ensures p >= |Take(s, n)|
  {
    if p < |Take(s, n)| {
      ElementIsMember(Take(s, n), p);
      assert false;
    }
  }

  lemma ElementIsMember(s: seq<int>, p: nat)
    requires p < |s|
    ensures s[p] in s
  {
  }

  lemma ActiveRunsStay(before: Db, after: Db)
    requires forall id <- before.runs :: id in after.runs && after.runs[id] == before.runs[id]
    ensures forall issue, kind :: HasActiveRun(before, issue, kind) ==> HasActiveRun(after, issue, kind)
  {
    forall issue, kind | HasActiveRun(before, issue, kind) ensures HasActiveRun(after, issue, kind) {
      var id :| && id in before.runs && before.runs[id].issue == Some(issue)
                && before.runs[id].kind == kind && IsActive(before.runs[id]);
      assert after.runs[id] == before.runs[id];
    }
  }

  function ClampLimit(limit: int): nat {
    if limit < 1 then 1 else if limit > 100 then 100 else limit
  }

  function ExecutedAll(db: Db, ids: seq<int>, replies: int -> Reply): Db {
    if ids == [] then db
    else Executed(ExecutedAll(db, ids[..|ids| - 1], replies), ids[|ids| - 1], replies(ids[|ids| - 1]))
  }

  // ---------------------------------------------------------------- what one execution does

  predicate Plans(db: Db, issue: int, kind: Kind) {
    issue in db.issues && exists a <- Actions(db, issue) :: KindOf(a) == kind
  }

  lemma MatchingIffPlans(db: Db, issue: int, kind: Kind)
    requires issue in db.issues
    ensures Matching(kind, Actions(db, issue)).Some? <==> Plans(db, issue, kind)
    ensures Matching(kind, Actions(db, issue)).Some? ==>
              var a := Matching(kind, Actions(db, issue)).value;
              && KindOf(a) == kind && a.issue == issue && db.config.Some?
              && (kind == IssueRun ==> issue !in db.issueLinks)
              && (kind == PrRun ==> db.issues[issue].status == S.ReadyToMerge)
              && (kind == PrRun && issue in db.prLinks ==> db.prLinks[issue].state != Merged)
  {
    MatchingIsPlanned(kind, Actions(db, issue));
    if Matching(kind, Actions(db, issue)).Some? {
      PlannedActions(db, issue, Matching(kind, Actions(db, issue)).value);
    }
  }

  lemma PlannedActions(db: Db, issue: int, action: Action)
    requires issue in db.issues && action in Actions(db, issue)
    ensures action.issue == issue && db.config.Some?
    ensures KindOf(action) == IssueRun ==> issue !in db.issueLinks && db.config.value.outboundIssueCreate
    ensures KindOf(action) == PrRun ==> db.issues[issue].status == S.ReadyToMerge
    ensures KindOf(action) == PrRun && issue in db.prLinks ==> db.prLinks[issue].state != Merged
  {
  }

  /** The run of a queued row finds its action in the plan. */
  predicate IsDue(db: Db, run: Run) {
    run.kind != WebhookRun && run.issue.Some? && Plans(db, run.issue.value, run.kind)
  }

  predicate LacksRows(db: Db, run: Run) {
    run.kind != WebhookRun && run.issue.Some? && (run.issue.value !in db.issues || db.config.None?)
  }

  /** The provider has acted but its answer cannot be stored. */
  predicate LinkRefused(db: Db, run: Run, number: int) {
    run.kind == PrRun && run.issue.Some?
    && exists other <- db.prLinks :: other != run.issue.value && db.prLinks[other].number == number
  }

  predicate Succeeds(db: Db, run: Run, reply: Reply) {
    IsDue(db, run) && reply.Accepted? && !LinkRefused(db, run, reply.number)
  }

  /**
    A claimed run: it is done exactly if its action is still planned, the provider accepts and the answer can be
    stored, and skipped exactly if the action is not planned any more. A remote issue is opened exactly if a
    run that plans one is accepted, and links are written by runs that are done.
   */
  lemma ClaimedMeans(db: Db, run: Run, reply: Reply)
    ensures var result := Claimed(db, run, reply);
            && (result.1 == Done <==> Succeeds(db, run, reply))
            && (result.1 == Skipped <==> !IsDue(db, run) && !LacksRows(db, run))
            && result.1 in {Done, Failed, Skipped}
            && result.0 == db.(created := result.0.created, issueLinks := result.0.issueLinks,
                               prLinks := result.0.prLinks)
    ensures Succeeds(db, run, reply) && run.kind == IssueRun ==>
              && Claimed(db, run, reply).0.created == db.created + [Creation(run.issue.value, reply.number)]
              && Claimed(db, run, reply).0.issueLinks == LinkIssue(db.issueLinks, run.issue.value, reply.number)
    ensures !(Succeeds(db, run, reply) && run.kind == IssueRun) ==>
              Claimed(db, run, reply).0.created == db.created && Claimed(db, run, reply).0.issueLinks == db.issueLinks
    ensures Claimed(db, run, reply).0.prLinks ==
              if Succeeds(db, run, reply) && run.kind == PrRun
              then db.prLinks[run.issue.value := PrLink(reply.number, reply.state)] else db.prLinks
  {
    hide Actions, LinkIssue, Matching, Plans;
    if run.issue.Some? && run.issue.value in db.issues {
      MatchingIffPlans(db, run.issue.value, run.kind);
      PlansNeedsConfig(db, run.issue.value, run.kind);
    } else if run.issue.Some? {
      PlansNeedsConfig(db, run.issue.value, run.kind);
    }
  }

  lemma PlansNeedsConfig(db: Db, issue: int, kind: Kind)
    ensures Plans(db, issue, kind) ==> issue in db.issues && db.config.Some? && kind != WebhookRun
  {
  }

  /** Nothing of a plan depends on the run rows. */
  lemma PlansIgnoreRuns(db: Db, runs: map<int, Run>)
    ensures forall issue, kind :: Plans(db.(runs := runs), issue, kind) <==> Plans(db, issue, kind)
  {
    forall issue, kind ensures Plans(db.(runs := runs), issue, kind) <==> Plans(db, issue, kind) {
      if issue in db.issues {
        assert Actions(db.(runs := runs), issue) == Actions(db, issue);
      }
    }
  }

  /**
    Executing a row: one that is not queued is left alone; a queued one ends done, failed or skipped by the state
    it meets, whatever was true when it was queued.
   */
  lemma ExecutedMeans(db: Db, id: int, reply: Reply)
    ensures !(id in db.runs && db.runs[id].status == Queued) ==> Executed(db, id, reply) == db
    ensures id in db.runs && db.runs[id].status == Queued ==>
              var after, run := Executed(db, id, reply), db.runs[id];
              && after.runs.Keys == db.runs.Keys && after.runs[id].status in {Done, Failed, Skipped}
              && (after.runs[id].status == Done <==> Succeeds(db, run, reply))
              && (after.runs[id].status == Skipped <==> !IsDue(db, run) && !LacksRows(db, run))
              && (forall other <- db.runs :: other != id ==> after.runs[other] == db.runs[other])
              && after.created == db.created + (if Succeeds(db, run, reply) && run.kind == IssueRun
                                                then [Creation(run.issue.value, reply.number)] else [])
              && after.issueLinks == (if Succeeds(db, run, reply) && run.kind == IssueRun
                                      then LinkIssue(db.issueLinks, run.issue.value, reply.number) else db.issueLinks)
              && after.prLinks == (if Succeeds(db, run, reply) && run.kind == PrRun
                                   then db.prLinks[run.issue.value := PrLink(reply.number, reply.state)]
                                   else db.prLinks)
              && after.issues == db.issues && after.config == db.config
  {
    if id in db.runs && db.runs[id].status == Queued {
      hide Plans, Claimed, LinkIssue, IsOthersNumber;
      var begun := SetRun(db, id, Running);
      PlansIgnoreRuns(db, begun.runs);
      ClaimedMeans(begun, db.runs[id].(status := Running), reply);
    }
  }

  // ---------------------------------------------------------------- observing a pull request

  datatype Observation = Unreachable | Seen(state: PrState)

  /**
    Looks at the remote pull request of an issue. A merged one completes the issue, but only from
    READY_TO_MERGE; if the issue has left that status meanwhile, the observing run stays running.
   */
  function Observed(db: Db, id: int, run: int, seen: Observation): Db
    requires id in db.prLinks
  {
    var begun := db.(runs := db.runs[run := Run(PrRun, Some(id), Running)]);
    match seen
    case Unreachable => SetRun(begun, run, Failed)
    case Seen(state) =>
      var linked := begun.(prLinks := begun.prLinks[id := begun.prLinks[id].(state := state)]);
      if state != Merged then SetRun(linked, run, Done)
      else if id in linked.issues && linked.issues[id].status == S.ReadyToMerge
      then SetRun(linked.(issues := linked.issues[id := linked.issues[id].(status := S.Done)]), run, Done)
      else linked
  }

  /** An observation completes an issue exactly when the merge was seen and the issue is still READY_TO_MERGE. */
  lemma ObservationCompletesIff(db: Db, id: int, run: int, seen: Observation)
    requires id in db.prLinks && id in db.issues && db.issues[id].status != S.Done
    ensures var after := Observed(db, id, run, seen);
            && (after.issues[id].status == S.Done <==> seen == Seen(Merged) && db.issues[id].status == S.ReadyToMerge)
            && (after.runs[run].status == Running <==> seen == Seen(Merged) && db.issues[id].status != S.ReadyToMerge)
            && (after.runs[run].status == Failed <==> seen == Unreachable)
            && after.prLinks == (if seen.Seen? then db.prLinks[id := db.prLinks[id].(state := seen.state)]
                                 else db.prLinks)
            && (after.issues[id].status != S.Done ==> after.issues[id] == db.issues[id])
            && forall i <- db.issues :: i != id ==> after.issues[i] == db.issues[i]
  {
  }

  // ---------------------------------------------------------------- any sequence of all that happens

  datatype Step =
    | Enqueue(id: int, kind: Kind, issue: int)          // queueing may race, so duplicates are allowed
    | Execute(id: int, reply: Reply)
    | LoseReply(id: int, number: int)                   // the provider acts, the daemon stops before the link write
    | StopAfterClaim(id: int)                           // the daemon stops before the provider is asked
    | AcceptInbound(run: int, number: int)              // a comment on a remote issue becomes a backlog item
    | Observe(id: int, run: int, seen: Observation)     // the status listed before may have changed meanwhile
    | Reconfigure(config: Option<Config>)
    | WriteIssue(id: int, row: Issue)

  /** The provider gives every remote issue a number of its own; a number stands for repository and number. */
  predicate IsFreshNumber(db: Db, number: int) {
    forall c <- db.created :: c.number != number
  }

  /** Acting on this queued row opens a remote issue. */
  predicate OpensIssue(db: Db, id: int) {
    id in db.runs && db.runs[id].status == Queued && db.runs[id].kind == IssueRun && IsDue(db, db.runs[id])
  }

  predicate Enabled(db: Db, step: Step) {
    match step
    case Enqueue(id, _, _) => id !in db.runs
    case Execute(id, reply) => reply.Accepted? && OpensIssue(db, id) ==> IsFreshNumber(db, reply.number)
    case LoseReply(id, number) =>
      id in db.runs && db.runs[id].status == Queued && (OpensIssue(db, id) ==> IsFreshNumber(db, number))
    case StopAfterClaim(id) => id in db.runs && db.runs[id].status == Queued
    case AcceptInbound(run, _) => run !in db.runs
    case Observe(id, run, _) => id in db.prLinks && db.prLinks[id].state != Merged && run !in db.runs
    case _ => true
  }

  function Apply(db: Db, step: Step): Db
    requires Enabled(db, step)
  {
    match step
    case Enqueue(id, kind, issue) => db.(runs := db.runs[id := Run(kind, Some(issue), Queued)])
    case Execute(id, reply) => Executed(db, id, reply)
    case LoseReply(id, number) =>
      var created := if OpensIssue(db, id) then [Creation(db.runs[id].issue.value, number)] else [];
      SetRun(db, id, Running).(created := db.created + created)
    case StopAfterClaim(id) => SetRun(db, id, Running)
    case AcceptInbound(run, number) => Inbound(db.(runs := db.runs[run := Run(WebhookRun, None, Done)]), number)
    case Observe(id, run, seen) => Observed(db, id, run, seen)
    case Reconfigure(config) => db.(config := config)
    case WriteIssue(id, row) => db.(issues := db.issues[id := row])
  }

  /** The link row of that number is rewritten for a backlog item, so no local issue has it any more. */
  function Inbound(db: Db, number: int): Db {
    db.(issueLinks := map i <- db.issueLinks | db.issueLinks[i] != number :: db.issueLinks[i])
  }

  function Outcome(start: Db, steps: seq<Step>): Option<Db> {
    if steps == [] then Some(start)
    else
      var before := Outcome(start, steps[..|steps| - 1]);
      if before.Some? && Enabled(before.value, steps[|steps| - 1])
      then Some(Apply(before.value, steps[|steps| - 1]))
      else None
  }

  // ---------------------------------------------------------------- one remote issue for each local issue

  ghost predicate AtMostOneEach(created: seq<Creation>) {
    forall i, j :: 0 <= i < j < |created| ==> created[i].issue != created[j].issue
  }

  /** Every remote issue opened so far is linked to its local issue, and each local issue has at most one. */
  ghost predicate CreatedAreLinked(db: Db) {
    && AtMostOneEach(db.created)
    && (forall c <- db.created :: c.issue in db.issueLinks && db.issueLinks[c.issue] == c.number)
  }

  lemma OneMoreCreation(db: Db, id: int, number: int)
    requires CreatedAreLinked(db) && id !in db.issueLinks && IsFreshNumber(db, number)
    ensures CreatedAreLinked(db.(created := db.created + [Creation(id, number)],
                                 issueLinks := LinkIssue(db.issueLinks, id, number)))
  {
    var created, links := db.created + [Creation(id, number)], LinkIssue(db.issueLinks, id, number);
    forall c <- created ensures c.issue in links && links[c.issue] == c.number {
      assert c in db.created || c == Creation(id, number);
    }
    forall i, j | 0 <= i < j < |created| ensures created[i].issue != created[j].issue {
      if j == |db.created| {
        assert db.created[i] in db.created;
      }
    }
  }

  /** A comment on a remote issue keeps the links exactly if that issue was not opened from here. */
  lemma InboundKeepsLinksIff(db: Db, number: int)
    requires CreatedAreLinked(db)
    ensures CreatedAreLinked(Inbound(db, number)) <==> forall c <- db.created :: c.number != number
  {
    var after := Inbound(db, number);
    forall c <- db.created | c.number == number ensures !CreatedAreLinked(after) {
      assert c in after.created && c.issue !in after.issueLinks;
    }
  }

  /** What a step must not do: lose a creation's link write, or take a link that a creation has. */
  predicate KeepsLinks(db: Db, step: Step) {
    match step
    case LoseReply(id, _) => !OpensIssue(db, id)
    case AcceptInbound(_, number) => forall c <- db.created :: c.number != number
    case _ => true
  }

  lemma ExecuteKeepsLinks(db: Db, id: int, reply: Reply)
    requires CreatedAreLinked(db) && (reply.Accepted? && OpensIssue(db, id) ==> IsFreshNumber(db, reply.number))
    ensures CreatedAreLinked(Executed(db, id, reply))
  {
    hide LinkIssue, Executed, Claimed, Plans, AtMostOneEach, IsFreshNumber;
    ExecutedMeans(db, id, reply);
    if OpensIssue(db, id) && Succeeds(db, db.runs[id], reply) {
      var issue := db.runs[id].issue.value;
      PlansNoLink(db, issue);
      OneMoreCreation(db, issue, reply.number);
    } else {
      assert Executed(db, id, reply).created == db.created;
    }
  }

  lemma PlansNoLink(db: Db, issue: int)
    requires Plans(db, issue, IssueRun)
    ensures issue !in db.issueLinks
  {
    MatchingIffPlans(db, issue, IssueRun);
  }

  lemma StepKeepsLinksIff(db: Db, step: Step)
    requires CreatedAreLinked(db) && Enabled(db, step)
    ensures CreatedAreLinked(Apply(db, step)) <==> KeepsLinks(db, step)
  {
    hide Plans, Executed, LinkIssue, AtMostOneEach;
    match step
    case Execute(id, reply) => ExecuteKeepsLinks(db, id, reply);
    case AcceptInbound(run, number) =>
      InboundKeepsLinksIff(db.(runs := db.runs[run := Run(WebhookRun, None, Done)]), number);
    case LoseReply(id, number) =>
      if OpensIssue(db, id) {
        var issue := db.runs[id].issue.value;
        PlansNoLink(db, issue);
        assert Apply(db, step).created[|db.created|] == Creation(issue, number);
        assert Creation(issue, number) in Apply(db, step).created;
      } else {
        assert Apply(db, step).created == db.created;
      }
    case Enqueue(_, _, _) =>
    case StopAfterClaim(_) =>
    case Observe(_, _, _) =>
    case Reconfigure(_) =>
    case WriteIssue(_, _) =>
  }

  predicate AllKeepLinks(start: Db, steps: seq<Step>)
    requires Outcome(start, steps).Some?
  {
    steps == [] ||
    var before := steps[..|steps| - 1];
    AllKeepLinks(start, before) && KeepsLinks(Outcome(start, before).value, steps[|steps| - 1])
  }

  ghost predicate LinkedThroughout(start: Db, steps: seq<Step>)
    requires Outcome(start, steps).Some?
  {
    CreatedAreLinked(Outcome(start, steps).value) && (steps == [] || LinkedThroughout(start, steps[..|steps| - 1]))
  }

  lemma NothingCreatedIsLinked(db: Db)
    requires db.created == []
    ensures CreatedAreLinked(db)
  {
  }

  /**
    Over any run, with duplicate queue rows and any changes of issues and configuration, the opened remote issues
    are one for each local issue and linked to it at all times, exactly if no creation loses its link write and
    no comment is accepted on a remote issue that was opened from here.
   */
  lemma {:induction false} OneRemoteIssueEach(start: Db, steps: seq<Step>)
    requires start.created == [] && Outcome(start, steps).Some?
    ensures AllKeepLinks(start, steps) <==> LinkedThroughout(start, steps)
    ensures AllKeepLinks(start, steps) ==> AtMostOneEach(Outcome(start, steps).value.created)
  {
    hide KeepsLinks, Enabled, Apply, AtMostOneEach;
    if steps == [] {
      NothingCreatedIsLinked(start);
    } else {
      var n := |steps| - 1;
      OneRemoteIssueEach(start, steps[..n]);
      if LinkedThroughout(start, steps[..n]) {
        StepKeepsLinksIff(Outcome(start, steps[..n]).value, steps[n]);
      }
    }
  }

  lemma UnlinkedIsOpened(db: Db, issue: int, run: int, number: int)
    requires issue in db.issues && issue !in db.issueLinks && run !in db.runs && IsFreshNumber(db, number)
    requires db.config.Some? && db.config.value.outboundIssueCreate
    ensures var after := Outcome(db, Requeue(issue, run, number));
            && after.Some? && after.value.created == db.created + [Creation(issue, number)]
            && after.value.issues == db.issues && after.value.config == db.config
            && after.value.issueLinks == LinkIssue(db.issueLinks, issue, number)
            && after.value.runs.Keys == db.runs.Keys + {run}
  {
    hide Plans, Executed, IsFreshNumber, LinkIssue;
    var enqueue, execute := Enqueue(run, IssueRun, issue), Execute(run, Accepted(number, Open));
    var queued := Apply(db, enqueue);
    UnlinkedIsPlanned(queued, issue);
    SameCreatedSameFresh(db, queued, number);
    var after := Executed(queued, run, Accepted(number, Open));
    ExecutedMeans(queued, run, Accepted(number, Open));
    Extend(db, [], enqueue, db, queued);
    Extend(db, [] + [enqueue], execute, queued, after);
    assert [] + [enqueue] + [execute] == Requeue(issue, run, number);
  }

  /** Once an opened remote issue has lost its link, queueing its local issue once more opens another one. */
  lemma UnlinkedIsOpenedAgain(db: Db, c: Creation, run: int, number: int)
    requires c in db.created && c.issue in db.issues && c.issue !in db.issueLinks
    requires db.config.Some? && db.config.value.outboundIssueCreate
    requires run !in db.runs && IsFreshNumber(db, number)
    ensures var after := Outcome(db, Requeue(c.issue, run, number));
            && after.Some? && after.value.created == db.created + [Creation(c.issue, number)]
            && !AtMostOneEach(after.value.created)
  {
    hide Outcome;
    UnlinkedIsOpened(db, c.issue, run, number);
    var after := Outcome(db, Requeue(c.issue, run, number)).value;
    var i :| 0 <= i < |db.created| && db.created[i] == c;
    assert after.created[i].issue == after.created[|db.created|].issue;
  }

  function Requeue(issue: int, run: int, number: int): seq<Step> {
    [Enqueue(run, IssueRun, issue), Execute(run, Accepted(number, Open))]
  }

  lemma SameCreatedSameFresh(a: Db, b: Db, number: int)
    requires a.created == b.created && IsFreshNumber(a, number)
    ensures IsFreshNumber(b, number)
  {
  }

  lemma UnlinkedIsPlanned(db: Db, issue: int)
    requires issue in db.issues && issue !in db.issueLinks
    requires db.config.Some? && db.config.value.outboundIssueCreate
    ensures Plans(db, issue, IssueRun)
  {
    assert Actions(db, issue)[0] == CreateIssue(issue);
    assert KindOf(Actions(db, issue)[0]) == IssueRun && Actions(db, issue)[0] in Actions(db, issue);
  }

  lemma Extend(start: Db, steps: seq<Step>, step: Step, s: Db, s': Db)
    requires Outcome(start, steps) == Some(s) && Enabled(s, step) && s' == Apply(s, step)
    ensures Outcome(start, steps + [step]) == Some(s')
  {
    assert (steps + [step])[..|steps|] == steps;
  }

  lemma {:induction false} RunsCompose(start: Db, first: seq<Step>, middle: Db, second: seq<Step>)
    requires Outcome(start, first) == Some(middle) && Outcome(middle, second).Some?
    ensures Outcome(start, first + second) == Outcome(middle, second)
  {
    hide Apply, Enabled;
    if second == [] {
      assert first + second == first;
    } else {
      var n := |second| - 1;
      RunsCompose(start, first, middle, second[..n]);
      Extend(start, first + second[..n], second[n], Outcome(middle, second[..n]).value,
             Outcome(middle, second).value);
      assert first + second[..n] + [second[n]] == first + second;
    }
  }

  function OneIssue(runs: map<int, Run>): Db {
    Db(Some(Config(true, false, false, false, None, false, false, false)),
       map[7 := Issue(S.New, None, false, false, false)], map[], map[], runs, [])
  }

  /** A creation whose reply is lost is made again by the next run. */
  lemma LostReplyCreatesTwice() returns (start: Db, steps: seq<Step>, s: Db)
    ensures start.created == [] && Outcome(start, steps) == Some(s)
    ensures steps == [LoseReply(1, 41)] + Requeue(7, 2, 42)
    ensures s.created == [Creation(7, 41), Creation(7, 42)]
  {
    hide Plans;
    start := OneIssue(map[1 := Run(IssueRun, Some(7), Queued)]);
    UnlinkedIsPlanned(start, 7);
    var lost := Apply(start, LoseReply(1, 41));
    Extend(start, [], LoseReply(1, 41), start, lost);
    assert [] + [LoseReply(1, 41)] == [LoseReply(1, 41)];
    UnlinkedIsOpenedAgain(lost, Creation(7, 41), 2, 42);
    RunsCompose(start, [LoseReply(1, 41)], lost, Requeue(7, 2, 42));
    steps := [LoseReply(1, 41)] + Requeue(7, 2, 42);
    s := Outcome(lost, Requeue(7, 2, 42)).value;
  }

  /** A comment accepted on a remote issue that was opened from here takes its link, and it is opened again. */
  lemma InboundCreatesTwice() returns (start: Db, steps: seq<Step>, s: Db)
    ensures start.created == [] && start.runs == map[] && Outcome(start, steps) == Some(s)
    ensures steps == Requeue(7, 1, 41) + [AcceptInbound(2, 41)] + Requeue(7, 3, 42)
    ensures s.created == [Creation(7, 41), Creation(7, 42)]
  {
    start := OneIssue(map[]);
    UnlinkedIsOpened(start, 7, 1, 41);
    hide Outcome, IsFreshNumber;
    var linked := Outcome(start, Requeue(7, 1, 41)).value;
    var taken := Apply(linked, AcceptInbound(2, 41));
    Extend(start, Requeue(7, 1, 41), AcceptInbound(2, 41), linked, taken);
    assert linked.issueLinks == map[7 := 41] by {
      assert LinkIssue(map[], 7, 41) == map[7 := 41];
    }
    UnlinkedIsOpenedAgain(taken, Creation(7, 41), 3, 42);
    RunsCompose(start, Requeue(7, 1, 41) + [AcceptInbound(2, 41)], taken, Requeue(7, 3, 42));
    steps := Requeue(7, 1, 41) + [AcceptInbound(2, 41)] + Requeue(7, 3, 42);
    s := Outcome(taken, Requeue(7, 3, 42)).value;
  }

  // ---------------------------------------------------------------- what no later step undoes

  predicate IsFinal(s: RunStatus) {
    s in {Done, Failed, Skipped}
  }

  /** A row leaves the queue by its own execution, which finishes it, or by a stop in the middle of it. */
  lemma StepOnRun(db: Db, step: Step, id: int)
    requires Enabled(db, step) && id in db.runs
    ensures id in Apply(db, step).runs
    ensures db.runs[id].status != Queued ==> Apply(db, step).runs[id] == db.runs[id]
    ensures db.runs[id].status == Queued && Apply(db, step).runs[id].status != Queued ==>
              || (step.Execute? && step.id == id && IsFinal(Apply(db, step).runs[id].status))
              || ((step.LoseReply? || step.StopAfterClaim?) && step.id == id)
  {
    hide Plans, Succeeds, LinkIssue, IsFreshNumber;
    if step.Execute? {
      ExecutedMeans(db, step.id, step.reply);
    }
  }

  /** A run that is not queued never changes again: one left running by a stop or a refusal stays running. */
  lemma {:induction false} UnqueuedRunsStay(start: Db, steps: seq<Step>, id: int)
    requires Outcome(start, steps).Some? && id in start.runs && start.runs[id].status != Queued
    ensures id in Outcome(start, steps).value.runs && Outcome(start, steps).value.runs[id] == start.runs[id]
  {
    hide Enabled, Apply;
    if steps != [] {
      var n := |steps| - 1;
      UnqueuedRunsStay(start, steps[..n], id);
      StepOnRun(Outcome(start, steps[..n]).value, steps[n], id);
    }
  }

  lemma StepKeepsMerged(db: Db, step: Step, id: int)
    requires Enabled(db, step) && id in db.prLinks && db.prLinks[id].state == Merged
    ensures id in Apply(db, step).prLinks && Apply(db, step).prLinks[id] == db.prLinks[id]
    ensures id in db.issues && !(step.WriteIssue? && step.id == id) ==>
              id in Apply(db, step).issues && Apply(db, step).issues[id] == db.issues[id]
  {
    hide Plans, LinkIssue, IsFreshNumber;
    if step.Execute? {
      ExecutedMeans(db, step.id, step.reply);
      if step.id in db.runs && db.runs[step.id].kind == PrRun && db.runs[step.id].issue == Some(id) {
        MergedPlansNoPr(db, id);
      }
    }
  }

  lemma MergedPlansNoPr(db: Db, id: int)
    requires id in db.prLinks && db.prLinks[id].state == Merged
    ensures !Plans(db, id, PrRun)
    ensures id in db.issues && db.issues[id].status == S.ReadyToMerge ==>
              db.config.Some? && db.config.value.remotePrMerge ==> PullRequestAlreadyMerged in Blockers(db, id)
  {
    if id in db.issues {
      forall a <- Actions(db, id) ensures KindOf(a) != PrRun {
        if KindOf(a) == PrRun {
          PlannedActions(db, id, a);
        }
      }
    }
  }

  predicate Writes(steps: seq<Step>, id: int) {
    exists k :: 0 <= k < |steps| && steps[k].WriteIssue? && steps[k].id == id
  }

  /** A link that says merged says so for good, and then nothing but a status write changes its issue. */
  lemma {:induction false} MergedLinkStays(start: Db, steps: seq<Step>, id: int)
    requires Outcome(start, steps).Some? && id in start.prLinks && start.prLinks[id].state == Merged
    ensures var s := Outcome(start, steps).value;
            && id in s.prLinks && s.prLinks[id] == start.prLinks[id]
            && (id in start.issues && !Writes(steps, id) ==> id in s.issues && s.issues[id] == start.issues[id])
  {
    hide Enabled, Apply;
    if steps != [] {
      var n := |steps| - 1;
      MergedLinkStays(start, steps[..n], id);
      StepKeepsMerged(Outcome(start, steps[..n]).value, steps[n], id);
      if Writes(steps[..n], id) {
        var k :| 0 <= k < n && steps[..n][k].WriteIssue? && steps[..n][k].id == id;
        assert steps[k] == steps[..n][k];
      }
    }
  }

  /**
    A merge seen while its issue is not READY_TO_MERGE is seen for nothing: whatever follows, the pull request is
    never looked at again, no pull request action is planned for the issue, the observing run stays running, and
    only a status write from elsewhere can complete the issue.
   */
  lemma EarlyMergeIsNeverCompleted(db: Db, id: int, run: int, steps: seq<Step>)
    requires Enabled(db, Observe(id, run, Seen(Merged)))
    requires id in db.issues && db.issues[id].status != S.ReadyToMerge
    requires Outcome(Apply(db, Observe(id, run, Seen(Merged))), steps).Some?
    ensures var s := Outcome(Apply(db, Observe(id, run, Seen(Merged))), steps).value;
            && run in s.runs && s.runs[run] == Run(PrRun, Some(id), Running)
            && (forall later, seen :: !Enabled(s, Observe(id, later, seen)))
            && !Plans(s, id, PrRun)
            && (id in s.issues && s.issues[id].status == S.ReadyToMerge ==>
                  s.config.Some? && s.config.value.remotePrMerge ==> PullRequestAlreadyMerged in Blockers(s, id))
            && (!Writes(steps, id) ==> id in s.issues && s.issues[id] == db.issues[id])
  {
    hide Plans, Outcome;
    var seen := Apply(db, Observe(id, run, Seen(Merged)));
    UnqueuedRunsStay(seen, steps, run);
    MergedLinkStays(seen, steps, id);
    MergedPlansNoPr(Outcome(seen, steps).value, id);
  }
}
