/**
  Routing a project's approved backlog, one item after the other: deterministic duplicates are attached,
  an agent decides the rest, and every fallback creates an issue. The agent's answer is arbitrary, and
  so is what phases, operators and other routers write while it runs, short of deleting rows.
 */
module RoutingBatch {
  import opened Wrappers
  import opened IssueState
  import opened RoutingStore
  import Duplicates
  import Text

  datatype Decision = AttachTo(issue: int, message: string) | CreateNew(title: Option<string>,
                               description: Option<string>)

  /** What others write while the agent runs: new and changed rows, none deleted, no consumption undone. */
  datatype Meanwhile = Meanwhile(items: map<int, Item>, issues: map<int, IssueRow>)

  datatype AgentRun = AgentRun(answer: Result<Decision, string>, meanwhile: Meanwhile)

  datatype Outcome = CreatedIssue(item: int, issue: int) | AttachedToIssue(item: int, issue: int, message: int)

  datatype ItemRef = ItemRef(id: int, text: string)

  function Written(r: Rows, m: Meanwhile): Rows {
    r.(issues := r.issues + m.issues,
       items := map id <- r.items.Keys + m.items.Keys ::
         if id in r.items && (id !in m.items || r.items[id].consumedBy.Some?) then r.items[id] else m.items[id])
  }

  /** Rows are kept, and a consumed item stays consumed by the same issue. */
  ghost predicate Grows(a: Rows, b: Rows) {
    && a.issues.Keys <= b.issues.Keys && a.items.Keys <= b.items.Keys
    && forall id <- a.items :: a.items[id].consumedBy.Some? ==> b.items[id].consumedBy == a.items[id].consumedBy
  }

  // ---------------------------------------------------------------- candidates

  function CandidateOf(id: int, row: IssueRow): Duplicates.Candidate {
    Duplicates.Candidate(id, row.title, row.description)
  }

  function Targets(r: Rows, project: int): set<int> {
    set id <- r.issues | IsTarget(r, project, id)
  }

  /** No issue that accepts messages is a deterministic duplicate of the text. */
  ghost predicate NoDuplicateIn(r: Rows, project: int, text: string) {
    forall id <- r.issues :: IsTarget(r, project, id) ==> !Duplicates.IsDuplicate(text, CandidateOf(id, r.issues[id]))
  }

  method Candidates(r: Rows, project: int) returns (cs: seq<Duplicates.Candidate>)
    ensures Duplicates.UniqueIds(cs)
    ensures forall c <- cs :: IsTarget(r, project, c.id) && c == CandidateOf(c.id, r.issues[c.id])
    ensures forall id <- r.issues :: IsTarget(r, project, id) ==> CandidateOf(id, r.issues[id]) in cs
  {
    var ids := InOrder(Targets(r, project));
    assert forall id :: id in ids <==> id in Targets(r, project) by {
      assert forall id :: id in ids <==> id in ToSet(ids);
    }
    cs := [];
    for k := 0 to |ids|
      invariant |cs| == k && forall j :: 0 <= j < k ==>
          ids[j] in r.issues && cs[j] == CandidateOf(ids[j], r.issues[ids[j]])
    {
      assert ids[k] in ids;
      cs := cs + [CandidateOf(ids[k], r.issues[ids[k]])];
    }
    forall id <- r.issues | IsTarget(r, project, id) ensures CandidateOf(id, r.issues[id]) in cs {
      assert id in ids;
      var k :| 0 <= k < |ids| && ids[k] == id;
      assert cs[k] == CandidateOf(id, r.issues[id]);
    }
    forall c <- cs ensures IsTarget(r, project, c.id) && c == CandidateOf(c.id, r.issues[c.id]) {
      var k :| 0 <= k < |cs| && cs[k] == c;
      assert ids[k] in ids;
    }
  }

  // ---------------------------------------------------------------- titles

  const MAX_TITLE := 96

  function FirstLine(text: string): string {
    if text == "" || text[0] == '\n' then "" else [text[0]] + FirstLine(text[1..])
  }

  function AfterFirstLine(text: string): (rest: string)
    ensures |rest| <= |text| && (text != "" ==> |rest| < |text|)
  {
    if text == "" then "" else if text[0] == '\n' then text[1..] else AfterFirstLine(text[1..])
  }

  /** A trimmed line as a title: cut to the title length, with dots for what is missing. */
  function CutLine(line: string): string {
    if |line| <= MAX_TITLE then line else line[..MAX_TITLE - 3] + "..."
  }

  /** The title made of an item's text: its first line with something on it. */
  function TitleOf(text: string): string
    decreases |text|
  {
    var line := Text.Trim(FirstLine(text));
    if line != "" then CutLine(line)
    else if text == "" then "Untitled backlog"
    else TitleOf(AfterFirstLine(text))
  }

  predicate AllBlank(lines: seq<string>) {
    forall k :: 0 <= k < |lines| ==> Text.Trim(lines[k]) == ""
  }

  predicate IsFirstNonBlank(lines: seq<string>, k: int) {
    0 <= k < |lines| && Text.Trim(lines[k]) != "" && AllBlank(lines[..k])
  }

  lemma {:induction false} SplitAtFirstLine(text: string)
    ensures var lines := Text.SplitOn(text, '\n');
            && lines[0] == FirstLine(text)
            && (if '\n' in text then lines[1..] == Text.SplitOn(AfterFirstLine(text), '\n')
                else lines[1..] == [] && AfterFirstLine(text) == "")
  {
    if text != "" && text[0] != '\n' {
      SplitAtFirstLine(text[1..]);
      assert text == [text[0]] + text[1..];
    }
  }

  lemma NoText()
    ensures Text.SplitOn("", '\n') == [""] && Text.Trim("") == "" && TitleOf("") == "Untitled backlog"
  {
  }

  /** Of the lines of the text, the first that is not blank makes the title; without one it is a fixed text. */
  lemma {:induction false} TitleIsFirstLine(text: string, lines: seq<string>)
    requires lines == Text.SplitOn(text, '\n')
    ensures AllBlank(lines) ==> TitleOf(text) == "Untitled backlog"
    ensures forall k :: IsFirstNonBlank(lines, k) ==>
                var line := Text.Trim(lines[k]);
                TitleOf(text) == if |line| <= 96 then line else line[..93] + "..."
    ensures 0 < |TitleOf(text)| <= 96
    decreases |text|
  {
    SplitAtFirstLine(text);
    NoText();
    hide Text.Trim, Text.SplitOn, FirstLine, AfterFirstLine;
    if text == "" || Text.Trim(lines[0]) != "" {
      assert forall k :: 0 < k <= |lines| ==> lines[..k][0] == lines[0];
    } else {
      var rest := AfterFirstLine(text);
      var more := Text.SplitOn(rest, '\n');
      TitleIsFirstLine(rest, more);
      if '\n' in text {
        assert AllBlank(lines) ==> AllBlank(more);
        forall k | IsFirstNonBlank(lines, k) ensures TitleOf(text) == CutLine(Text.Trim(lines[k])) {
          assert forall j :: 0 <= j < k - 1 ==> more[j] == lines[j + 1] == lines[..k][j + 1];
          assert IsFirstNonBlank(more, k - 1);
        }
      }
    }
  }

  function NonBlank(s: Option<string>): Option<string> {
    if s.Some? && Text.Trim(s.value) != "" then Some(Text.Trim(s.value)) else None
  }

  function IssueTitle(title: Option<string>, text: string): string {
    match NonBlank(title) case Some(t) => t case None => TitleOf(text)
  }

  function IssueDescription(description: Option<string>, title: string, text: string): Option<string> {
    match NonBlank(description)
    case Some(d) => Some(d)
    case None => if Text.Trim(text) != title then Some(Text.Trim(text)) else None
  }

  /** The row of an issue made for a text: with the title and description asked for, else made of the text. */
  predicate IsNewIssue(row: IssueRow, project: int, text: string, title: Option<string>, description: Option<string>) {
    && row.project == project && row.status == New && !row.flag && row.waitUntil.None?
    && (title.Some? && Text.Trim(title.value) != "" ==> row.title == Text.Trim(title.value))
    && (title.None? || Text.Trim(title.value) == "" ==> row.title == TitleOf(text))
    && (description.Some? && Text.Trim(description.value) != "" ==>
          row.description == Some(Text.Trim(description.value)))
    && (description.None? || Text.Trim(description.value) == "" ==>
          row.description == if Text.Trim(text) == row.title then None else Some(Text.Trim(text)))
  }

  // ---------------------------------------------------------------- routing

  /** The commit of one item: from rows `at`, in which the item was still free, by one of the two transactions. */
  ghost predicate IsCommit(at: Rows, after: Rows, project: int, item: ItemRef, outcome: Outcome) {
    && outcome.item == item.id && CanConsume(at, item.id)
    && match outcome
       case CreatedIssue(_, issue) =>
         && IsNextRowId(at.issues, issue) && NoDuplicateIn(at, project, item.text)
         && exists row: IssueRow ::
              row.project == project && row.status == New && after == Created(at, item.id, issue, row)
       case AttachedToIssue(_, issue, message) =>
         && IsTarget(at, project, issue) && IsNextRowId(at.messages, message)
         && exists m: Message :: m.issue == issue && after == Attached(at, item.id, issue, message, m)
  }

  predicate IsTargetDuplicate(r: Rows, project: int, text: string, issue: int) {
    IsTarget(r, project, issue) && Duplicates.IsDuplicate(text, CandidateOf(issue, r.issues[issue]))
  }

  /** Of the issues accepting messages, the duplicate of the text that no other ranks above. */
  ghost predicate IsBestDuplicate(r: Rows, project: int, text: string, issue: int) {
    && IsTargetDuplicate(r, project, text, issue)
    && forall other <- r.issues :: other != issue && IsTargetDuplicate(r, project, text, other) ==>
         Duplicates.Outranks(text, CandidateOf(issue, r.issues[issue]), CandidateOf(other, r.issues[other]))
  }

  function DuplicateNote(item: int, issue: int): string {
    "Duplicate backlog item #" + Text.ShowInt(item) + " was folded into issue #" + Text.ShowInt(issue)
    + " during routing."
  }

  ghost predicate IsAttach(at: Rows, after: Rows, item: ItemRef, issue: int, note: string, now: int,
                           r: Result<Outcome, RouteError>)
  {
    r.Ok? ==>
      && r.value.AttachedToIssue? && r.value.item == item.id && r.value.issue == issue
      && r.value.message in after.messages && after.messages[r.value.message] == Message(issue, Text.Trim(note), now)
  }

  ghost predicate IsCreation(after: Rows, project: int, item: ItemRef, title: Option<string>,
                             description: Option<string>, r: Result<Outcome, RouteError>)
  {
    r.Ok? ==>
      && r.value.CreatedIssue? && r.value.item == item.id && r.value.issue in after.issues
      && IsNewIssue(after.issues[r.value.issue], project, item.text, title, description)
  }

  /** Why an attach fails: no such issue in the project, one that takes no messages, or an item already routed. */
  function AttachError(at: Rows, project: int, issue: int): RouteError {
    if issue !in at.issues || at.issues[issue].project != project then NoCandidate
    else if !IsTarget(at, project, issue) then NotAccepting
    else AlreadyConsumed
  }

  /** A duplicate takes the item, or an issue is made as asked. */
  ghost predicate IsAttachOrCreation(at: Rows, after: Rows, project: int, item: ItemRef, title: Option<string>,
                                     description: Option<string>, now: int, r: Result<Outcome, RouteError>)
  {
    && (r.Ok? <==> CanConsume(at, item.id)) && (r.Err? ==> r.error == AlreadyConsumed)
    && (NoDuplicateIn(at, project, item.text) ==> IsCreation(after, project, item, title, description, r))
    && (!NoDuplicateIn(at, project, item.text) ==>
          exists issue :: IsBestDuplicate(at, project, item.text, issue)
                          && IsAttach(at, after, item, issue, DuplicateNote(item.id, issue), now, r))
  }

  /**
    What becomes of one item. Without an issue that accepts messages one is made; a duplicate takes it; then the
    agent decides: it is attached to the issue it named, if that was a candidate, with its message; otherwise a
    duplicate that has come up takes it, or an issue is made with what the agent gave, its error, or its mistake.
   */
  ghost predicate IsRouting(before: Rows, at: Rows, after: Rows, project: int, item: ItemRef, run: AgentRun, now: int,
                            r: Result<Outcome, RouteError>)
  {
    if (forall id <- before.issues :: !IsTarget(before, project, id)) || !NoDuplicateIn(before, project, item.text)
    then at == before && IsAttachOrCreation(at, after, project, item, None, None, now, r)
    else
      && at == Written(before, run.meanwhile)
      && match run.answer
         case Err(reason) => IsAttachOrCreation(at, after, project, item, None, Some(reason), now, r)
         case Ok(CreateNew(title, description)) =>
           IsAttachOrCreation(at, after, project, item, title, description, now, r)
         case Ok(AttachTo(issue, message)) =>
           if IsTarget(before, project, issue)
           then
             && (r.Ok? <==> IsTarget(at, project, issue) && CanConsume(at, item.id))
             && (r.Err? ==> r.error == AttachError(at, project, issue))
             && IsAttach(at, after, item, issue, message, now, r)
           else
             IsAttachOrCreation(at, after, project, item, None,
                                Some("router chose non-candidate issue " + Text.ShowInt(issue)), now, r)
  }

  lemma CommitGrows(at: Rows, after: Rows, project: int, item: ItemRef, outcome: Outcome)
    requires IsCommit(at, after, project, item, outcome)
    ensures Grows(at, after)
    ensures outcome.item in after.items && after.items[outcome.item].consumedBy == Some(outcome.issue)
    ensures outcome.issue in after.issues
  {
  }

  lemma GrowsIsTransitive(a: Rows, b: Rows, c: Rows)
    requires Grows(a, b) && Grows(b, c)
    ensures Grows(a, c)
  {
  }

  class Router {
    const tables: Tables

    constructor (tables: Tables)
      ensures this.tables == tables
    {
      this.tables := tables;
    }

    method Create(project: int, item: ItemRef, title: Option<string>, description: Option<string>)
      returns (r: Result<Outcome, RouteError>)
      requires NoDuplicateIn(tables.rows, project, item.text)
      modifies tables
      ensures tables.locks == old(tables.locks)
      ensures r.Ok? ==> r.value.CreatedIssue? && IsCommit(old(tables.rows), tables.rows, project, item, r.value)
      ensures r.Err? ==> tables.rows == old(tables.rows)
      ensures (r.Ok? <==> CanConsume(old(tables.rows), item.id)) && (r.Err? ==> r.error == AlreadyConsumed)
      ensures IsCreation(tables.rows, project, item, title, description, r)
    {
      var t := IssueTitle(title, item.text);
      var issue := tables.CreateIssueFromItem(item.id, project, t, IssueDescription(description, t, item.text));
      if issue.Err? {
        return Err(issue.error);
      }
      return Ok(CreatedIssue(item.id, issue.value));
    }

    method Attach(project: int, item: ItemRef, issue: int, note: string, now: int)
      returns (r: Result<Outcome, RouteError>)
      modifies tables
      ensures tables.locks == old(tables.locks)
      ensures r.Ok? ==> r.value.AttachedToIssue? && IsCommit(old(tables.rows), tables.rows, project, item, r.value)
      ensures r.Err? ==> tables.rows == old(tables.rows)
      ensures r.Ok? <==> IsTarget(old(tables.rows), project, issue) && CanConsume(old(tables.rows), item.id)
      ensures r.Err? ==> r.error == AttachError(old(tables.rows), project, issue)
      ensures IsAttach(old(tables.rows), tables.rows, item, issue, note, now, r)
    {
      var message := tables.AttachItemToIssue(item.id, project, issue, note, now);
      if message.Err? {
        return Err(message.error);
      }
      return Ok(AttachedToIssue(item.id, issue, message.value));
    }

    /** Attaches the item to its best duplicate, if there is one among the issues accepting messages now. */
    method AttachDuplicateIfPresent(project: int, item: ItemRef, now: int)
      returns (r: Option<Result<Outcome, RouteError>>)
      modifies tables
      ensures tables.locks == old(tables.locks)
      ensures r.None? <==> NoDuplicateIn(old(tables.rows), project, item.text)
      ensures r.None? || r.value.Err? ==> tables.rows == old(tables.rows)
      ensures r.Some? && r.value.Ok? ==> IsCommit(old(tables.rows), tables.rows, project, item, r.value.value)
      ensures r.Some? ==>
                && (r.value.Ok? <==> CanConsume(old(tables.rows), item.id))
                && (r.value.Err? ==> r.value.error == AlreadyConsumed)
                && exists issue :: IsBestDuplicate(old(tables.rows), project, item.text, issue) &&
                     IsAttach(old(tables.rows), tables.rows, item, issue, DuplicateNote(item.id, issue), now, r.value)
    {
      var cs := Candidates(tables.rows, project);
      var best := Duplicates.SelectDuplicate(item.text, cs);
      if best.None? {
        return None;
      }
      assert best.value in cs;
      BestOfCandidates(tables.rows, project, item.text, cs, best.value);
      var routed := Attach(project, item, best.value.id, DuplicateNote(item.id, best.value.id), now);
      return Some(routed);
    }

    lemma BestOfCandidates(rows: Rows, project: int, text: string, cs: seq<Duplicates.Candidate>,
                           best: Duplicates.Candidate)
      requires forall c <- cs :: IsTarget(rows, project, c.id) && c == CandidateOf(c.id, rows.issues[c.id])
      requires forall id <- rows.issues :: IsTarget(rows, project, id) ==> CandidateOf(id, rows.issues[id]) in cs
      requires Duplicates.IsBest(text, cs, best)
      ensures IsBestDuplicate(rows, project, text, best.id)
    {
      hide Duplicates.Outranks, Duplicates.IsDuplicate;
    }

    /** A duplicate takes the item if there is one now; otherwise an issue is made. */
    method AttachOrCreate(project: int, item: ItemRef, title: Option<string>, description: Option<string>, now: int)
      returns (r: Result<Outcome, RouteError>)
      modifies tables
      ensures tables.locks == old(tables.locks)
      ensures r.Ok? ==> IsCommit(old(tables.rows), tables.rows, project, item, r.value)
      ensures r.Err? ==> tables.rows == old(tables.rows)
      ensures IsAttachOrCreation(old(tables.rows), tables.rows, project, item, title, description, now, r)
    {
      hide IsCommit, IsBestDuplicate, IsCreation, IsAttach, NoDuplicateIn, DuplicateNote;
      var duplicate := AttachDuplicateIfPresent(project, item, now);
      if duplicate.Some? {
        return duplicate.value;
      }
      r := Create(project, item, title, description);
    }

    /** What follows the agent's run, from the rows it leaves behind. */
    method FollowAnswer(project: int, item: ItemRef, cs: seq<Duplicates.Candidate>, run: AgentRun, now: int,
                        ghost before: Rows)
      returns (r: Result<Outcome, RouteError>)
      requires forall id :: IsTarget(before, project, id) <==> exists c <- cs :: c.id == id
      requires tables.rows == Written(before, run.meanwhile)
      requires exists id <- before.issues :: IsTarget(before, project, id)
      requires NoDuplicateIn(before, project, item.text)
      modifies tables
      ensures tables.locks == old(tables.locks)
      ensures r.Ok? ==> IsCommit(old(tables.rows), tables.rows, project, item, r.value)
      ensures r.Err? ==> tables.rows == old(tables.rows)
      ensures IsRouting(before, old(tables.rows), tables.rows, project, item, run, now, r)
    {
      hide IsCommit, IsAttachOrCreation, IsAttach, NoDuplicateIn, IsTarget, Written;
      if run.answer.Err? {
        r := AttachOrCreate(project, item, None, Some(run.answer.error), now);
      } else if run.answer.value.CreateNew? {
        r := AttachOrCreate(project, item, run.answer.value.title, run.answer.value.description, now);
      } else if exists c <- cs :: c.id == run.answer.value.issue {
        r := Attach(project, item, run.answer.value.issue, run.answer.value.message, now);
      } else {
        var reason := "router chose non-candidate issue " + Text.ShowInt(run.answer.value.issue);
        r := AttachOrCreate(project, item, None, Some(reason), now);
      }
    }

    /** Routes one item; on success exactly one commit happened, from rows `at`, after the agent's run if any. */
    method RouteItem(project: int, item: ItemRef, run: AgentRun, now: int)
      returns (r: Result<Outcome, RouteError>, ghost at: Rows)
      modifies tables
      ensures tables.locks == old(tables.locks)
      ensures at == old(tables.rows) || at == Written(old(tables.rows), run.meanwhile)
      ensures r.Ok? ==> IsCommit(at, tables.rows, project, item, r.value)
      ensures r.Err? ==> tables.rows == at
      ensures IsRouting(old(tables.rows), at, tables.rows, project, item, run, now, r)
    {
      at := tables.rows;
      var cs := Candidates(tables.rows, project);
      CandidatesAreTargets(tables.rows, project, cs);
      hide IsCommit, IsBestDuplicate, IsCreation, IsAttach, DuplicateNote, Written;
      if cs == [] {
        assert NoDuplicateIn(at, project, item.text);
        r := Create(project, item, None, None);
        return;
      }
      var duplicate := AttachDuplicateIfPresent(project, item, now);
      if duplicate.Some? {
        r := duplicate.value;
        return;
      }
      assert cs[0] in cs && IsTarget(at, project, cs[0].id);
      tables.rows := Written(tables.rows, run.meanwhile);
      at := tables.rows;
      r := FollowAnswer(project, item, cs, run, now, old(tables.rows));
    }

    lemma CandidatesAreTargets(rows: Rows, project: int, cs: seq<Duplicates.Candidate>)
      requires forall c <- cs :: IsTarget(rows, project, c.id) && c == CandidateOf(c.id, rows.issues[c.id])
      requires forall id <- rows.issues :: IsTarget(rows, project, id) ==> CandidateOf(id, rows.issues[id]) in cs
      ensures forall id :: IsTarget(rows, project, id) <==> exists c <- cs :: c.id == id
    {
      forall id | IsTarget(rows, project, id) ensures exists c <- cs :: c.id == id {
        assert CandidateOf(id, rows.issues[id]) in cs;
      }
    }

    /** Approved, unconsumed items of the project in id order. */
    method ListApproved(project: int) returns (items: seq<ItemRef>)
      ensures forall i, j :: 0 <= i < j < |items| ==> items[i].id < items[j].id
      ensures forall k :: 0 <= k < |items| ==>
          IsListed(tables.rows, project, items[k].id) && items[k].text == tables.rows.items[items[k].id].text
      ensures ListsAll(tables.rows, project, items)
      ensures forall id :: (exists k :: 0 <= k < |items| && items[k].id == id) <==>
                  && id in tables.rows.items && tables.rows.items[id].project == project
                  && tables.rows.items[id].approval == Approved && tables.rows.items[id].consumedBy == None
    {
      var listed := set id <- tables.rows.items | IsListed(tables.rows, project, id);
      var ids := InOrder(listed);
      assert forall id :: id in ids <==> id in listed by { assert forall id :: id in ids <==> id in ToSet(ids); }
      items := [];
      for k := 0 to |ids|
        invariant |items| == k && forall j :: 0 <= j < k ==>
            ids[j] in listed && items[j] == ItemRef(ids[j], tables.rows.items[ids[j]].text)
      {
        assert ids[k] in ids;
        items := items + [ItemRef(ids[k], tables.rows.items[ids[k]].text)];
      }
      forall id <- tables.rows.items | IsListed(tables.rows, project, id)
        ensures exists k :: 0 <= k < |items| && items[k].id == id
      {
        assert id in ids;
        var k :| 0 <= k < |ids| && ids[k] == id;
        assert items[k].id == id;
      }
    }

    /**
      A batch that succeeds yields one outcome per listed item, in order, each committed once: every
      listed item ends consumed by the issue of its outcome, and every issue it created was committed
      while no issue accepting messages was a duplicate, the issues of earlier items included.
     */
    method RouteApproved(project: int, runs: nat -> AgentRun, now: int)
      returns (items: seq<ItemRef>, r: Result<seq<Outcome>, RouteError>, ghost commits: seq<Rows>,
               ghost states: seq<Rows>)
      modifies tables
      ensures tables.locks == old(tables.locks)
      ensures forall k :: 0 <= k < |items| ==> IsListed(old(tables.rows), project, items[k].id)
      ensures ListsAll(old(tables.rows), project, items)
      ensures Grows(old(tables.rows), tables.rows)
      ensures r.Ok? ==> IsRouted(tables.rows, project, items, r.value, commits)
      ensures r.Ok? ==> IsBatch(states, old(tables.rows), tables.rows, project, items, runs, now, r.value, commits)
      ensures r.Err? ==> BreaksOff(states, old(tables.rows), tables.rows, project, items, runs, now, r.error, commits)
    {
      hide IsRouting, IsBestDuplicate;
      items := ListApproved(project);
      var outcomes := [];
      commits, states := [], [tables.rows];
      for k := 0 to |items|
        invariant tables.locks == old(tables.locks)
        invariant Grows(old(tables.rows), tables.rows)
        invariant |outcomes| == |commits| == k && IsRouted(tables.rows, project, items[..k], outcomes, commits)
        invariant IsBatch(states, old(tables.rows), tables.rows, project, items[..k], runs, now, outcomes, commits)
      {
        ghost var before := tables.rows;
        var routed, at := RouteItem(project, items[k], runs(k), now);
        assert Grows(before, at);
        GrowsIsTransitive(old(tables.rows), before, at);
        if routed.Err? {
          assert (commits + [at])[..k] == commits;
          commits := commits + [at];
          r := Err(routed.error);
          return;
        }
        CommitGrows(at, tables.rows, project, items[k], routed.value);
        GrowsIsTransitive(old(tables.rows), at, tables.rows);
        OneMoreRouted(before, at, tables.rows, project, items, outcomes, commits, routed.value);
        OneMoreInBatch(states, old(tables.rows), before, at, tables.rows, project, items, runs, now, outcomes, commits,
                       routed.value);
        outcomes, commits, states := outcomes + [routed.value], commits + [at], states + [tables.rows];
      }
      assert items[..|items|] == items;
      r := Ok(outcomes);
    }

    /** The whole route: nothing happens unless the lock is taken, and it is dropped again either way. */
    method RouteApprovedLocked(project: int, runs: nat -> AgentRun, now: i64)
      returns (items: seq<ItemRef>, r: Result<seq<Outcome>, RouteError>, ghost commits: seq<Rows>,
               ghost states: seq<Rows>)
      modifies tables
      ensures !IsFree(LockOf(old(tables.locks), project), now) ==>
                && r == Ok([]) && items == [] && tables.rows == old(tables.rows)
                && LockOf(tables.locks, project) == LockOf(old(tables.locks), project)
      ensures IsFree(LockOf(old(tables.locks), project), now) ==>
                && LockOf(tables.locks, project) == None
                && (r.Ok? ==> IsRouted(tables.rows, project, items, r.value, commits))
                && (r.Ok? ==>
                      IsBatch(states, old(tables.rows), tables.rows, project, items, runs, now, r.value, commits))
                && (r.Err? ==>
                      BreaksOff(states, old(tables.rows), tables.rows, project, items, runs, now, r.error, commits))
                && ListsAll(old(tables.rows), project, items)
    {
      var acquired := tables.AcquireLock(project, now);
      if !acquired {
        return [], Ok([]), [], [];
      }
      items, r, commits, states := RouteApproved(project, runs, now);
      tables.ReleaseLock(project);
    }
  }

  predicate IsListed(r: Rows, project: int, id: int) {
    id in r.items && r.items[id].project == project && r.items[id].approval == Approved && r.items[id].consumedBy.None?
  }

  ghost predicate ListsAll(r: Rows, project: int, items: seq<ItemRef>) {
    forall id <- r.items :: IsListed(r, project, id) ==> exists k :: 0 <= k < |items| && items[k].id == id
  }

  ghost predicate RoutedAt(r: Rows, project: int, item: ItemRef, outcome: Outcome, commit: Rows) {
    && outcome.item == item.id
    && item.id in r.items && r.items[item.id].consumedBy == Some(outcome.issue) && outcome.issue in r.issues
    && CanConsume(commit, item.id)
    && (outcome.CreatedIssue? ==> NoDuplicateIn(commit, project, item.text) && outcome.issue !in commit.issues)
  }

  ghost predicate IsRouted(r: Rows, project: int, items: seq<ItemRef>, outcomes: seq<Outcome>, commits: seq<Rows>) {
    && |items| == |outcomes| == |commits|
    && (forall k :: 0 <= k < |items| ==> RoutedAt(r, project, items[k], outcomes[k], commits[k]))
    && (forall j, k :: 0 <= j < k < |items| ==> outcomes[j].issue in commits[k].issues)
  }

  /** The items were routed one after the other, each from the rows the one before left. */
  ghost predicate IsBatch(states: seq<Rows>, first: Rows, last: Rows, project: int, items: seq<ItemRef>,
                          runs: nat -> AgentRun, now: int, outcomes: seq<Outcome>, commits: seq<Rows>)
  {
    && |items| == |outcomes| == |commits| && |states| == |items| + 1
    && states[0] == first && states[|items|] == last
    && forall k :: 0 <= k < |items| ==>
         IsRouting(states[k], commits[k], states[k + 1], project, items[k], runs(k), now, Ok(outcomes[k]))
  }

  /** All items before one were routed in order, and that one failed, leaving the last rows. */
  ghost predicate BreaksOff(states: seq<Rows>, first: Rows, last: Rows, project: int, items: seq<ItemRef>,
                            runs: nat -> AgentRun, now: int, error: RouteError, commits: seq<Rows>)
  {
    exists outcomes: seq<Outcome> ::
      && |outcomes| < |items| && |commits| == |outcomes| + 1 == |states|
      && IsBatch(states, first, states[|outcomes|], project, items[..|outcomes|], runs, now, outcomes,
                 commits[..|outcomes|])
      && IsRouting(states[|outcomes|], commits[|outcomes|], last, project, items[|outcomes|], runs(|outcomes|), now,
                   Err(error))
  }

  lemma OneMoreInBatch(states: seq<Rows>, first: Rows, before: Rows, at: Rows, after: Rows, project: int,
                       items: seq<ItemRef>, runs: nat -> AgentRun, now: int, outcomes: seq<Outcome>,
                       commits: seq<Rows>, last: Outcome)
    requires |outcomes| < |items|
    requires IsBatch(states, first, before, project, items[..|outcomes|], runs, now, outcomes, commits)
    requires IsRouting(before, at, after, project, items[|outcomes|], runs(|outcomes|), now, Ok(last))
    ensures IsBatch(states + [after], first, after, project, items[..|outcomes| + 1], runs, now, outcomes + [last],
                    commits + [at])
  {
    hide IsRouting;
    var n := |outcomes|;
    assert items[..n + 1] == items[..n] + [items[n]];
  }

  lemma OneMoreRouted(before: Rows, at: Rows, after: Rows, project: int, items: seq<ItemRef>, outcomes: seq<Outcome>,
                      commits: seq<Rows>, last: Outcome)
    requires |outcomes| < |items| && IsRouted(before, project, items[..|outcomes|], outcomes, commits)
    requires Grows(before, at) && IsCommit(at, after, project, items[|outcomes|], last)
    ensures IsRouted(after, project, items[..|outcomes| + 1], outcomes + [last], commits + [at])
  {
    var n := |outcomes|;
    CommitGrows(at, after, project, items[n], last);
    GrowsIsTransitive(before, at, after);
    hide IsCommit;
    assert items[..n + 1] == items[..n] + [items[n]];
    forall k | 0 <= k < n ensures RoutedAt(after, project, items[k], outcomes[k], commits[k]) {
      assert RoutedAt(before, project, items[..n][k], outcomes[k], commits[k]);
    }
    assert RoutedAt(after, project, items[n], last, at) by { CommitIsRouted(at, after, project, items[n], last); }
    forall j | 0 <= j < n ensures outcomes[j].issue in at.issues {
      assert RoutedAt(before, project, items[..n][j], outcomes[j], commits[j]);
    }
  }

  lemma CommitIsRouted(at: Rows, after: Rows, project: int, item: ItemRef, outcome: Outcome)
    requires IsCommit(at, after, project, item, outcome)
    ensures RoutedAt(after, project, item, outcome, at)
  {
    CommitGrows(at, after, project, item, outcome);
  }
}
