/**
  Queue messages: guidance appended to an issue, shown to the next agent, and consumed after it.

  `Queue` is the table with its four statements, proved against functions on `Store`; below it, the
  same functions are the steps of a system in which phases, users and the backlog router interleave.
 */
module Steering {
  import opened Wrappers
  import opened IssueState

  datatype Source = Human | Consolidation

  datatype Message = Message(
    issue: int, source: Source, note: string, createdAt: int, consumed: bool, consumedAt: Option<int>)

  /** The message table, and the re-trigger flag of every issue row. */
  datatype Store = Store(messages: map<int, Message>, flags: map<int, bool>)

  datatype AddError = NoIssue | NotAccepting

  // ---------------------------------------------------------------- the statements

  function Append(s: Store, id: int, m: Message): Store
    requires m.issue in s.flags
  {
    Store(s.messages[id := m], s.flags[m.issue := true])
  }

  function Pending(s: Store, issue: int): set<int> {
    set id <- s.messages | s.messages[id].issue == issue && !s.messages[id].consumed
  }

  function MarkConsumed(s: Store, issue: int, ids: set<int>, now: int): map<int, Message> {
    map id <- s.messages ::
      if id in ids && id in Pending(s, issue)
      then s.messages[id].(consumed := true, consumedAt := Some(now)) else s.messages[id]
  }

  predicate SameContent(a: Message, b: Message) {
    a.issue == b.issue && a.source == b.source && a.note == b.note && a.createdAt == b.createdAt
  }

  /** The same message: nothing changed but, possibly, that it became consumed. */
  predicate IsLaterForm(after: Message, before: Message) {
    SameContent(after, before) && (before.consumed ==> after == before)
  }

  function SetFlag(s: Store, issue: int, flag: bool): Store {
    if issue in s.flags then s.(flags := s.flags[issue := flag]) else s
  }

  function ConsumedAll(s: Store, issue: int, now: int): Store {
    SetFlag(s.(messages := MarkConsumed(s, issue, s.messages.Keys, now)), issue, false)
  }

  /** Consuming no ids leaves even the flag alone; otherwise it is recomputed from what is left. */
  function ConsumedIds(s: Store, issue: int, ids: set<int>, now: int): Store {
    if ids == {} then s
    else
      var marked := s.(messages := MarkConsumed(s, issue, ids, now));
      SetFlag(marked, issue, Pending(marked, issue) != {})
  }

  /** Deleting a pending message does not touch the flag. */
  function Removed(s: Store, id: int): Store {
    s.(messages := s.messages - {id})
  }

  class Queue {
    var messages: map<int, Message>
    var flags: map<int, bool>
    const statuses: map<int, Status>       // the issue rows the queue reads and never writes

    predicate Valid()
      reads this
    {
      flags.Keys == statuses.Keys
    }

    function Contents(): Store
      reads this
    {
      Store(messages, flags)
    }

    method Add(issue: int, source: Source, note: string, now: int) returns (r: Result<int, AddError>)
      requires Valid()
      modifies this
      ensures Valid()
      ensures r == Err(NoIssue) <==> issue !in statuses
      ensures r == Err(NotAccepting) <==> issue in statuses && !AcceptsQueueMessage(statuses[issue])
      ensures r.Err? ==> Contents() == old(Contents())
      ensures r.Ok? ==> IsNextRowId(old(messages), r.value)
      ensures r.Ok? ==> Contents() == Append(old(Contents()), r.value, Message(issue, source, note, now, false, None))
    {
      if issue !in statuses {
        return Err(NoIssue);
      }
      if !AcceptsQueueMessage(statuses[issue]) {
        return Err(NotAccepting);
      }
      var id := NextRowId(messages);
      messages := messages[id := Message(issue, source, note, now, false, None)];
      flags := flags[issue := true];
      return Ok(id);
    }

    /** Ids of the issue's unconsumed messages, oldest first. */
    method ListPending(issue: int) returns (ids: seq<int>)
      ensures IsIncreasing(ids)
      ensures ToSet(ids) == Pending(Contents(), issue)
    {
      ids := InOrder(Pending(Contents(), issue));
    }

    method ConsumeAll(issue: int, now: int)
      modifies this
      ensures Contents() == ConsumedAll(old(Contents()), issue, now)
      ensures Pending(Contents(), issue) == {} && (issue in flags ==> !flags[issue])
      ensures messages.Keys == old(messages).Keys && flags.Keys == old(flags).Keys
      ensures forall id <- messages :: IsLaterForm(messages[id], old(messages)[id])
      ensures forall id <- messages :: messages[id].issue != issue ==> messages[id] == old(messages)[id]
      ensures forall other <- flags :: other != issue ==> flags[other] == old(flags)[other]
    {
      messages := MarkConsumed(Contents(), issue, messages.Keys, now);
      if issue in flags {
        flags := flags[issue := false];
      }
      PendingOfMarked(old(Contents()), issue, old(messages).Keys, now, issue);
      SameSet(Pending(Contents(), issue), {});
    }

    /** One statement per id, then one recount. */
    method ConsumeIds(issue: int, ids: seq<int>, now: int)
      modifies this
      ensures Contents() == ConsumedIds(old(Contents()), issue, ToSet(ids), now)
    {
      if ids == [] {
        return;
      }
      ghost var before := Contents();
      for k := 0 to |ids|
        invariant flags == before.flags
        invariant messages == MarkConsumed(before, issue, ToSet(ids[..k]), now)
      {
        MarkOneMore(before, issue, ToSet(ids[..k]), ids[k], now);
        messages := MarkConsumed(Contents(), issue, {ids[k]}, now);
        assert ToSet(ids[..k + 1]) == ToSet(ids[..k]) + {ids[k]};
      }
      assert ids[..|ids|] == ids && ids[0] in ToSet(ids);
      var pending := Pending(Contents(), issue);
      if issue in flags {
        flags := flags[issue := pending != {}];
      }
    }

    method RemovePending(id: int) returns (removed: bool)
      modifies this
      ensures removed <==> id in old(messages) && !old(messages)[id].consumed
      ensures Contents() == if removed then Removed(old(Contents()), id) else old(Contents())
    {
      removed := id in messages && !messages[id].consumed;
      if removed {
        messages := messages - {id};
      }
    }
  }

  lemma MarkOneMore(s: Store, issue: int, ids: set<int>, id: int, now: int)
    ensures MarkConsumed(s.(messages := MarkConsumed(s, issue, ids, now)), issue, {id}, now)
            == MarkConsumed(s, issue, ids + {id}, now)
  {
  }

  // ---------------------------------------------------------------- the step system

  /** A phase in flight: the messages its prompt was built from, and whether its replay succeeded. */
  datatype Run = Run(issue: int, prompted: map<int, Message>, replayed: bool)

  datatype State = State(store: Store, statuses: map<int, Status>, runs: map<nat, Run>)

  datatype Step =
    | Add(id: int, m: Message)                 // a user message; the status check may already be stale
    | Attach(id: int, m: Message)              // a routed backlog item
    | BuildPrompt(run: nat, issue: int)
    | ReplayOk(run: nat)
    | ReplayFailed(run: nat)
    | Consume(run: nat, now: int)
    | ConsumeFailed(run: nat)
    | ConsumeEverything(issue: int, now: int)
    | Remove(id: int)
    | SetStatus(issue: int, to: Status)

  predicate IsNew(s: State, id: int, m: Message) {
    IsNextRowId(s.store.messages, id) && m.issue in s.store.flags && !m.consumed
  }

  predicate Enabled(s: State, step: Step) {
    match step
    case Add(id, m) => IsNew(s, id, m)
    case Attach(id, m) => IsNew(s, id, m) && m.issue in s.statuses && AcceptsQueueMessage(s.statuses[m.issue])
    case BuildPrompt(run, issue) => run !in s.runs && issue in s.statuses
    case ReplayOk(run) => run in s.runs && !s.runs[run].replayed
    case ReplayFailed(run) => run in s.runs && !s.runs[run].replayed
    case Consume(run, _) => run in s.runs && s.runs[run].replayed
    case ConsumeFailed(run) => run in s.runs && s.runs[run].replayed
    case ConsumeEverything(_, _) => true
    case Remove(id) => id in s.store.messages && !s.store.messages[id].consumed
    case SetStatus(issue, _) => issue in s.statuses
  }

  function Apply(s: State, step: Step): State
    requires Enabled(s, step)
  {
    match step
    case Add(id, m) => s.(store := Append(s.store, id, m))
    case Attach(id, m) =>
      s.(store := Append(s.store, id, m), statuses := s.statuses[m.issue := AfterAttach(s.statuses[m.issue])])
    case BuildPrompt(run, issue) => s.(runs := s.runs[run := Run(issue, PromptOf(s.store, issue), false)])
    case ReplayOk(run) => s.(runs := s.runs[run := s.runs[run].(replayed := true)])
    case ReplayFailed(run) => s.(runs := s.runs - {run})
    case Consume(run, now) =>
      s.(store := ConsumedIds(s.store, s.runs[run].issue, s.runs[run].prompted.Keys, now), runs := s.runs - {run})
    case ConsumeFailed(run) => s.(runs := s.runs - {run})
    case ConsumeEverything(issue, now) => s.(store := ConsumedAll(s.store, issue, now))
    case Remove(id) => s.(store := Removed(s.store, id))
    case SetStatus(issue, to) => s.(statuses := s.statuses[issue := to])
  }

  function PromptOf(s: Store, issue: int): map<int, Message> {
    map id <- Pending(s, issue) :: s.messages[id]
  }

  function Outcome(start: State, steps: seq<Step>): Option<State> {
    if steps == [] then Some(start)
    else
      var before := Outcome(start, steps[..|steps| - 1]);
      if before.Some? && Enabled(before.value, steps[|steps| - 1])
      then Some(Apply(before.value, steps[|steps| - 1]))
      else None
  }

  // ---------------------------------------------------------------- the re-trigger flag

  ghost predicate FlagCoversPending(s: Store) {
    forall issue <- s.flags :: Pending(s, issue) != {} ==> s.flags[issue]
  }

  ghost predicate FlagIsExact(s: Store) {
    forall issue <- s.flags :: s.flags[issue] <==> Pending(s, issue) != {}
  }

  /** Appending one pending message changes the pending set of its own issue only. */
  lemma PendingOfAppend(s: Store, id: int, m: Message, issue: int)
    requires id !in s.messages && m.issue in s.flags && !m.consumed
    ensures Pending(Append(s, id, m), issue) == Pending(s, issue) + if issue == m.issue then {id} else {}
  {
  }

  lemma PendingOfMarked(s: Store, issue: int, ids: set<int>, now: int, other: int)
    ensures Pending(s.(messages := MarkConsumed(s, issue, ids, now)), other)
            == Pending(s, other) - if other == issue then ids else {}
  {
    var s' := s.(messages := MarkConsumed(s, issue, ids, now));
    var gone := if other == issue then ids else {};
    forall id <- s.messages ensures id in Pending(s', other) <==> id in Pending(s, other) && id !in gone {}
    assert Pending(s', other) == Pending(s, other) - gone;
  }

  lemma ConsumedIdsKeepsFlag(s: Store, issue: int, ids: set<int>, now: int)
    ensures FlagCoversPending(s) ==> FlagCoversPending(ConsumedIds(s, issue, ids, now))
    ensures FlagIsExact(s) ==> FlagIsExact(ConsumedIds(s, issue, ids, now))
  {
    forall other ensures Pending(s.(messages := MarkConsumed(s, issue, ids, now)), other)
                         == Pending(s, other) - if other == issue then ids else {} {
      PendingOfMarked(s, issue, ids, now, other);
    }
    var s' := ConsumedIds(s, issue, ids, now);
    assert ids != {} ==> forall other :: Pending(s', other) == Pending(s.(messages := s'.messages), other);
  }

  lemma ConsumedAllKeepsFlag(s: Store, issue: int, now: int)
    ensures FlagCoversPending(s) ==> FlagCoversPending(ConsumedAll(s, issue, now))
    ensures FlagIsExact(s) ==> FlagIsExact(ConsumedAll(s, issue, now))
  {
    var s' := ConsumedAll(s, issue, now);
    forall other ensures Pending(s', other) == if other == issue then {} else Pending(s, other) {
      PendingOfMarked(s, issue, s.messages.Keys, now, other);
    }
  }

  lemma AppendKeepsFlag(s: Store, id: int, m: Message)
    requires id !in s.messages && m.issue in s.flags && !m.consumed
    ensures FlagCoversPending(s) ==> FlagCoversPending(Append(s, id, m))
    ensures FlagIsExact(s) ==> FlagIsExact(Append(s, id, m))
  {
    var s' := Append(s, id, m);
    forall other ensures Pending(s', other) == Pending(s, other) + if other == m.issue then {id} else {} {
      PendingOfAppend(s, id, m, other);
    }
  }

  lemma RemoveKeepsCover(s: Store, id: int)
    requires FlagCoversPending(s)
    ensures FlagCoversPending(Removed(s, id))
  {
    assert forall issue :: Pending(Removed(s, id), issue) <= Pending(s, issue);
  }

  /** Retracting a message leaves the flag right exactly when the issue has another one pending. */
  lemma RemoveKeepsFlagExactIff(s: Store, id: int)
    requires FlagIsExact(s) && id in s.messages && !s.messages[id].consumed && s.messages[id].issue in s.flags
    ensures FlagIsExact(Removed(s, id)) <==> exists other :: other in Pending(s, s.messages[id].issue) && other != id
  {
    var s' := Removed(s, id);
    var own := s.messages[id].issue;
    forall issue ensures Pending(s', issue) == Pending(s, issue) - {id} {}
    assert id in Pending(s, own);
    if Pending(s', own) == {} {
      assert s'.flags[own];
      assert forall other <- Pending(s, own) :: other == id || other in Pending(s', own);
    } else {
      NonEmptySet(Pending(s', own));
      var other :| other in Pending(s', own);
      assert other in Pending(s, own) && other != id;
    }
    assert forall issue <- s.flags :: issue != s.messages[id].issue ==> id !in Pending(s, issue);
  }

  lemma StepKeepsFlag(s: State, step: Step)
    requires Enabled(s, step)
    ensures FlagCoversPending(s.store) ==> FlagCoversPending(Apply(s, step).store)
    ensures FlagIsExact(s.store) && !step.Remove? ==> FlagIsExact(Apply(s, step).store)
  {
    match step
    case Add(id, m) => AppendKeepsFlag(s.store, id, m);
    case Attach(id, m) => AppendKeepsFlag(s.store, id, m);
    case Consume(run, now) => ConsumedIdsKeepsFlag(s.store, s.runs[run].issue, s.runs[run].prompted.Keys, now);
    case ConsumeEverything(issue, now) => ConsumedAllKeepsFlag(s.store, issue, now);
    case Remove(id) => if FlagCoversPending(s.store) { RemoveKeepsCover(s.store, id); }
    case _ =>
  }

  /**
    Over every run, an issue with a pending message has its flag set, so the message is not forgotten;
    without retractions the flag is set exactly while a message is pending.
   */
  lemma {:induction false} FlagFollowsPending(start: State, steps: seq<Step>)
    requires FlagIsExact(start.store) && Outcome(start, steps).Some?
    ensures FlagCoversPending(Outcome(start, steps).value.store)
    ensures (forall step <- steps :: !step.Remove?) ==> FlagIsExact(Outcome(start, steps).value.store)
  {
    if steps != [] {
      var n := |steps| - 1;
      FlagFollowsPending(start, steps[..n]);
      StepKeepsFlag(Outcome(start, steps[..n]).value, steps[n]);
    }
  }

  // ---------------------------------------------------------------- messages are read before they are consumed

  lemma StepKeepsMessage(s: State, step: Step, id: int)
    requires Enabled(s, step) && id in s.store.messages && step != Remove(id)
    ensures id in Apply(s, step).store.messages
    ensures IsLaterForm(Apply(s, step).store.messages[id], s.store.messages[id])
  {
  }

  /** A message of a live prompt is still in the table, under its id. */
  predicate StillThere(s: State, run: nat, id: int)
    requires run in s.runs && id in s.runs[run].prompted
  {
    && id in s.store.messages && SameContent(s.store.messages[id], s.runs[run].prompted[id])
    && s.runs[run].prompted[id].issue == s.runs[run].issue
  }

  ghost predicate PromptsHold(s: State) {
    forall run <- s.runs, id <- s.runs[run].prompted :: StillThere(s, run, id)
  }

  /** No live prompt holds the message about to be retracted. */
  ghost predicate RemovalIsSafe(s: State, step: Step) {
    step.Remove? ==> forall run <- s.runs :: step.id !in s.runs[run].prompted
  }

  lemma StepKeepsPrompts(s: State, step: Step)
    requires PromptsHold(s) && Enabled(s, step) && RemovalIsSafe(s, step)
    ensures PromptsHold(Apply(s, step))
  {
    var s' := Apply(s, step);
    forall run <- s'.runs, id <- s'.runs[run].prompted ensures StillThere(s', run, id) {
      if !(step.BuildPrompt? && step.run == run) {
        assert StillThere(s, run, id);
        StepKeepsMessage(s, step, id);
      }
    }
  }

  /** A retraction keeps the live prompts and the table in step exactly if no live prompt holds the message. */
  lemma RemovalKeepsPromptsIff(s: State, step: Step)
    requires PromptsHold(s) && Enabled(s, step) && step.Remove?
    ensures PromptsHold(Apply(s, step)) <==> RemovalIsSafe(s, step)
  {
    var s' := Apply(s, step);
    if run :| run in s.runs && step.id in s.runs[run].prompted {
      assert !StillThere(s', run, step.id);
    } else {
      StepKeepsPrompts(s, step);
    }
  }

  ghost predicate SafeRun(start: State, steps: seq<Step>) {
    steps == [] ||
    (var n := |steps| - 1;
     && SafeRun(start, steps[..n])
     && Outcome(start, steps).Some?
     && RemovalIsSafe(Outcome(start, steps[..n]).value, steps[n]))
  }

  lemma {:induction false} RunKeepsPrompts(start: State, steps: seq<Step>)
    requires PromptsHold(start) && SafeRun(start, steps)
    ensures Outcome(start, steps).Some? && PromptsHold(Outcome(start, steps).value)
  {
    if steps != [] {
      var n := |steps| - 1;
      RunKeepsPrompts(start, steps[..n]);
      StepKeepsPrompts(Outcome(start, steps[..n]).value, steps[n]);
    }
  }

  predicate IsPending(s: State, id: int) {
    id in s.store.messages && !s.store.messages[id].consumed
  }

  predicate BecomesConsumed(s: State, step: Step, id: int)
    requires Enabled(s, step)
  {
    IsPending(s, id) && id in Apply(s, step).store.messages && !IsPending(Apply(s, step), id)
  }

  /**
    In any state whatever, a pending message becomes consumed only by an explicit consume-everything for its issue,
    or at the end of a run of its issue that got past its replay and whose prompt held a message of that id.
   */
  lemma ConsumedOnlyByItsId(s: State, step: Step, id: int)
    requires Enabled(s, step) && BecomesConsumed(s, step, id)
    ensures || (step.ConsumeEverything? && step.issue == s.store.messages[id].issue)
            || (&& step.Consume? && s.runs[step.run].replayed && id in s.runs[step.run].prompted
                && s.runs[step.run].issue == s.store.messages[id].issue)
  {
  }

  /** Without a retraction of a prompted message, what the prompt held under that id was that very message. */
  lemma ConsumedOnlyAfterPrompt(start: State, steps: seq<Step>, s: State, step: Step, id: int)
    requires PromptsHold(start) && SafeRun(start, steps) && Outcome(start, steps) == Some(s) && Enabled(s, step)
    requires BecomesConsumed(s, step, id)
    ensures || (step.ConsumeEverything? && step.issue == s.store.messages[id].issue)
            || (&& step.Consume? && s.runs[step.run].replayed && id in s.runs[step.run].prompted
                && SameContent(s.runs[step.run].prompted[id], s.store.messages[id])
                && s.runs[step.run].issue == s.store.messages[id].issue)
  {
    ConsumedOnlyByItsId(s, step, id);
    RunKeepsPrompts(start, steps);
  }

  /** The end of a replayed run consumes every message of its prompt and touches no other one. */
  lemma ConsumeEmptiesPrompt(start: State, steps: seq<Step>, s: State, run: nat, now: int, id: int)
    requires PromptsHold(start) && SafeRun(start, steps) && Outcome(start, steps) == Some(s)
    requires Enabled(s, Consume(run, now)) && id in s.store.messages
    ensures var after := Apply(s, Consume(run, now)).store.messages;
            && id in after
            && (id in s.runs[run].prompted ==> after[id].consumed)
            && (id !in s.runs[run].prompted ==> after[id] == s.store.messages[id])
  {
    RunKeepsPrompts(start, steps);
  }

  predicate Ends(step: Step, run: nat) {
    (step.ReplayFailed? || step.Consume? || step.ConsumeFailed?) && step.run == run
  }

  lemma {:induction false} PromptStays(start: State, steps: seq<Step>, run: nat)
    requires Outcome(start, steps).Some? && run in start.runs && forall k :: 0 <= k < |steps| ==> !Ends(steps[k], run)
    ensures run in Outcome(start, steps).value.runs
    ensures Outcome(start, steps).value.runs[run].prompted == start.runs[run].prompted
  {
    if steps != [] {
      PromptStays(start, steps[..|steps| - 1], run);
    }
  }

  /**
    No message is passed over: one that is pending when a run's prompt is built is consumed, unchanged, when that
    run ends, whatever happens in between.
   */
  lemma PendingIsConsumedByItsRun(s: State, run: nat, issue: int, id: int, more: seq<Step>, last: State, now: int)
    requires PromptsHold(s) && Enabled(s, BuildPrompt(run, issue))
    requires IsPending(s, id) && s.store.messages[id].issue == issue
    requires SafeRun(Apply(s, BuildPrompt(run, issue)), more)
    requires Outcome(Apply(s, BuildPrompt(run, issue)), more) == Some(last)
    requires (forall k :: 0 <= k < |more| ==> !Ends(more[k], run)) && Enabled(last, Consume(run, now))
    ensures var after := Apply(last, Consume(run, now)).store.messages;
            id in after && after[id].consumed && SameContent(after[id], s.store.messages[id])
  {
    var begun := Apply(s, BuildPrompt(run, issue));
    assert id in begun.runs[run].prompted && begun.runs[run].prompted[id] == s.store.messages[id];
    hide Outcome, SafeRun;
    StepKeepsPrompts(s, BuildPrompt(run, issue));
    RunKeepsPrompts(begun, more);
    PromptStays(begun, more, run);
    assert StillThere(last, run, id);
    ConsumeTakesPrompted(last, run, now, id);
  }

  lemma ConsumeTakesPrompted(s: State, run: nat, now: int, id: int)
    requires Enabled(s, Consume(run, now)) && id in s.runs[run].prompted && StillThere(s, run, id)
    ensures var after := Apply(s, Consume(run, now)).store.messages;
            id in after && after[id].consumed && SameContent(after[id], s.store.messages[id])
  {
  }

  // ---------------------------------------------------------------- conservation

  function Added(steps: seq<Step>): nat {
    if steps == [] then 0
    else Added(steps[..|steps| - 1]) + if steps[|steps| - 1].Add? || steps[|steps| - 1].Attach? then 1 else 0
  }

  function Retracted(steps: seq<Step>): nat {
    if steps == [] then 0
    else Retracted(steps[..|steps| - 1]) + if steps[|steps| - 1].Remove? then 1 else 0
  }

  lemma StepChangesIds(s: State, step: Step)
    requires Enabled(s, step)
    ensures Apply(s, step).store.messages.Keys
            == s.store.messages.Keys + (if step.Add? || step.Attach? then {step.id} else {})
               - if step.Remove? then {step.id} else {}
    ensures step.Add? || step.Attach? ==> step.id !in s.store.messages
    ensures step.Remove? ==> step.id in s.store.messages
  {
  }

  lemma StepCountsMessages(s: State, step: Step)
    requires Enabled(s, step)
    ensures |Apply(s, step).store.messages|
            == |s.store.messages| + (if step.Add? || step.Attach? then 1 else 0) - if step.Remove? then 1 else 0
  {
    hide Apply, Enabled;
    StepChangesIds(s, step);
    var before, after := s.store.messages.Keys, Apply(s, step).store.messages.Keys;
    assert |before| == |s.store.messages| && |after| == |Apply(s, step).store.messages|;
  }

  /** Messages are neither lost nor duplicated: the table holds what was added and not retracted. */
  lemma {:induction false} MessagesAreConserved(start: State, steps: seq<Step>)
    requires Outcome(start, steps).Some?
    ensures |Outcome(start, steps).value.store.messages| == |start.store.messages| + Added(steps) - Retracted(steps)
  {
    if steps != [] {
      var n := |steps| - 1;
      MessagesAreConserved(start, steps[..n]);
      StepCountsMessages(Outcome(start, steps[..n]).value, steps[n]);
    }
  }

  /** A message that is never retracted keeps its content, and a consumed one is never pending again. */
  lemma {:induction false} MessagesAreAppendOnly(start: State, steps: seq<Step>, id: int)
    requires Outcome(start, steps).Some? && id in start.store.messages && Remove(id) !in steps
    ensures var after := Outcome(start, steps).value.store.messages;
            id in after && IsLaterForm(after[id], start.store.messages[id])
  {
    if steps != [] {
      var n := |steps| - 1;
      MessagesAreAppendOnly(start, steps[..n], id);
      StepKeepsMessage(Outcome(start, steps[..n]).value, steps[n], id);
    }
  }

  // ---------------------------------------------------------------- what a retraction can break

  function Note(note: string): Message {
    Message(1, Human, note, 0, false, None)
  }

  lemma Extend(start: State, steps: seq<Step>, step: Step, s: State, s': State)
    requires Outcome(start, steps) == Some(s) && Enabled(s, step) && s' == Apply(s, step)
    ensures Outcome(start, steps + [step]) == Some(s')
  {
    assert (steps + [step])[..|steps|] == steps;
  }

  lemma OutcomeOfNothing(start: State)
    ensures Outcome(start, []) == Some(start)
  {
  }

  /** The one message of an issue is retracted: nothing is pending, and the flag stays set. */
  lemma RetractionLeavesFlagSet() returns (start: State, steps: seq<Step>, s: State)
    ensures FlagIsExact(start.store) && Outcome(start, steps) == Some(s)
    ensures 1 in s.store.flags && s.store.flags[1] && Pending(s.store, 1) == {}
  {
    start := State(Store(map[], map[1 := false]), map[1 := Working], map[]);
    var s1 := start.(store := Store(map[1 := Note("a")], map[1 := true]));
    s := start.(store := Store(map[], map[1 := true]));
    Extend(start, [], Add(1, Note("a")), start, s1);
    assert s1.store.messages - {1} == map[];
    Extend(start, [] + [Add(1, Note("a"))], Remove(1), s1, s);
    steps := [] + [Add(1, Note("a"))] + [Remove(1)];
  }

  /**
    Whenever the last row is retracted while a live prompt holds it, what follows can consume unread: the next
    message for the issue gets its id, and the run consumes that one, however different it is.
   */
  lemma RetractionCanConsumeUnread(s: State, id: int, run: nat, m: Message, now: int) returns (steps: seq<Step>)
    requires Enabled(s, Remove(id)) && IsNextRowId(Removed(s.store, id).messages, id)
    requires run in s.runs && id in s.runs[run].prompted
    requires m.issue == s.runs[run].issue && m.issue in s.store.flags && !m.consumed
    ensures forall k :: 0 <= k < |steps| ==> !steps[k].BuildPrompt? && !steps[k].ConsumeEverything?
    ensures var after := Outcome(s, steps);
            && after.Some? && id in after.value.store.messages
            && after.value.store.messages[id] == m.(consumed := true, consumedAt := Some(now))
  {
    hide Outcome;
    var s1 := Apply(s, Remove(id));
    var s2 := Apply(s1, Add(id, m));
    OutcomeOfNothing(s);
    Extend(s, [], Remove(id), s, s1);
    Extend(s, [] + [Remove(id)], Add(id, m), s1, s2);
    steps := [] + [Remove(id)] + [Add(id, m)];
    var s3 := s2;
    if !s2.runs[run].replayed {
      s3 := Apply(s2, ReplayOk(run));
      Extend(s, steps, ReplayOk(run), s2, s3);
      steps := steps + [ReplayOk(run)];
    }
    Extend(s, steps, Consume(run, now), s3, Apply(s3, Consume(run, now)));
    steps := steps + [Consume(run, now)];
  }

  /**
    A message is retracted while a phase that was shown it runs; the next one gets its id, and the
    phase consumes that one although no prompt ever contained it.
   */
  lemma ReusedIdIsConsumedUnread() returns (start: State, steps: seq<Step>, s: State)
    ensures start.runs == map[] && Outcome(start, steps) == Some(s)
    ensures steps == [Add(1, Note("a")), BuildPrompt(0, 1), Remove(1), Add(1, Note("b")), ReplayOk(0), Consume(0, 9)]
    ensures 1 in s.store.messages && s.store.messages[1].note == "b" && s.store.messages[1].consumed
  {
    hide Outcome;
    var prompt := Run(1, map[1 := Note("a")], false);
    start := State(Store(map[], map[1 := false]), map[1 := Working], map[]);
    var s1 := start.(store := Store(map[1 := Note("a")], map[1 := true]));
    var s2 := s1.(runs := map[0 := prompt]);
    var s3 := s2.(store := Store(map[], map[1 := true]));
    var s4 := s2.(store := Store(map[1 := Note("b")], map[1 := true]));
    var s5 := s4.(runs := map[0 := prompt.(replayed := true)]);
    OutcomeOfNothing(start);
    Extend(start, [], Add(1, Note("a")), start, s1);
    assert PromptOf(s1.store, 1) == map[1 := Note("a")];
    Extend(start, [] + [Add(1, Note("a"))], BuildPrompt(0, 1), s1, s2);
    assert s2.store.messages - {1} == map[];
    steps := [] + [Add(1, Note("a"))] + [BuildPrompt(0, 1)];
    Extend(start, steps, Remove(1), s2, s3);
    steps := steps + [Remove(1)];
    Extend(start, steps, Add(1, Note("b")), s3, s4);
    steps := steps + [Add(1, Note("b"))];
    assert s4.runs[0 := prompt.(replayed := true)] == s5.runs;
    Extend(start, steps, ReplayOk(0), s4, s5);
    steps := steps + [ReplayOk(0)];
    s := Apply(s5, Consume(0, 9));
    Extend(start, steps, Consume(0, 9), s5, s);
    steps := steps + [Consume(0, 9)];
  }
}
