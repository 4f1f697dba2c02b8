/**
 The queue's conflict protocol (internal/queue/client.go, export.go).

 A repository's task has one id, so asynq holds one slot for it. Callers of
 EnqueueIngest or EnqueueExport enqueue, and on a taken id inspect, delete and
 enqueue again, each in one atomic Redis operation, with other callers and the
 worker in between. No trigger goes unhandled but in the two ways the code
 accepts: coalescing onto a task seen active, and failing to inspect it.
*/
module IngestQueue {
  import opened Wrappers

  datatype TaskState = Scheduled | Pending | Retry | Active | Archived | Completed {
    /** A task that will still run from its start. */
    predicate NotStarted() { Scheduled? || Pending? || Retry? }
  }

  /** isTerminalTaskState. */
  predicate IsTerminal(state: TaskState) {
    state.Archived? || state.Completed?
  }

  datatype Action = Coalesce | ClearAndRetry

  /** classifyConflict; None is an inspection that failed or found nothing. */
  function ClassifyConflict(info: Option<TaskState>): (a: Action)
    ensures a.ClearAndRetry? <==> info.Some? && !info.value.NotStarted() && !info.value.Active?
  {
    if info.None? then Coalesce else if IsTerminal(info.value) then ClearAndRetry else Coalesce
  }

  // ---- the protocol ----

  datatype Outcome =
    | Enqueued
    | Uninspected                // the conflicting task could not be read
    | CoalescedInto(seen: TaskState)
    | CoalescedAfterClearing     // the second enqueue conflicted too
    | Failed                     // the one to clear was active: an error
  {
    /** A nil return that neither saw it active nor failed to inspect it. */
    predicate Promises() {
      Enqueued? || CoalescedAfterClearing? || (CoalescedInto? && !seen.Active?)
    }
  }

  datatype Pc = Inspecting | Clearing | Reenqueueing | Returned(outcome: Outcome)

  /** A caller, and how many runs had started when it began. */
  datatype Caller = Caller(pc: Pc, begun: nat)

  datatype State = State(slot: Option<TaskState>, runs: nat, callers: map<nat, Caller>)

  datatype Event =
    | Begin(i: nat, enqueueAs: TaskState)
    | Advance(i: nat, enqueueAs: TaskState)
    | Promote
    | Start
    | Finish(next: Option<TaskState>)
    | Expire

  /** What the options of an ingest (delayed) or an export (at once) make of a new task. */
  predicate New(state: TaskState) {
    state.Scheduled? || state.Pending?
  }

  function Do(s: State, e: Event): State {
    match e
    case Begin(i, enqueueAs) =>
      if i in s.callers || !New(enqueueAs) then s
      else if s.slot.None? then
        s.(slot := Some(enqueueAs), callers := s.callers[i := Caller(Returned(Enqueued), s.runs)])
      else s.(callers := s.callers[i := Caller(Inspecting, s.runs)])
    case Advance(i, enqueueAs) =>
      if i !in s.callers || !New(enqueueAs) then s else DoAdvance(s, i, enqueueAs)
    case Promote => if s.slot == Some(Scheduled) || s.slot == Some(Retry) then s.(slot := Some(Pending)) else s
    case Start =>
      if s.slot.Some? && s.slot.value.NotStarted() then s.(slot := Some(Active), runs := s.runs + 1) else s
    case Finish(next) =>
      if s.slot == Some(Active) && (next.Some? ==> next.value.Retry? || IsTerminal(next.value)) then s.(slot := next) else s
    case Expire => if s.slot.Some? && IsTerminal(s.slot.value) then s.(slot := None) else s
  }

  /** The next operation of resolveTaskIDConflict. */
  function DoAdvance(s: State, i: nat, enqueueAs: TaskState): State
    requires i in s.callers
  {
    var c := s.callers[i];
    match c.pc
    case Inspecting =>
      At(s, i, match ClassifyConflict(s.slot)
               case ClearAndRetry => Clearing
               case Coalesce => Returned(if s.slot.None? then Uninspected else CoalescedInto(s.slot.value)))
    case Clearing =>
      if s.slot == Some(Active) then At(s, i, Returned(Failed))
      else At(s, i, Reenqueueing).(slot := None)
    case Reenqueueing =>
      if s.slot.None? then At(s, i, Returned(Enqueued)).(slot := Some(enqueueAs))
      else At(s, i, Returned(CoalescedAfterClearing))
    case Returned(_) => s
  }

  function At(s: State, i: nat, pc: Pc): State
    requires i in s.callers
  {
    s.(callers := s.callers[i := s.callers[i].(pc := pc)])
  }

  function Run(s: State, events: seq<Event>): State
    decreases |events|
  {
    if events == [] then s else Run(Do(s, events[0]), events[1..])
  }

  // ---- no trigger is lost ----

  predicate Waiting(s: State) {
    s.slot.Some? && s.slot.value.NotStarted()
  }

  predicate Replacing(s: State) {
    s.slot.None? && exists j :: j in s.callers && s.callers[j].pc == Reenqueueing
  }

  /** A run started since i began, or one is still to come. */
  predicate Covered(s: State, i: nat)
    requires i in s.callers
  {
    s.runs > s.callers[i].begun || Waiting(s)
  }

  ghost predicate Inv(s: State) {
    && (forall i | i in s.callers :: s.callers[i].begun <= s.runs)
    && (forall i | i in s.callers && s.callers[i].pc == Reenqueueing ::
          s.runs > s.callers[i].begun || s.slot.None? || Waiting(s))
    && (forall i | i in s.callers && s.callers[i].pc.Returned? && s.callers[i].pc.outcome.Promises() ::
          Covered(s, i) || Replacing(s))
  }

  lemma DoKeeps(s: State, e: Event)
    requires Inv(s)
    ensures Inv(Do(s, e))
  {
    var t := Do(s, e);
    if e.Advance? && e.i in s.callers && New(e.enqueueAs) {
      AdvanceKeeps(s, e.i, e.enqueueAs);
    } else if Replacing(s) && t.slot.None? {
      var j :| j in s.callers && s.callers[j].pc == Reenqueueing;
      assert t.callers[j].pc == Reenqueueing;
    }
  }

  lemma AdvanceKeeps(s: State, i: nat, enqueueAs: TaskState)
    requires Inv(s) && i in s.callers && New(enqueueAs)
    ensures Inv(DoAdvance(s, i, enqueueAs))
  {
    var t := DoAdvance(s, i, enqueueAs);
    if t.slot.None? && t.callers[i].pc == Reenqueueing {
      assert Replacing(t);
    } else if Replacing(s) && t.slot.None? {
      var j :| j in s.callers && s.callers[j].pc == Reenqueueing;
      assert t.callers[j].pc == Reenqueueing;
    }
  }

  lemma {:induction false} RunKeeps(s: State, events: seq<Event>)
    requires Inv(s)
    ensures Inv(Run(s, events))
    decreases |events|
  {
    if events != [] {
      DoKeeps(s, events[0]);
      RunKeeps(Do(s, events[0]), events[1..]);
    }
  }

  /** Whatever the id's task was before anyone began. */
  function Initial(slot: Option<TaskState>, runs: nat): State {
    State(slot, runs, map[])
  }

  predicate Quiet(s: State) {
    forall i | i in s.callers :: s.callers[i].pc.Returned?
  }

  /**
   In any interleaving of any number of callers and the worker: once every
   caller has returned, each that promised its trigger would be handled is
   covered, even when another caller deleted what it had enqueued.
  */
  lemma NoLostTrigger(slot: Option<TaskState>, runs: nat, events: seq<Event>, i: nat)
    requires var s := Run(Initial(slot, runs), events);
      Quiet(s) && i in s.callers && s.callers[i].pc.outcome.Promises()
    ensures Covered(Run(Initial(slot, runs), events), i)
  {
    RunKeeps(Initial(slot, runs), events);
  }

  /** While callers are still running, its task is there, has run, or is about to be put back. */
  lemma CoveredOrReplaced(slot: Option<TaskState>, runs: nat, events: seq<Event>, i: nat)
    requires var s := Run(Initial(slot, runs), events);
      i in s.callers && s.callers[i].pc.Returned? && s.callers[i].pc.outcome.Promises()
    ensures var s := Run(Initial(slot, runs), events); Covered(s, i) || Replacing(s)
  {
    RunKeeps(Initial(slot, runs), events);
  }

  /**
   An inspection that ends the call leaves it uncovered at that moment exactly
   when no run has started since it began and the id is active, or free with
   nobody about to replace it. It stays so unless a task of the id waits again:
   the active one to be retried, or one a later caller enqueues.
  */
  lemma InspectionLosesExactly(s: State, i: nat, enqueueAs: TaskState)
    requires New(enqueueAs) && i in s.callers && s.callers[i].pc == Inspecting
    requires DoAdvance(s, i, enqueueAs).callers[i].pc.Returned?
    ensures var t := DoAdvance(s, i, enqueueAs);
      !(Covered(t, i) || Replacing(t)) <==>
        s.runs <= s.callers[i].begun && (s.slot == Some(Active) || (s.slot.None? && !Replacing(s)))
  {
    var t := DoAdvance(s, i, enqueueAs);
    assert forall j | j in s.callers && j != i :: t.callers[j] == s.callers[j];
    assert forall j | j in t.callers && t.callers[j].pc == Reenqueueing :: s.callers[j].pc == Reenqueueing;
    assert forall j | j in s.callers && s.callers[j].pc == Reenqueueing :: t.callers[j].pc == Reenqueueing;
  }

  /** What covers a call that is not: the active task to be retried, or a task enqueued under the free id. */
  predicate Revives(s: State, e: Event) {
    match e
    case Begin(i, enqueueAs) => s.slot.None? && New(enqueueAs) && i !in s.callers
    case Advance(i, enqueueAs) => s.slot.None? && New(enqueueAs) && i in s.callers && s.callers[i].pc == Reenqueueing
    case Finish(next) => s.slot == Some(Active) && next == Some(Retry)
    case _ => false
  }

  lemma CoveredAgainIffRevived(s: State, e: Event, i: nat)
    requires i in s.callers && !Covered(s, i)
    ensures i in Do(s, e).callers && (Covered(Do(s, e), i) <==> Revives(s, e))
  {
  }

  /** A call left uncovered stays so until a retry of the active task or another trigger. */
  lemma {:induction false} LostUntilRevived(s: State, events: seq<Event>, i: nat)
    requires Quiet(s) && i in s.callers && !Covered(s, i)
    requires forall k | 0 <= k < |events| :: !events[k].Begin? && events[k] != Finish(Some(Retry))
    ensures i in Run(s, events).callers && !Covered(Run(s, events), i)
    decreases |events|
  {
    if events != [] {
      assert !Revives(s, events[0]);
      CoveredAgainIffRevived(s, events[0], i);
      assert forall k | 0 <= k < |events[1..]| :: events[1..][k] == events[k + 1];
      LostUntilRevived(Do(s, events[0]), events[1..], i);
    }
  }

  /** The two accepted losses do happen: a trigger dropped onto the active run, and one whose task vanished. */
  lemma LossesHappen()
    ensures var s := Run(Initial(Some(Active), 1), [Begin(0, Scheduled), Advance(0, Scheduled), Finish(Some(Completed))]);
      Quiet(s) && s.callers[0].pc == Returned(CoalescedInto(Active)) && !Covered(s, 0)
    ensures var s := Run(Initial(Some(Completed), 1), [Begin(0, Scheduled), Expire, Advance(0, Scheduled)]);
      Quiet(s) && s.callers[0].pc == Returned(Uninspected) && !Covered(s, 0)
  {
    var a0 := Initial(Some(Active), 1);
    var a1 := Do(Do(a0, Begin(0, Scheduled)), Advance(0, Scheduled));
    RunOfThree(a0, Begin(0, Scheduled), Advance(0, Scheduled), Finish(Some(Completed)));
    assert a1 == State(Some(Active), 1, map[0 := Caller(Returned(CoalescedInto(Active)), 1)]);
    var b0 := Initial(Some(Completed), 1);
    var b1 := Do(Do(b0, Begin(0, Scheduled)), Expire);
    RunOfThree(b0, Begin(0, Scheduled), Expire, Advance(0, Scheduled));
    assert b1 == State(None, 1, map[0 := Caller(Inspecting, 1)]);
  }

  lemma RunOfThree(s: State, e0: Event, e1: Event, e2: Event)
    ensures Run(s, [e0, e1, e2]) == Do(Do(Do(s, e0), e1), e2)
  {
    var t := Do(s, e0);
    assert [e0, e1, e2][1..] == [e1, e2] && [e1, e2][1..] == [e2] && [e2][1..] == [];
    assert Run(t, [e1, e2]) == Run(Do(t, e1), [e2]);
    assert Run(Do(t, e1), [e2]) == Run(Do(Do(t, e1), e2), []);
  }

  // ---- the client ----

  function Get<K, V>(m: map<K, V>, k: K): Option<V> {
    if k in m then Some(m[k]) else None
  }

  datatype Job = Job(owner: string, name: string) {
    function RepoLabel(): string { owner + "/" + name }
  }

  function IngestTaskID(job: Job): string { "ingest:" + job.RepoLabel() }

  function ExportTaskID(job: Job): string { "export:" + job.RepoLabel() }

  lemma {:induction false} LabelsDistinct(a: Job, b: Job)
    requires '/' !in a.owner && '/' !in b.owner && a.RepoLabel() == b.RepoLabel()
    ensures a == b
  {
    var path := a.RepoLabel();
    assert path[|a.owner|] == '/' && path[|b.owner|] == '/';
    assert path[..|a.owner|] == a.owner && path[..|b.owner|] == b.owner;
    assert a.name == path[|a.owner| + 1..] && b.name == path[|b.owner| + 1..];
  }

  /** One task id is one repository's task of one kind; owners have no slash. */
  lemma TaskIDsDistinct(a: Job, b: Job)
    requires '/' !in a.owner && '/' !in b.owner
    ensures IngestTaskID(a) == IngestTaskID(b) <==> a == b
    ensures ExportTaskID(a) == ExportTaskID(b) <==> a == b
    ensures IngestTaskID(a) != ExportTaskID(b)
  {
    if IngestTaskID(a) == IngestTaskID(b) || ExportTaskID(a) == ExportTaskID(b) {
      assert a.RepoLabel() == IngestTaskID(a)[7..] && b.RepoLabel() == IngestTaskID(b)[7..];
      assert a.RepoLabel() == ExportTaskID(a)[7..] && b.RepoLabel() == ExportTaskID(b)[7..];
      LabelsDistinct(a, b);
    }
    assert IngestTaskID(a)[0] == 'i' && ExportTaskID(b)[0] == 'e';
  }

  /** A caller at pc, with nothing beside it, to its end. */
  function Alone(slot: Option<TaskState>, pc: Pc, enqueueAs: TaskState): State {
    var step := Advance(0, enqueueAs);
    Do(Do(Do(State(slot, 0, map[0 := Caller(pc, 0)]), step), step), step)
  }

  /** The outcome it gets, and what it leaves on the id. */
  ghost predicate Leaves(slot: Option<TaskState>, pc: Pc, enqueueAs: TaskState, outcome: Outcome, after: Option<TaskState>) {
    var t := Alone(slot, pc, enqueueAs);
    0 in t.callers && t.callers[0].pc == Returned(outcome) && t.slot == after
  }

  /** What a lone trigger does to its repository's task. */
  ghost predicate Triggers(slot: Option<TaskState>, enqueueAs: TaskState, outcome: Outcome, after: Option<TaskState>) {
    var t := Do(Initial(slot, 0), Begin(0, enqueueAs));
    0 in t.callers && Leaves(t.slot, t.callers[0].pc, enqueueAs, outcome, after)
  }

  /** It is lost only to a run already active. */
  lemma AloneCovers(slot: Option<TaskState>, enqueueAs: TaskState)
    requires New(enqueueAs)
    ensures var still := slot.Some? && !IsTerminal(slot.value);
      Triggers(slot, enqueueAs, if still then CoalescedInto(slot.value) else Enqueued, if still then slot else Some(enqueueAs))
  {
  }

  /**
   A caller that has decided to clear the id fails exactly when a run is active
   by then. Otherwise its own task takes the id, whatever was there.
  */
  lemma ClearingFailsIffActive(slot: Option<TaskState>, enqueueAs: TaskState)
    requires New(enqueueAs)
    ensures if slot == Some(Active) then Leaves(slot, Clearing, enqueueAs, Failed, slot)
            else Leaves(slot, Clearing, enqueueAs, Enqueued, Some(enqueueAs))
    ensures Leaves(slot, Reenqueueing, enqueueAs,
                   if slot.None? then Enqueued else CoalescedAfterClearing, if slot.None? then Some(enqueueAs) else slot)
  {
  }

  class Client {
    var tasks: map<string, TaskState>
    const debounce: nat

    constructor (debounce: nat)
      ensures tasks == map[] && this.debounce == debounce
    {
      tasks := map[];
      this.debounce := debounce;
    }

    /** asynq: an id that is taken, in any state, conflicts. */
    method Enqueue(taskID: string, enqueueAs: TaskState) returns (conflict: bool)
      modifies this
      ensures conflict == (taskID in old(tasks))
      ensures tasks == if conflict then old(tasks) else old(tasks)[taskID := enqueueAs]
    {
      conflict := taskID in tasks;
      if !conflict { tasks := tasks[taskID := enqueueAs]; }
    }

    method GetTaskInfo(taskID: string) returns (info: Option<TaskState>)
      ensures info == Get(tasks, taskID)
    {
      return if taskID in tasks then Some(tasks[taskID]) else None;
    }

    /** asynq deletes a task in any state but active. */
    method DeleteTask(taskID: string) returns (active: bool)
      modifies this
      ensures active == (Get(old(tasks), taskID) == Some(Active))
      ensures tasks == if active then old(tasks) else old(tasks) - {taskID}
    {
      active := taskID in tasks && tasks[taskID].Active?;
      if !active { tasks := tasks - {taskID}; }
    }

    method ResolveTaskIDConflict(taskID: string, enqueueAs: TaskState) returns (outcome: Outcome)
      requires New(enqueueAs)
      modifies this
      ensures Leaves(Get(old(tasks), taskID), Inspecting, enqueueAs, outcome, Get(tasks, taskID))
      ensures tasks - {taskID} == old(tasks) - {taskID}
    {
      var info := GetTaskInfo(taskID);
      if ClassifyConflict(info).Coalesce? {
        if info.None? { return Uninspected; }
        return CoalescedInto(info.value);
      }
      outcome := ClearAndReenqueue(taskID, enqueueAs);
    }

    /** The rest of the conflict path, which may find the id in any state by now. */
    method ClearAndReenqueue(taskID: string, enqueueAs: TaskState) returns (outcome: Outcome)
      requires New(enqueueAs)
      modifies this
      ensures Leaves(Get(old(tasks), taskID), Clearing, enqueueAs, outcome, Get(tasks, taskID))
      ensures tasks - {taskID} == old(tasks) - {taskID}
    {
      var active := DeleteTask(taskID);
      if active { return Failed; }
      var conflict := Enqueue(taskID, enqueueAs);
      return if conflict then CoalescedAfterClearing else Enqueued;
    }

    method EnqueueIngest(job: Job) returns (outcome: Outcome)
      modifies this
      ensures Triggers(Get(old(tasks), IngestTaskID(job)), if debounce > 0 then Scheduled else Pending, outcome, Get(tasks, IngestTaskID(job)))
      ensures tasks - {IngestTaskID(job)} == old(tasks) - {IngestTaskID(job)}
    {
      var enqueueAs := if debounce > 0 then Scheduled else Pending;
      var conflict := Enqueue(IngestTaskID(job), enqueueAs);
      if conflict {
        outcome := ResolveTaskIDConflict(IngestTaskID(job), enqueueAs);
      } else {
        outcome := Enqueued;
      }
    }

    method EnqueueExport(job: Job) returns (outcome: Outcome)
      modifies this
      ensures Triggers(Get(old(tasks), ExportTaskID(job)), Pending, outcome, Get(tasks, ExportTaskID(job)))
      ensures tasks - {ExportTaskID(job)} == old(tasks) - {ExportTaskID(job)}
    {
      var conflict := Enqueue(ExportTaskID(job), Pending);
      if conflict {
        outcome := ResolveTaskIDConflict(ExportTaskID(job), Pending);
      } else {
        outcome := Enqueued;
      }
    }
  }
}
