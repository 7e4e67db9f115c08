/** The plan document: snapshot and transition validation (internal/workspace/plan.go),
    one validated write (PlanWriter.handle) and the post-spawn audit
    (internal/workspace/scope.go). */
module Plans {
  import opened Common

  datatype Status = Pending | Running | Done | Failed | Cancelled | Unknown(raw: string)

  datatype Task = Task(title: string, agent: string, status: Status, attempt: int, dependsOn: seq<string>,
                       inputPaths: seq<string>, outputDir: string, frozen: bool, summaryRef: string,
                       startedAt: int, endedAt: int)

  datatype Deliverable = Deliverable(path: string, promotedFrom: string, promotedAt: int)

  datatype Plan = Plan(sessionId: string, createdAt: int, updatedAt: int, tasks: map<string, Task>,
                       deliverables: seq<Deliverable>)

  predicate TaskValid(t: Task, tasks: map<string, Task>) {
    && t.title != "" && t.agent != "" && !t.status.Unknown?
    && (t.status == Done ==> t.summaryRef != "")
    && forall dep :: dep in t.dependsOn ==> dep in tasks
  }

  /** Validate. */
  predicate Valid(p: Plan) {
    p.sessionId != "" && forall id :: id in p.tasks ==> TaskValid(p.tasks[id], p.tasks)
  }

  /** Every task frozen before is there and frozen after. */
  predicate KeepsFrozen(before: Plan, after: Plan) {
    forall id :: id in before.tasks && before.tasks[id].frozen ==> id in after.tasks && after.tasks[id].frozen
  }

  /** ValidateTransitionFrom. */
  predicate TransitionOk(before: Plan, after: Plan) {
    KeepsFrozen(before, after) && Valid(after)
  }

  /** An edit of the plan; None is an error. */
  type Edit = Plan -> Option<Plan>

  datatype Reply = Success | EditError | Stopped | ContextDone

  /** What is on disk after one edit, and the reply; a missing or unreadable file is None,
      and a failed atomic write leaves the old file. */
  function Handled(disk: Option<Plan>, edit: Edit, now: int, writes: bool): (Option<Plan>, Reply) {
    if disk.None? then (disk, EditError)
    else
      var next := edit(disk.value);
      if next.None? || !TransitionOk(disk.value, next.value) || !writes then (disk, EditError)
      else (Some(next.value.(updatedAt := now)), Success)
  }

  /** The edit can be applied to what is on disk. */
  predicate Applicable(disk: Option<Plan>, edit: Edit) {
    && disk.Some? && edit(disk.value).Some?
    && Valid(edit(disk.value).value) && KeepsFrozen(disk.value, edit(disk.value).value)
  }

  /** after is before as the edit leaves it, with the time of the write. */
  predicate Edited(before: Plan, edit: Edit, now: int, after: Plan) {
    edit(before).Some? &&
    var e := edit(before).value;
    && after.sessionId == e.sessionId && after.createdAt == e.createdAt && after.tasks == e.tasks
    && after.deliverables == e.deliverables && after.updatedAt == now
  }

  /** Success exactly when the file could be read, the edit agreed, the transition is
      allowed and the write went through, and then the edited plan is on disk; anything
      else leaves the file alone. */
  lemma HandledExactly(disk: Option<Plan>, edit: Edit, now: int, writes: bool)
    ensures var (after, reply) := Handled(disk, edit, now, writes);
            && (reply == Success || reply == EditError)
            && (reply == Success <==> writes && Applicable(disk, edit))
            && (reply != Success ==> after == disk)
            && (reply == Success ==> after.Some? && Edited(disk.value, edit, now, after.value)
                                     && Valid(after.value) && KeepsFrozen(disk.value, after.value))
  {
  }

  /** One session's plan.json and its clock and disk. */
  class PlanFile {
    var disk: Option<Plan>

    constructor (plan: Option<Plan>)
      ensures disk == plan
    {
      disk := plan;
    }

    method Handle(edit: Edit, now: int, writes: bool) returns (reply: Reply)
      modifies this
      ensures (disk, reply) == Handled(old(disk), edit, now, writes)
      ensures reply == Success <==> writes && Applicable(old(disk), edit)
      ensures reply == Success ==> disk.Some? && Edited(old(disk).value, edit, now, disk.value)
      ensures reply == Success ==> Valid(disk.value) && KeepsFrozen(old(disk).value, disk.value)
      ensures reply != Success ==> reply == EditError && disk == old(disk)
    {
      HandledExactly(disk, edit, now, writes);
      if disk.None? {
        return EditError;
      }
      var next := edit(disk.value);
      if next.None? {
        return EditError;
      }
      if !TransitionOk(disk.value, next.value) {
        return EditError;
      }
      if !writes {
        return EditError;
      }
      disk := Some(next.value.(updatedAt := now));
      return Success;
    }
  }

  // ----- The post-spawn audit -----

  function MarkFailed(taskId: string, now: int): Edit {
    (p: Plan) =>
      if taskId !in p.tasks || p.tasks[taskId].frozen then Some(p)
      else Some(p.(tasks := p.tasks[taskId := p.tasks[taskId].(status := Failed, endedAt := now)]))
  }

  function MetaRel(taskId: string): string {
    "tasks/" + taskId + "/meta.json"
  }

  function MarkDone(taskId: string, now: int): Edit {
    (p: Plan) =>
      if taskId !in p.tasks || p.tasks[taskId].frozen then Some(p)
      else Some(p.(tasks := p.tasks[taskId := p.tasks[taskId].(status := Done, summaryRef := MetaRel(taskId), endedAt := now)]))
  }

  /** b differs from a at most in one task, and that one was not frozen. */
  ghost predicate TouchesOnly(a: Plan, b: Plan, taskId: string) {
    && b == a.(tasks := b.tasks) && b.tasks.Keys == a.tasks.Keys
    && (forall id :: id in a.tasks && id != taskId ==> b.tasks[id] == a.tasks[id])
    && (taskId in a.tasks && a.tasks[taskId].frozen ==> b == a)
  }

  lemma EditedTaskValid(p: Plan, taskId: string, t: Task)
    requires Valid(p) && taskId in p.tasks && !p.tasks[taskId].frozen
    requires t.title == p.tasks[taskId].title && t.agent == p.tasks[taskId].agent && !t.status.Unknown?
    requires t.dependsOn == p.tasks[taskId].dependsOn && (t.status == Done ==> t.summaryRef != "")
    ensures TransitionOk(p, p.(tasks := p.tasks[taskId := t]))
    ensures TouchesOnly(p, p.(tasks := p.tasks[taskId := t]), taskId)
  {
  }

  /** On a valid plan no edit of the audit can be rejected, and none touches a frozen
      task or any task but its own. */
  lemma AuditEditsAccepted(p: Plan, taskId: string, now: int)
    requires Valid(p)
    ensures MarkFailed(taskId, now)(p).Some? && MarkDone(taskId, now)(p).Some?
    ensures TransitionOk(p, MarkFailed(taskId, now)(p).value) && TransitionOk(p, MarkDone(taskId, now)(p).value)
    ensures TouchesOnly(p, MarkFailed(taskId, now)(p).value, taskId)
    ensures TouchesOnly(p, MarkDone(taskId, now)(p).value, taskId)
  {
    if taskId in p.tasks && !p.tasks[taskId].frozen {
      var t := p.tasks[taskId];
      EditedTaskValid(p, taskId, t.(status := Failed, endedAt := now));
      EditedTaskValid(p, taskId, t.(status := Done, summaryRef := MetaRel(taskId), endedAt := now));
    }
  }

  /** What reading a task's meta.json gives. */
  datatype Meta = Missing | ReadError | Malformed | Invalid | Good

  datatype Audit = Audit(produced: bool, failed: bool)

  /** The status that the audit records. */
  function AuditEdit(meta: Meta, taskId: string, now: int): Edit {
    if meta == Good then MarkDone(taskId, now) else MarkFailed(taskId, now)
  }

  /** The plan after an audit: the task, if the plan has it unfrozen, is done with its
      summary when meta.json was good and has failed otherwise, as of now; nothing else
      has changed but the time of the write. */
  ghost predicate Audited(before: Plan, after: Plan, meta: Meta, taskId: string, now: int) {
    && after == before.(tasks := after.tasks, updatedAt := now) && after.tasks.Keys == before.tasks.Keys
    && (forall id :: id in before.tasks && id != taskId ==> after.tasks[id] == before.tasks[id])
    && (taskId in before.tasks && before.tasks[taskId].frozen ==> after.tasks[taskId] == before.tasks[taskId])
    && (taskId in before.tasks && !before.tasks[taskId].frozen ==>
          var t, u := before.tasks[taskId], after.tasks[taskId];
          && u == t.(status := u.status, summaryRef := u.summaryRef, endedAt := now)
          && u.status == (if meta == Good then Done else Failed)
          && u.summaryRef == (if meta == Good then "tasks/" + taskId + "/meta.json" else t.summaryRef))
  }

  lemma AuditReads(before: Plan, after: Plan, meta: Meta, taskId: string, now: int)
    requires Edited(before, AuditEdit(meta, taskId, now), now, after)
    ensures Audited(before, after, meta, taskId, now)
  {
  }

  /** ReconcileSpawnReturn. */
  method ReconcileSpawnReturn(file: PlanFile, rootDir: string, rootSid: string, taskId: string, meta: Meta, now: int, writes: bool)
    returns (audit: Audit)
    modifies file
    ensures rootDir == "" || rootSid == "" || taskId == "" ==> audit == Audit(false, false) && file.disk == old(file.disk)
    ensures rootDir != "" && rootSid != "" && taskId != "" ==>
              var stored := writes && Applicable(old(file.disk), AuditEdit(meta, taskId, now));
              && (old(file.disk).Some? && Valid(old(file.disk).value) ==> stored == writes)
              && audit == Audit(meta == Good && stored, meta == ReadError || meta == Malformed || meta == Invalid || !stored)
              && (stored ==>
                    && file.disk.Some? && Audited(old(file.disk).value, file.disk.value, meta, taskId, now)
                    && TouchesOnly(old(file.disk).value.(updatedAt := now), file.disk.value, taskId)
                    && Valid(file.disk.value))
              && (!stored ==> file.disk == old(file.disk))
  {
    if rootDir == "" || rootSid == "" || taskId == "" {
      return Audit(false, false);
    }
    ghost var before := file.disk;
    if before.Some? && Valid(before.value) {
      AuditEditsAccepted(before.value, taskId, now);
    }
    var reply;
    match meta {
      case Missing =>
        reply := file.Handle(MarkFailed(taskId, now), now, writes);
        audit := Audit(false, reply != Success);
      case ReadError =>
        reply := file.Handle(MarkFailed(taskId, now), now, writes);
        audit := Audit(false, true);
      case Malformed =>
        reply := file.Handle(MarkFailed(taskId, now), now, writes);
        audit := Audit(false, true);
      case Invalid =>
        reply := file.Handle(MarkFailed(taskId, now), now, writes);
        audit := Audit(false, true);
      case Good =>
        reply := file.Handle(MarkDone(taskId, now), now, writes);
        audit := Audit(reply == Success, reply != Success);
    }
    if reply == Success {
      AuditReads(before.value, file.disk.value, meta, taskId, now);
    }
  }
}
