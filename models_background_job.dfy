/** A row of `background_jobs` (app/db/models/background_job.py): a job that
    embeds a prompt or FAQ or processes a document, with its progress. The
    ORM object is updated in place by its methods, so it is a class here. */
module BackgroundJobModel {
  import opened Common

  datatype JobStatus = Pending | Processing | Completed | Failed
  datatype JobType = PromptEmbedding | DocumentProcessing | FaqEmbedding | BulkEmbedding

  function JobStatusValue(s: JobStatus): (v: String)
    ensures |v| > 0
  {
    match s
    case Pending => "pending"
    case Processing => "processing"
    case Completed => "completed"
    case Failed => "failed"
  }

  function JobTypeValue(t: JobType): (v: String)
    ensures |v| > 0
  {
    match t
    case PromptEmbedding => "prompt_embedding"
    case DocumentProcessing => "document_processing"
    case FaqEmbedding => "faq_embedding"
    case BulkEmbedding => "bulk_embedding"
  }

  /** The stored enum values tell the statuses apart. */
  lemma JobStatusValueInjective(a: JobStatus, b: JobStatus)
    ensures JobStatusValue(a) == JobStatusValue(b) ==> a == b
  {
  }

  /** A job still waiting or running: what `get_active_jobs` lists. */
  predicate IsActiveStatus(s: JobStatus) { s == Pending || s == Processing }

  /** The JSON `result` column: a dict; Python treats an empty one as false. */
  type JobResult = map<String, String>

  /** `completed / total * 100` when `total > 0`, else 0. */
  function ProgressPercent(completed: int, total: int): (p: real)
    ensures total <= 0 ==> p == 0.0
    ensures total > 0 ==> p * total as real == completed as real * 100.0
    ensures 0 < total && 0 <= completed <= total ==> 0.0 <= p <= 100.0
  {
    if total > 0 then completed as real / total as real * 100.0 else 0.0
  }

  /** All steps done means 100 percent, none done means 0. */
  lemma ProgressEnds(total: int)
    requires total > 0
    ensures ProgressPercent(total, total) == 100.0
    ensures ProgressPercent(0, total) == 0.0
  {
  }

  /** Progress grows with the number of completed steps. */
  lemma ProgressMonotonic(c1: int, c2: int, total: int)
    requires c1 <= c2
    ensures ProgressPercent(c1, total) <= ProgressPercent(c2, total)
  {
    if total > 0 {
      var t := total as real;
      assert (c2 - c1) as real / t >= 0.0;
      assert c2 as real / t == c1 as real / t + (c2 - c1) as real / t;
    }
  }

  /** `round(p, 1)`: the nearest multiple of 0.1, a tie going to the even
      tenth. */
  function Round1(p: real): (r: real)
    ensures (r * 10.0).Floor as real == r * 10.0
    ensures -0.05 <= r - p <= 0.05
  {
    var k := (p * 10.0).Floor;
    var frac := p * 10.0 - k as real;
    var n := if frac > 0.5 || (frac == 0.5 && k % 2 != 0) then k + 1 else k;
    assert 0.0 <= frac < 1.0;
    assert -0.5 <= n as real - p * 10.0 <= 0.5;
    assert n as real / 10.0 * 10.0 == n as real;
    n as real / 10.0
  }

  /** A value already at one decimal comes back unchanged, so 0 and 100
      percent show as they are. */
  lemma Round1Tenths(n: int)
    ensures Round1(n as real / 10.0) == n as real / 10.0
  {
    assert (n as real / 10.0 * 10.0) == n as real;
  }

  /** Rounding never leaves the 0..100 range of a progress value. */
  lemma Round1Range(p: real)
    requires 0.0 <= p <= 100.0
    ensures 0.0 <= Round1(p) <= 100.0
  {
    var k := (p * 10.0).Floor;
    assert 0 <= k <= 1000;
    if k == 1000 {
      assert p * 10.0 == 1000.0;
    }
  }

  /** `to_dict()`: the API view of a job. `created_by_id` is not part of it. */
  datatype JobDict = JobDict(
    id: int,
    jobType: String,
    status: String,
    entityType: Option<String>,
    entityId: Option<int>,
    progress: real,
    currentStep: Option<String>,
    totalSteps: int,
    completedSteps: int,
    result: Option<JobResult>,
    errorMessage: Option<String>,
    createdAt: Time,
    startedAt: Option<Time>,
    completedAt: Option<Time>)

  class BackgroundJob {
    var id: int
    var jobType: JobType
    var status: JobStatus
    var entityType: Option<String>
    var entityId: Option<int>
    var progress: real
    var currentStep: Option<String>
    var totalSteps: int
    var completedSteps: int
    var result: Option<JobResult>
    var errorMessage: Option<String>
    var createdAt: Time
    var startedAt: Option<Time>
    var completedAt: Option<Time>
    var createdById: Option<int>

    /** A new row: the column defaults (PENDING, progress 0, one step, none
        done) for everything the caller does not pass. */
    constructor (id: int, jobType: JobType, entityType: Option<String>, entityId: Option<int>,
                 createdById: Option<int>, totalSteps: Option<int>, now: Time)
      ensures this.id == id && this.jobType == jobType
      ensures this.entityType == entityType && this.entityId == entityId
      ensures this.createdById == createdById
      ensures this.totalSteps == (if totalSteps.Some? then totalSteps.value else 1)
      ensures status == Pending && progress == 0.0 && completedSteps == 0
      ensures currentStep.None? && result.None? && errorMessage.None?
      ensures createdAt == now && startedAt.None? && completedAt.None?
    {
      this.id := id;
      this.jobType := jobType;
      status := Pending;
      this.entityType := entityType;
      this.entityId := entityId;
      progress := 0.0;
      currentStep := None;
      this.totalSteps := if totalSteps.Some? then totalSteps.value else 1;
      completedSteps := 0;
      result := None;
      errorMessage := None;
      createdAt := now;
      startedAt := None;
      completedAt := None;
      this.createdById := createdById;
    }

    /** `update_progress`: records the step counts and the percentage; the
        step label changes only when a non-empty one is given. */
    method UpdateProgress(completed: int, total: int, step: Option<String>)
      modifies this
      ensures completedSteps == completed && totalSteps == total
      ensures progress == ProgressPercent(completed, total)
      ensures currentStep == (if step.Some? && step.value != "" then step else old(currentStep))
      ensures status == old(status) && result == old(result) && errorMessage == old(errorMessage)
      ensures startedAt == old(startedAt) && completedAt == old(completedAt)
      ensures id == old(id) && jobType == old(jobType) && createdAt == old(createdAt)
      ensures entityType == old(entityType) && entityId == old(entityId) && createdById == old(createdById)
    {
      completedSteps := completed;
      totalSteps := total;
      progress := ProgressPercent(completed, total);
      if step.Some? && step.value != "" {
        currentStep := step;
      }
    }

    /** `mark_processing`: PROCESSING, started now. */
    method MarkProcessing(now: Time)
      modifies this
      ensures status == Processing && startedAt == Some(now)
      ensures progress == old(progress) && currentStep == old(currentStep)
      ensures totalSteps == old(totalSteps) && completedSteps == old(completedSteps)
      ensures result == old(result) && errorMessage == old(errorMessage) && completedAt == old(completedAt)
      ensures id == old(id) && jobType == old(jobType) && createdAt == old(createdAt)
      ensures entityType == old(entityType) && entityId == old(entityId) && createdById == old(createdById)
    {
      status := Processing;
      startedAt := Some(now);
    }

    /** `mark_completed`: COMPLETED at 100 percent; the result is replaced
        only by a non-empty one. */
    method MarkCompleted(res: Option<JobResult>, now: Time)
      modifies this
      ensures status == Completed && progress == 100.0 && completedAt == Some(now)
      ensures result == (if res.Some? && |res.value| > 0 then res else old(result))
      ensures currentStep == old(currentStep) && errorMessage == old(errorMessage)
      ensures totalSteps == old(totalSteps) && completedSteps == old(completedSteps)
      ensures startedAt == old(startedAt)
      ensures id == old(id) && jobType == old(jobType) && createdAt == old(createdAt)
      ensures entityType == old(entityType) && entityId == old(entityId) && createdById == old(createdById)
    {
      status := Completed;
      progress := 100.0;
      completedAt := Some(now);
      if res.Some? && |res.value| > 0 {
        result := res;
      }
    }

    /** `mark_failed`: FAILED with the message; progress is left where it was. */
    method MarkFailed(error: String, now: Time)
      modifies this
      ensures status == Failed && errorMessage == Some(error) && completedAt == Some(now)
      ensures progress == old(progress) && result == old(result) && currentStep == old(currentStep)
      ensures totalSteps == old(totalSteps) && completedSteps == old(completedSteps)
      ensures startedAt == old(startedAt)
      ensures id == old(id) && jobType == old(jobType) && createdAt == old(createdAt)
      ensures entityType == old(entityType) && entityId == old(entityId) && createdById == old(createdById)
    {
      status := Failed;
      errorMessage := Some(error);
      completedAt := Some(now);
    }

    /** `to_dict()`: enum members become their stored values. */
    function ToDict(): (d: JobDict)
      reads this
      ensures d.id == id && d.status == JobStatusValue(status) && d.jobType == JobTypeValue(jobType)
      ensures d.progress == Round1(progress) && d.totalSteps == totalSteps && d.completedSteps == completedSteps
      ensures d.entityType == entityType && d.entityId == entityId && d.currentStep == currentStep
      ensures d.result == result && d.errorMessage == errorMessage
      ensures d.createdAt == createdAt && d.startedAt == startedAt && d.completedAt == completedAt
    {
      JobDict(id, JobTypeValue(jobType), JobStatusValue(status), entityType, entityId, Round1(progress),
              currentStep, totalSteps, completedSteps, result, errorMessage, createdAt, startedAt, completedAt)
    }
  }
}
