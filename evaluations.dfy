/** `src/app/dashboard/evaluations/page.tsx`: the evaluation history page. It loads the
    user's jobs, counts them by status, maps each status to its badge and chooses what to
    render. The list request is an opaque outcome passed in; dates are not modelled. */
module Evaluations {
  import opened Common

  datatype Status = Pending | Processing | Completed | Failed

  datatype Job = Job(id: int, status: Status, modelName: string, createdAt: string)

  /** `jobs.filter(job => job.status === status)` */
  function WithStatus(jobs: seq<Job>, status: Status): (r: seq<Job>)
    ensures forall i | 0 <= i < |r| :: r[i] in jobs && r[i].status == status
    ensures forall i | 0 <= i < |jobs| && jobs[i].status == status :: jobs[i] in r
  {
    Filter(jobs, (j: Job) => j.status == status)
  }

  /** The four counters of the stats cards. */
  datatype JobCounts = JobCounts(total: nat, completed: nat, processing: nat, pending: nat, failed: nat)

  function Counts(jobs: seq<Job>): (c: JobCounts)
    ensures c.total == |jobs|
    ensures c.completed <= c.total && c.processing <= c.total && c.pending <= c.total && c.failed <= c.total
  {
    JobCounts(|jobs|, |WithStatus(jobs, Completed)|, |WithStatus(jobs, Processing)|,
              |WithStatus(jobs, Pending)|, |WithStatus(jobs, Failed)|)
  }

  /** Every job has exactly one of the four statuses, so the counters add up to the total. */
  lemma {:induction false} CountsAddUp(jobs: seq<Job>)
    ensures var c := Counts(jobs); c.completed + c.processing + c.pending + c.failed == c.total
  {
    if jobs != [] {
      CountsAddUp(jobs[1..]);
      assert WithStatus(jobs, jobs[0].status) == [jobs[0]] + WithStatus(jobs[1..], jobs[0].status);
    }
  }

  /** `successRate`: the percentage of completed jobs, 0 when there are none. */
  function SuccessRate(jobs: seq<Job>): (r: real)
    ensures jobs == [] ==> r == 0.0
    ensures 0.0 <= r <= 100.0
  {
    var c := Counts(jobs);
    if c.total > 0 then
      FractionAtMostOne(c.completed as real, c.total as real);
      ((c.completed as real) / (c.total as real)) * 100.0
    else 0.0
  }

  lemma FractionAtMostOne(a: real, n: real)
    requires 0.0 <= a <= n && n > 0.0
    ensures 0.0 <= (a / n) * 100.0 <= 100.0
  {
  }

  datatype BadgeIcon = CheckCircle | Spinner | Clock | Times

  datatype BadgeStyle = BadgeStyle(colorScheme: string, icon: BadgeIcon, bgColor: string, borderColor: string)

  /** `StatusBadge`'s four lookup tables, indexed by the status. */
  function StatusBadge(status: Status): (b: BadgeStyle)
    ensures b.bgColor == b.colorScheme + ".50" && b.borderColor == b.colorScheme + ".200"
    ensures status == Completed ==> b.colorScheme == "green" && b.icon == CheckCircle
    ensures status == Processing ==> b.colorScheme == "blue" && b.icon == Spinner
    ensures status == Pending ==> b.colorScheme == "yellow" && b.icon == Clock
    ensures status == Failed ==> b.colorScheme == "red" && b.icon == Times
  {
    match status
    case Completed => BadgeStyle("green", CheckCircle, "green.50", "green.200")
    case Processing => BadgeStyle("blue", Spinner, "blue.50", "blue.200")
    case Pending => BadgeStyle("yellow", Clock, "yellow.50", "yellow.200")
    case Failed => BadgeStyle("red", Times, "red.50", "red.200")
  }

  /** Different statuses never share a badge colour or icon. */
  lemma BadgesDistinct(s1: Status, s2: Status)
    requires s1 != s2
    ensures StatusBadge(s1).colorScheme != StatusBadge(s2).colorScheme
    ensures StatusBadge(s1).icon != StatusBadge(s2).icon
  {
  }

  /** What `renderContent` returns. */
  datatype Content = TableSkeleton | ErrorMessage(title: string, description: string) | NoEvaluations | JobsTable

  /** `renderContent`: the first matching case wins: loading, then an error, then an empty
      list, then the table. */
  function RenderContent(isLoading: bool, error: Option<string>, jobs: seq<Job>): (c: Content)
    ensures isLoading <==> c == TableSkeleton
    ensures c.ErrorMessage? <==> !isLoading && Truthy(error)
    ensures c.ErrorMessage? ==> c == ErrorMessage("Error Loading Evaluations", error.value)
    ensures c == NoEvaluations <==> !isLoading && !Truthy(error) && jobs == []
    ensures c == JobsTable <==> !isLoading && !Truthy(error) && jobs != []
  {
    if isLoading then TableSkeleton
    else if Truthy(error) then ErrorMessage("Error Loading Evaluations", error.value)
    else if |jobs| == 0 then NoEvaluations
    else JobsTable
  }

  const NoUserId := "User ID is not available. Please log in."
  const LoadFailed := "Failed to load evaluation history. Please try again."

  /** The list request either yields the jobs or throws an error whose `message` may be
      missing or empty. */
  datatype JobsOutcome = JobsLoaded(jobs: seq<Job>) | JobsFailed(message: Option<string>)

  /** The page's state. `requests` records the user id of every list request. */
  class EvaluationsPage {
    var jobs: seq<Job>
    var isLoading: bool
    var error: Option<string>
    var requests: seq<string>

    /** The page starts loading with no jobs. */
    constructor ()
      ensures jobs == [] && isLoading && error.None? && requests == []
      ensures RenderContent(isLoading, error, jobs) == TableSkeleton
    {
      jobs, isLoading, error, requests := [], true, None, [];
    }

    /** `fetchJobs`: without a user id the error is set and nothing is requested; otherwise
        one request is made and its jobs, or its error message, are stored. Loading stops
        on every path. */
    method FetchJobs(userId: Option<string>, outcome: JobsOutcome)
      modifies this
      ensures !isLoading
      ensures !Truthy(userId) ==> error == Some(NoUserId) && jobs == old(jobs) && requests == old(requests)
      ensures Truthy(userId) ==>
        && requests == old(requests) + [userId.value]
        && (outcome.JobsLoaded? ==> jobs == outcome.jobs && error.None?)
        && (outcome.JobsFailed? ==> jobs == old(jobs) && error == Some(OrElse(outcome.message, LoadFailed)))
    {
      if !Truthy(userId) {
        error := Some(NoUserId);
        isLoading := false;
        return;
      }
      isLoading := true;
      error := None;
      requests := requests + [userId.value];
      match outcome {
        case JobsLoaded(loaded) =>
          jobs := loaded;
        case JobsFailed(message) =>
          error := Some(OrElse(message, LoadFailed));
      }
      isLoading := false;
    }

    /** The content shown for the current state. */
    function Content(): (c: Content)
      reads this
      ensures !isLoading && Truthy(error) ==> c.ErrorMessage? && c.description == error.value
    {
      RenderContent(isLoading, error, jobs)
    }
  }

  /** After a fetch the skeleton is gone: a failed fetch, or a missing user id, shows its
      error message. */
  lemma FailedFetchShowsError(jobs: seq<Job>, message: Option<string>)
    ensures RenderContent(false, Some(OrElse(message, LoadFailed)), jobs)
         == ErrorMessage("Error Loading Evaluations", OrElse(message, LoadFailed))
    ensures RenderContent(false, Some(NoUserId), jobs) == ErrorMessage("Error Loading Evaluations", NoUserId)
  {
  }
}
