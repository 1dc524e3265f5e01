/** The scheduled-post queue and its worker: the worker runs the same publish pass
    as the publish route, and jobs are keyed by a deterministic id. */
module Scheduler {
  import opened Base
  import opened PostModel
  import opened UserModel
  import opened Publishing

  // ---------------------------------------------------------------------------
  // The worker
  // ---------------------------------------------------------------------------

  /** How a job ends: it throws before any entry is touched, its `save()` is
      rejected, or it returns `{ success: true, postId }`. */
  datatype JobOutcome = JobPostNotFound | JobUserNotFound | JobSaveRejected | JobDone(postId: string)

  /** The worker's own copy of the loop over the entries; it collects no results. */
  method WorkerPass(post: Post, accounts: seq<SocialAccount>, send: nat -> SendOutcome, now: int)
    modifies post
    ensures post.adaptedContent == PassEntries(old(post.adaptedContent), accounts, send, now)
    ensures post.status == old(post.status) && post.publishedAt == old(post.publishedAt)
    ensures post.originalContent == old(post.originalContent) && post.targetPlatforms == old(post.targetPlatforms)
    ensures post.userId == old(post.userId) && post.images == old(post.images) && post.videos == old(post.videos)
    ensures post.scheduledAt == old(post.scheduledAt)
  {
    ghost var entries := post.adaptedContent;
    ghost var target := PassEntries(entries, accounts, send, now);
    var i := 0;
    while i < |post.adaptedContent|
      invariant 0 <= i <= |entries| && |post.adaptedContent| == |entries|
      invariant forall k :: 0 <= k < i ==> post.adaptedContent[k] == target[k]
      invariant forall k :: i <= k < |entries| ==> post.adaptedContent[k] == entries[k]
      invariant post.status == old(post.status) && post.publishedAt == old(post.publishedAt)
      invariant post.originalContent == old(post.originalContent) && post.targetPlatforms == old(post.targetPlatforms)
      invariant post.userId == old(post.userId) && post.images == old(post.images) && post.videos == old(post.videos)
      invariant post.scheduledAt == old(post.scheduledAt)
    {
      var updated, _ := PublishEntry(post.adaptedContent[i], accounts, send(i), now);
      post.adaptedContent := post.adaptedContent[i := updated];
      i := i + 1;
    }
    assert post.adaptedContent == target;
  }

  /** The job processor for `{ postId }`: the two lookups, the pass, the status
      update and the save. */
  method ProcessJob(postId: string, post: Post?, user: User?, send: nat -> SendOutcome, now: int)
    returns (r: JobOutcome)
    modifies post
    ensures post == null ==> r == JobPostNotFound
    ensures post != null && user == null ==>
              && r == JobUserNotFound
              && post.adaptedContent == old(post.adaptedContent) && post.status == old(post.status)
              && post.publishedAt == old(post.publishedAt)
    ensures post != null && user != null ==>
              && post.adaptedContent == PassEntries(old(post.adaptedContent), user.socialAccounts, send, now)
              && (post.status, post.publishedAt)
                 == Aggregate(post.adaptedContent, old(post.status), old(post.publishedAt), now)
              && (r == JobDone(postId) <==> post.Valid())
              && (r != JobDone(postId) ==> r == JobSaveRejected)
              && (old(post.Valid()) ==> r == JobDone(postId))
  {
    if post == null {
      return JobPostNotFound;
    }
    if user == null {
      return JobUserNotFound;
    }
    ghost var valid := post.Valid();
    ghost var entries := post.adaptedContent;
    WorkerPass(post, user.socialAccounts, send, now);
    UpdateStatus(post, now);
    if valid {
      PassKeepsValid(post.originalContent, post.targetPlatforms, entries, user.socialAccounts, send, now);
    }
    r := if post.Valid() then JobDone(postId) else JobSaveRejected;
  }

  // ---------------------------------------------------------------------------
  // schedulePost and cancelScheduledPost
  // ---------------------------------------------------------------------------

  const PastSchedule: string := "Scheduled time must be in the future"
  const JobName: string := "publish-post"

  /** The delay of a scheduled post, in milliseconds. */
  function ScheduleDelay(scheduledAt: int, now: int): (r: Result<nat, string>)
    ensures r.Ok? <==> scheduledAt - now > 0
    ensures r.Ok? ==> r.value == scheduledAt - now && r.value > 0
    ensures r.Err? ==> r.error == PastSchedule
  {
    var delay := scheduledAt - now;
    if delay <= 0 then Err(PastSchedule) else Ok(delay)
  }

  /** The deterministic job id. */
  function JobId(postId: string): (id: string)
    ensures |id| == |postId| + 5 && id[5..] == postId
  {
    "post-" + postId
  }

  /** Distinct posts get distinct jobs. */
  lemma JobIdInjective(a: string, b: string)
    ensures JobId(a) == JobId(b) ==> a == b
  {
    if JobId(a) == JobId(b) {
      assert a == JobId(a)[5..];
    }
  }

  /** A delayed job of the queue. */
  datatype Job = Job(name: string, postId: string, delay: nat)

  /** The queue's jobs after `add`: a job id already present is not added again. */
  function AddJob(jobs: map<string, Job>, postId: string, delay: nat): (r: map<string, Job>)
    ensures JobId(postId) in r
    ensures forall id :: id in jobs ==> id in r && r[id] == jobs[id]
    ensures forall id :: id in r && id != JobId(postId) ==> id in jobs
  {
    if JobId(postId) in jobs then jobs else jobs[JobId(postId) := Job(JobName, postId, delay)]
  }

  /** The queue's jobs after `cancelScheduledPost`: that job gone, if it was there. */
  function CancelJob(jobs: map<string, Job>, postId: string): (r: map<string, Job>)
    ensures JobId(postId) !in r
    ensures forall id :: id in r <==> id in jobs && id != JobId(postId)
    ensures forall id :: id in r ==> r[id] == jobs[id]
  {
    jobs - {JobId(postId)}
  }

  /** Cancelling a post that has no job is a no-op. */
  lemma CancelAbsent(jobs: map<string, Job>, postId: string)
    requires JobId(postId) !in jobs
    ensures CancelJob(jobs, postId) == jobs
  {
  }

  /** Scheduling a post twice leaves one job, the first. */
  lemma AddJobTwice(jobs: map<string, Job>, postId: string, d1: nat, d2: nat)
    ensures AddJob(AddJob(jobs, postId, d1), postId, d2) == AddJob(jobs, postId, d1)
  {
  }

  /** Cancelling a freshly scheduled post restores the queue. */
  lemma {:induction false} AddThenCancel(jobs: map<string, Job>, postId: string, delay: nat)
    requires JobId(postId) !in jobs
    ensures CancelJob(AddJob(jobs, postId, delay), postId) == jobs
  {
    var r := CancelJob(AddJob(jobs, postId, delay), postId);
    assert forall id :: id in r <==> id in jobs;
  }

  /** Jobs of other posts are untouched by scheduling or cancelling one post. */
  lemma OtherJobsUntouched(jobs: map<string, Job>, a: string, b: string, delay: nat)
    requires a != b && JobId(b) in jobs
    ensures JobId(b) in AddJob(jobs, a, delay) && AddJob(jobs, a, delay)[JobId(b)] == jobs[JobId(b)]
    ensures JobId(b) in CancelJob(jobs, a) && CancelJob(jobs, a)[JobId(b)] == jobs[JobId(b)]
  {
    JobIdInjective(a, b);
  }

  /** The queue, with its jobs by id. */
  class PostQueue {
    var jobs: map<string, Job>

    constructor ()
      ensures jobs == map[]
    {
      jobs := map[];
    }

    /** `schedulePost(postId, scheduledAt)`: the delay check, then `add`. */
    method SchedulePost(postId: string, scheduledAt: int, now: int) returns (r: Result<(), string>)
      modifies this
      ensures ScheduleDelay(scheduledAt, now).Err? ==> r == Err(PastSchedule) && jobs == old(jobs)
      ensures ScheduleDelay(scheduledAt, now).Ok? ==>
                r == Ok(()) && jobs == AddJob(old(jobs), postId, ScheduleDelay(scheduledAt, now).value)
    {
      var delay := scheduledAt - now;
      if delay <= 0 {
        return Err(PastSchedule);
      }
      var id := JobId(postId);
      if id !in jobs {
        jobs := jobs[id := Job(JobName, postId, delay)];
      }
      r := Ok(());
    }

    /** `cancelScheduledPost(postId)`: `getJob`, then `remove` when there is one. */
    method CancelScheduledPost(postId: string)
      modifies this
      ensures jobs == CancelJob(old(jobs), postId)
    {
      var id := JobId(postId);
      if id in jobs {
        jobs := jobs - {id};
      }
    }
  }
}
