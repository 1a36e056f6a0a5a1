/** How often a job is tried: the queue allows five attempts. */
module Attempts {
  import opened Common
  import opened Entities
  import opened Delivery
  import opened Leases

  /** A job that may still run has an attempt left; a returned one used at least one, and none used more
      than five. */
  ghost predicate JobOk(job: Job) {
    match job.status
    case Waiting => job.attemptsMade < 5
    case Running => job.attemptsMade < 5
    case Done(_) => 1 <= job.attemptsMade <= 5
    case Exhausted => job.attemptsMade <= 5
  }

  ghost predicate JobsOk(s: State) {
    forall id :: id in s.queue ==> JobOk(s.queue[id])
  }

  lemma JobsStep(s: State, e: Event)
    requires JobsOk(s) && Enabled(s, e)
    ensures JobsOk(Apply(s, e))
  {
    var u := Apply(s, e);
    forall id | id in u.queue ensures JobOk(u.queue[id]) {
      assert id in s.queue ==> JobOk(s.queue[id]);
    }
  }

  lemma {:induction false} JobsRun(s: State, es: seq<Event>, u: State)
    requires JobsOk(s) && Run(s, es, u)
    ensures JobsOk(u)
    decreases |es|
  {
    if es != [] {
      JobsStep(s, es[0]);
      JobsRun(Apply(s, es[0]), es[1..], u);
    }
  }

  /** In every reachable state no job was tried more than five times, and a failed attempt hands the job out
      again exactly unless it was the fifth. */
  lemma FiveAttempts(s: State, id: JobId)
    requires Reachable(s) && id in s.queue
    ensures s.queue[id].attemptsMade <= 5
    ensures s.queue[id].status in {Waiting, Running} ==> s.queue[id].attemptsMade <= 4
    ensures s.queue[id].status == Running ==>
      var u := Apply(s, FailAttempt(id));
      && u.queue[id].attemptsMade == s.queue[id].attemptsMade + 1 && u.queue[id].data == s.queue[id].data
      && u.queue[id].status == (if u.queue[id].attemptsMade == 5 then Exhausted else Waiting)
  {
    var es :| Run(Init, es, s);
    JobsRun(Init, es, s);
    assert JobOk(s.queue[id]);
  }
}
