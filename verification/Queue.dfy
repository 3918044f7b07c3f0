/** queue.Immediate: a bounded channel of jobs. */
module Queue {
  import opened Domain

  class Immediate {
    const size: nat
    var jobs: seq<Job>

    constructor (size: nat)
      ensures this.size == size && jobs == []
    {
      this.size, jobs := size, [];
    }

    /** The select of a send against the end of the caller's context; a call with neither ready does not return. */
    method Enqueue(job: Job, ended: Option<Error>) returns (err: Option<Error>)
      requires |jobs| < size || ended.Some?
      modifies this
      ensures err.None? ==> |old(jobs)| < size && jobs == old(jobs) + [job]
      ensures err.Some? ==> err == ended && jobs == old(jobs)
    {
      var first: bool := *;
      if |jobs| < size && (first || ended.None?) {
        jobs := jobs + [job];
        return None;
      }
      return ended;
    }

    /** The select of a receive against the end of the consumer's context. */
    method Dequeue(ended: Option<Error>) returns (r: Result<Job>)
      requires jobs != [] || ended.Some?
      modifies this
      ensures r.Ok? ==> old(jobs) == [r.value] + jobs
      ensures r.Err? ==> ended == Some(r.error) && jobs == old(jobs)
    {
      var first: bool := *;
      if jobs != [] && (first || ended.None?) {
        var job := jobs[0];
        jobs := jobs[1..];
        return Ok(job);
      }
      return Err(ended.value);
    }
  }
}
