/**
  The job tracker's record of one job execution or schedule, the rule by
  which two snapshots of a record are merged, and the mutable record
  object with its setters. Every Java reference field may be null, so every
  field is an `Option`. The clock is a parameter `now`.
*/
module JobTracker {
  import opened Wrappers
  import opened JavaLang

  datatype JobStatus = Running | Finished | Failed | ScheduledParent | Cancelled

  /** A schedule descriptor: first tick after `initialDelay`, then every `repeatPeriod`. */
  datatype Repeat = Repeat(initialDelay: Long, repeatPeriod: Long, timeUnit: string)

  datatype JobDetail = JobDetail(
    parentJobId: Option<string>,
    jobId: Option<string>,
    userId: Option<string>,
    status: Option<JobStatus>,
    startTime: Option<Long>,
    endTime: Option<Long>,
    opChain: Option<string>,
    description: Option<string>)

  /** The record of the no-argument constructor: every field null. */
  const Empty: JobDetail := JobDetail(None, None, None, None, None, None, None, None)

  /** The record with both timestamps cleared, for statements about the other six fields. */
  function WithoutTimes(j: JobDetail): JobDetail
  {
    j.(startTime := None, endTime := None)
  }

  /** `getNewOrOld`: the new value unless it is null. */
  function NewOrOld<T>(oldValue: Option<T>, newValue: Option<T>): (r: Option<T>)
    ensures newValue.Some? ==> r == newValue
    ensures newValue.None? ==> r == oldValue
  {
    if newValue.None? then oldValue else newValue
  }

  /**
    The two-snapshot constructor: the read-modify-write merge of an update
    into the stored record. The start time is kept from the old record, or
    stamped `now` if it had none; in the second case the end time is
    stamped `now`, otherwise it is left null.
  */
  function Merge(oldJobDetail: JobDetail, newJobDetail: JobDetail, now: Long): JobDetail
  {
    var stamped := oldJobDetail.startTime.Some?;
    JobDetail(
      parentJobId := NewOrOld(oldJobDetail.parentJobId, newJobDetail.parentJobId),
      jobId := NewOrOld(oldJobDetail.jobId, newJobDetail.jobId),
      userId := NewOrOld(oldJobDetail.userId, newJobDetail.userId),
      status := NewOrOld(oldJobDetail.status, newJobDetail.status),
      startTime := if stamped then oldJobDetail.startTime else Some(now),
      endTime := if stamped then Some(now) else None,
      opChain := NewOrOld(oldJobDetail.opChain, newJobDetail.opChain),
      description := NewOrOld(oldJobDetail.description, newJobDetail.description))
  }

  /** Each of the six non-time fields: the update's value if it carries one, else the stored one. */
  lemma MergeTakesNewOrOld(o: JobDetail, n: JobDetail, now: Long)
    ensures var r := Merge(o, n, now);
      && (n.jobId.Some? ==> r.jobId == n.jobId) && (n.jobId.None? ==> r.jobId == o.jobId)
      && (n.userId.Some? ==> r.userId == n.userId) && (n.userId.None? ==> r.userId == o.userId)
      && (n.opChain.Some? ==> r.opChain == n.opChain) && (n.opChain.None? ==> r.opChain == o.opChain)
      && (n.description.Some? ==> r.description == n.description)
      && (n.description.None? ==> r.description == o.description)
      && (n.status.Some? ==> r.status == n.status) && (n.status.None? ==> r.status == o.status)
      && (n.parentJobId.Some? ==> r.parentJobId == n.parentJobId)
      && (n.parentJobId.None? ==> r.parentJobId == o.parentJobId)
  {
  }

  /** A record that had not started is started now and has no end time. */
  lemma MergeStartsClock(o: JobDetail, n: JobDetail, now: Long)
    requires o.startTime.None?
    ensures Merge(o, n, now).startTime == Some(now)
    ensures Merge(o, n, now).endTime.None?
  {
  }

  /** A record that had started keeps its start time and is ended now. */
  lemma MergeStopsClock(o: JobDetail, n: JobDetail, now: Long)
    requires o.startTime.Some?
    ensures Merge(o, n, now).startTime == o.startTime
    ensures Merge(o, n, now).endTime == Some(now)
  {
  }

  /** Neither timestamp of the update, nor the stored end time, has any effect. */
  lemma MergeIgnoresTimes(o: JobDetail, n: JobDetail, now: Long,
                          oldEnd: Option<Long>, newStart: Option<Long>, newEnd: Option<Long>)
    ensures Merge(o.(endTime := oldEnd), n.(startTime := newStart, endTime := newEnd), now) == Merge(o, n, now)
  {
  }

  /** An update that carries nothing keeps every non-time field of the stored record. */
  lemma MergeEmptyUpdate(o: JobDetail, now: Long)
    ensures WithoutTimes(Merge(o, Empty, now)) == WithoutTimes(o)
  {
  }

  /**
    Applying the same update twice is applying it once, except that the
    second merge stamps the end time.
  */
  lemma MergeIdempotent(o: JobDetail, n: JobDetail, first: Long, second: Long)
    ensures Merge(Merge(o, n, first), n, second) == Merge(o, n, first).(endTime := Some(second))
  {
  }

  /** Merging a record with itself changes only its timestamps. */
  lemma MergeSelf(j: JobDetail, now: Long)
    ensures Merge(j, j, now)
      == j.(startTime := Some(j.startTime.GetOr(now)),
            endTime := if j.startTime.Some? then Some(now) else None)
  {
  }

  /** One update as the tracker applies it: a snapshot and the time of the merge. */
  datatype Update = Update(detail: JobDetail, now: Long)

  /** The stored record after a series of merges, oldest update first. */
  function ApplyUpdates(j: JobDetail, updates: seq<Update>): JobDetail
    decreases |updates|
  {
    if updates == [] then j
    else ApplyUpdates(Merge(j, updates[0].detail, updates[0].now), updates[1..])
  }

  /**
    Across any series of merges the start time is written at most once and
    never changes after that, and the end time is the time of the latest
    merge once the record had started before it.
  */
  lemma {:induction false} StartTimeSetOnce(j: JobDetail, updates: seq<Update>)
    ensures j.startTime.Some? ==> ApplyUpdates(j, updates).startTime == j.startTime
    ensures updates != [] ==> ApplyUpdates(j, updates).startTime == Some(j.startTime.GetOr(updates[0].now))
    ensures updates != [] && (j.startTime.Some? || |updates| > 1) ==>
              ApplyUpdates(j, updates).endTime == Some(updates[|updates| - 1].now)
    decreases |updates|
  {
    if updates != [] {
      var next := Merge(j, updates[0].detail, updates[0].now);
      StartTimeSetOnce(next, updates[1..]);
      if |updates| > 1 {
        assert updates[1..][|updates[1..]| - 1] == updates[|updates| - 1];
      }
    }
  }

  /** The constructor taking an already serialised operation chain; `now` stamps the start. */
  function Create(jobId: Option<string>, parentJobId: Option<string>, userId: Option<string>,
                  opChain: Option<string>, jobStatus: Option<JobStatus>, description: Option<string>,
                  now: Long): (r: JobDetail)
    ensures r.jobId == jobId && r.parentJobId == parentJobId && r.userId == userId
    ensures r.opChain == opChain && r.status == jobStatus && r.description == description
    ensures r.startTime == Some(now) && r.endTime.None?
  {
    JobDetail(parentJobId, jobId, userId, jobStatus, Some(now), None, opChain, description)
  }

  /** A created record that is merged later keeps its creation time and ends at the merge. */
  lemma CreateThenMerge(jobId: Option<string>, parentJobId: Option<string>, userId: Option<string>,
                        opChain: Option<string>, jobStatus: Option<JobStatus>, description: Option<string>,
                        created: Long, n: JobDetail, merged: Long)
    ensures Merge(Create(jobId, parentJobId, userId, opChain, jobStatus, description, created), n, merged).startTime
         == Some(created)
    ensures Merge(Create(jobId, parentJobId, userId, opChain, jobStatus, description, created), n, merged).endTime
         == Some(merged)
  {
  }

  /** The `IllegalArgumentException` the chain-taking constructors throw. */
  datatype IllegalArgument = IllegalArgument(message: string)

  /**
    The constructors taking an operation chain. `chainJson` is the outcome
    of serialising the chain to JSON: its text, or the message of the
    serialisation failure, which the constructor rethrows. The constructors
    without a parent id pass `None`; `repeat` is accepted and never stored.
  */
  function CreateFromChain(jobId: Option<string>, parentJobId: Option<string>, userId: Option<string>,
                           chainJson: Result<string, string>, jobStatus: Option<JobStatus>,
                           description: Option<string>, repeat: Option<Repeat>, now: Long)
    : (r: Result<JobDetail, IllegalArgument>)
    ensures r.Failure? <==> chainJson.Failure?
    ensures r.Failure? ==> r.error.message == chainJson.error
    ensures r.Success? ==> r.value.opChain == Some(chainJson.value) && r.value.startTime == Some(now)
  {
    match chainJson
    case Failure(message) => Failure(IllegalArgument(message))
    case Success(json) =>
      Success(JobDetail(parentJobId, jobId, userId, jobStatus, Some(now), None, Some(json), description))
  }

  /**
    Once the chain has been serialised, the chain-taking constructors build
    the same record as the string-taking one, whatever the repeat.
  */
  lemma CreateFromChainIsCreate(jobId: Option<string>, parentJobId: Option<string>, userId: Option<string>,
                                json: string, jobStatus: Option<JobStatus>, description: Option<string>,
                                repeat: Option<Repeat>, now: Long)
    ensures CreateFromChain(jobId, parentJobId, userId, Success(json), jobStatus, description, repeat, now)
         == Success(Create(jobId, parentJobId, userId, Some(json), jobStatus, description, now))
  {
  }

  /** `equals`: all fields but `parentJobId`, compared one by one. */
  function Equal(a: JobDetail, b: JobDetail): (r: bool)
    ensures r <==> a.(parentJobId := None) == b.(parentJobId := None)
  {
    && a.jobId == b.jobId
    && a.userId == b.userId
    && a.opChain == b.opChain
    && a.startTime == b.startTime
    && a.endTime == b.endTime
    && a.status == b.status
    && a.description == b.description
  }

  /** Records that differ only in their parent are equal, and `equals` is an equivalence. */
  lemma EqualIgnoresParent(a: JobDetail, b: JobDetail, c: JobDetail, parent: Option<string>)
    ensures Equal(a, a.(parentJobId := parent))
    ensures Equal(a, b) ==> Equal(b, a)
    ensures Equal(a, b) && Equal(b, c) ==> Equal(a, c)
  {
  }

  /** A child run and a top-level job created alike are `equals`, though their parents differ. */
  lemma EqualAcrossParents(jobId: Option<string>, userId: Option<string>, opChain: Option<string>,
                           jobStatus: Option<JobStatus>, description: Option<string>, now: Long, parent: string)
    ensures var child := Create(jobId, Some(parent), userId, opChain, jobStatus, description, now);
            var top := Create(jobId, None, userId, opChain, jobStatus, description, now);
            Equal(child, top) && child != top
  {
  }

  /** The mutable job record, with its setters. */
  class MutableJobDetail {
    var parentJobId: Option<string>
    var jobId: Option<string>
    var userId: Option<string>
    var status: Option<JobStatus>
    var startTime: Option<Long>
    var endTime: Option<Long>
    var opChain: Option<string>
    var description: Option<string>

    /** The record's current value. */
    function Snapshot(): JobDetail
      reads this
    {
      JobDetail(parentJobId, jobId, userId, status, startTime, endTime, opChain, description)
    }

    constructor ()
      ensures Snapshot() == Empty
    {
      parentJobId, jobId, userId, status := None, None, None, None;
      startTime, endTime, opChain, description := None, None, None, None;
    }

    constructor Merged(oldJobDetail: MutableJobDetail, newJobDetail: MutableJobDetail, now: Long)
      ensures Snapshot() == Merge(oldJobDetail.Snapshot(), newJobDetail.Snapshot(), now)
    {
      jobId := NewOrOld(oldJobDetail.jobId, newJobDetail.jobId);
      userId := NewOrOld(oldJobDetail.userId, newJobDetail.userId);
      opChain := NewOrOld(oldJobDetail.opChain, newJobDetail.opChain);
      description := NewOrOld(oldJobDetail.description, newJobDetail.description);
      status := NewOrOld(oldJobDetail.status, newJobDetail.status);
      parentJobId := NewOrOld(oldJobDetail.parentJobId, newJobDetail.parentJobId);
      if oldJobDetail.startTime.None? {
        startTime := Some(now);
        endTime := None;
      } else {
        startTime := oldJobDetail.startTime;
        endTime := Some(now);
      }
    }

    constructor WithSerialisedChain(jobId: Option<string>, parentJobId: Option<string>, userId: Option<string>,
                                    opChain: Option<string>, jobStatus: Option<JobStatus>,
                                    description: Option<string>, now: Long)
      ensures Snapshot() == Create(jobId, parentJobId, userId, opChain, jobStatus, description, now)
    {
      this.opChain := opChain;
      this.jobId := jobId;
      this.userId := userId;
      this.startTime := Some(now);
      this.endTime := None;
      this.status := jobStatus;
      this.description := description;
      this.parentJobId := parentJobId;
    }

    method SetJobId(jobId: Option<string>)
      modifies this
      ensures Snapshot() == old(Snapshot()).(jobId := jobId)
    {
      this.jobId := jobId;
    }

    method SetUserId(userId: Option<string>)
      modifies this
      ensures Snapshot() == old(Snapshot()).(userId := userId)
    {
      this.userId := userId;
    }

    method SetStatus(status: Option<JobStatus>)
      modifies this
      ensures Snapshot() == old(Snapshot()).(status := status)
    {
      this.status := status;
    }

    method SetStartTime(startTime: Option<Long>)
      modifies this
      ensures Snapshot() == old(Snapshot()).(startTime := startTime)
    {
      this.startTime := startTime;
    }

    method SetEndTime(endTime: Option<Long>)
      modifies this
      ensures Snapshot() == old(Snapshot()).(endTime := endTime)
    {
      this.endTime := endTime;
    }

    method SetParentJobId(parentJobId: Option<string>)
      modifies this
      ensures Snapshot() == old(Snapshot()).(parentJobId := parentJobId)
    {
      this.parentJobId := parentJobId;
    }

    method SetOpChain(opChain: Option<string>)
      modifies this
      ensures Snapshot() == old(Snapshot()).(opChain := opChain)
    {
      this.opChain := opChain;
    }

    method SetDescription(description: Option<string>)
      modifies this
      ensures Snapshot() == old(Snapshot()).(description := description)
    {
      this.description := description;
    }

    /**
      `equals`: the same object, or another job record equal on all fields
      but the parent; null and objects of any other class are unequal.
    */
    function Equals(obj: object?): (r: bool)
      reads this, obj
      ensures r <==> obj != null && obj is MutableJobDetail && Equal(Snapshot(), (obj as MutableJobDetail).Snapshot())
    {
      if this == obj then true
      else if obj == null then false
      else if !(obj is MutableJobDetail) then false
      else Equal(Snapshot(), (obj as MutableJobDetail).Snapshot())
    }
  }
}
