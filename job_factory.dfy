/** LuteceJobFactory: at every fire, turns the fired JobDetail into the
    executable Quartz job. A job carrying a daemon-entry id runs that
    daemon; any other job is an instance of its job class, taken from the
    CDI container or else default-constructed. An instance that is a
    native Job is used as it is, a Daemon is wrapped in a DaemonJob, and
    anything else is refused. The resolver holds no state, so it is a
    function of the fired job and of the lookups it consults. */
module JobFactory {
  import opened Lang
  import opened Quartz

  /** The object a lookup yields, reduced to what buildJob inspects: null,
      or an instance that implements org.quartz.Job, Daemon, both or
      neither. */
  datatype JavaObject = NullObject | Instance(ref: nat, isJob: bool, isDaemon: bool)

  /** The executable unit handed back to Quartz. */
  datatype Job = NativeJob(instance: JavaObject) | DaemonJob(daemon: JavaObject)

  /** The lookups the resolver consults, any of which may throw:
      AppDaemonService.getDaemon, CDI.current().select(c).get() and
      c.getDeclaredConstructor().newInstance(). */
  datatype Lookups = Lookups(getDaemon: string -> Try<JavaObject>,
                             select: JobClass -> Try<JavaObject>,
                             construct: JobClass -> Try<JavaObject>)

  predicate Supported(o: JavaObject)
  {
    o.Instance? && (o.isJob || o.isDaemon)
  }

  /** The daemon-entry id of the fired job, read with a (String) cast. */
  function DaemonEntryId(job: JobDetail): Try<Option<string>>
  {
    CastToString(Get(job.data, DaemonEntryIdKey))
  }

  /** getJobInstance: a daemon-entry id selects the daemon; otherwise the
      container's instance of the job class, or, when it yields null, a
      newly constructed one. Every lookup failure propagates. */
  function GetJobInstance(job: JobDetail, lookups: Lookups): (r: Try<JavaObject>)
    ensures DaemonEntryId(job).Throw? ==> r == Throw(ClassCastException)
    ensures DaemonEntryId(job).Return? && DaemonEntryId(job).value.Some? ==>
      r == lookups.getDaemon(DaemonEntryId(job).value.value)
    ensures DaemonEntryId(job) == Return(None) ==>
      (lookups.select(job.jobClass).Throw? ==> r == lookups.select(job.jobClass)) &&
      (lookups.select(job.jobClass).Return? && lookups.select(job.jobClass).value != NullObject ==>
         r == lookups.select(job.jobClass)) &&
      (lookups.select(job.jobClass) == Return(NullObject) ==> r == lookups.construct(job.jobClass))
  {
    match DaemonEntryId(job)
    case Throw(e) => Throw(e)
    case Return(Some(id)) => lookups.getDaemon(id)
    case Return(None) =>
      match lookups.select(job.jobClass)
      case Throw(e) => Throw(e)
      case Return(o) => if o != NullObject then Return(o) else lookups.construct(job.jobClass)
  }

  /** buildJob: the Job test comes before the Daemon test. */
  function BuildJob(o: JavaObject): (r: Try<Job>)
    ensures r.Return? <==> Supported(o)
    ensures r.Return? ==> r.value == (if o.isJob then NativeJob(o) else DaemonJob(o))
    ensures r.Throw? ==> r.ex == IllegalArgumentException
  {
    if o.Instance? && o.isJob then Return(NativeJob(o))
    else if o.Instance? && o.isDaemon then Return(DaemonJob(o))
    else Throw(IllegalArgumentException)
  }

  /** newJob: every failure, thrown by a lookup or by buildJob, reaches
      Quartz as a SchedulerException; a job is never null. */
  function NewJob(job: JobDetail, lookups: Lookups): (r: Try<Job>)
    ensures r.Throw? ==> r.ex == SchedulerException
    ensures r.Return? <==> GetJobInstance(job, lookups).Return? && Supported(GetJobInstance(job, lookups).value)
    ensures r.Return? ==> r.value == (var o := GetJobInstance(job, lookups).value;
                                      if o.isJob then NativeJob(o) else DaemonJob(o))
  {
    match GetJobInstance(job, lookups)
    case Throw(_) => Throw(SchedulerException)
    case Return(o) =>
      match BuildJob(o)
      case Throw(_) => Throw(SchedulerException)
      case Return(j) => Return(j)
  }

  /** A job carrying a daemon-entry id resolves to that daemon whatever its
      job class and whatever the container or constructors would yield. */
  lemma DaemonIdDecides(job1: JobDetail, job2: JobDetail, lookups1: Lookups, lookups2: Lookups, id: string)
    requires DaemonEntryId(job1) == Return(Some(id)) && DaemonEntryId(job2) == Return(Some(id))
    requires lookups1.getDaemon(id) == lookups2.getDaemon(id)
    ensures NewJob(job1, lookups1) == NewJob(job2, lookups2)
  {
  }

  /** Without a daemon id, a non-null container instance is used and the
      class is not constructed; construction is used only when the
      container yields null. */
  lemma ContainerBeforeConstructor(job: JobDetail, lookups: Lookups, construct: JobClass -> Try<JavaObject>)
    requires DaemonEntryId(job) == Return(None)
    ensures lookups.select(job.jobClass).Return? && lookups.select(job.jobClass).value != NullObject ==>
      GetJobInstance(job, lookups) == lookups.select(job.jobClass) &&
      GetJobInstance(job, lookups) == GetJobInstance(job, lookups.(construct := construct))
    ensures lookups.select(job.jobClass) == Return(NullObject) ==>
      GetJobInstance(job, lookups) == lookups.construct(job.jobClass)
  {
  }

  /** A daemon lookup that yields null is refused like any unsupported
      object. */
  lemma NullDaemonRefused(job: JobDetail, lookups: Lookups, id: string)
    requires DaemonEntryId(job) == Return(Some(id)) && lookups.getDaemon(id) == Return(NullObject)
    ensures NewJob(job, lookups) == Throw(SchedulerException)
  {
  }
}
