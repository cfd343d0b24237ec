/** The Quartz scheduler as this plugin relies on it. Quartz itself is not
    modelled (cron grammar, fire-time computation, thread pools, job stores,
    misfires, cluster locks); an engine is a store of bindings keyed by job
    key, a lifecycle state and a log of immediate-fire requests. The step
    functions below are the contract ASSUMED of org.quartz.Scheduler:
      - every call on a shut-down scheduler throws SchedulerException;
      - scheduleJob throws when the job key is already stored (it never
        overwrites an existing binding), and when the trigger has no first
        fire time (a schedule that never fires);
      - triggerJob throws when no job is stored under the key;
      - shutdown never throws. */
module Quartz {
  import opened Lang

  /** Job and trigger groups; the plugin only ever uses the default one. */
  datatype Group = DefaultGroup | NamedGroup(name: string)

  datatype JobKey = JobKey(name: string, group: Group)
  datatype TriggerKey = TriggerKey(name: string, group: Group)

  /** Keys of a JobDataMap: the two the plugin writes, and any other. */
  datatype DataKey = DaemonEntryIdKey | DaemonClusteredKey | OtherKey(name: string)

  type JobDataMap = map<DataKey, Value>

  /** JobDataMap.get: a missing key reads as null. */
  function Get(data: JobDataMap, k: DataKey): Value
  {
    if k in data then data[k] else Null
  }

  /** The job class recorded in a JobDetail: the plugin's DaemonJob, or any
      native Quartz job class. */
  datatype JobClass = DaemonJobClass | NativeJobClass(name: string)

  datatype JobDetail = JobDetail(key: JobKey, jobClass: JobClass, data: JobDataMap)

  /** A trigger's schedule: a cron expression, or a simple schedule with an
      interval in seconds (Java int) that may repeat forever. */
  datatype Schedule =
    | CronSchedule(expression: string)
    | SimpleSchedule(intervalSeconds: int, repeatForever: bool)

  datatype Trigger = Trigger(key: TriggerKey, schedule: Schedule)

  datatype Binding = Binding(job: JobDetail, trigger: Trigger)

  /** A Quartz scheduler is in standby when created, started by start(),
      and shut down for good by shutdown(). */
  datatype EngineState = Standby | Started | Stopped

  datatype EngineView = EngineView(state: EngineState, jobs: map<JobKey, Binding>, fired: seq<JobKey>)

  /** The engine will store a new job under key k. */
  predicate Accepts(e: EngineView, k: JobKey)
  {
    e.state != Stopped && k !in e.jobs
  }

  /** The engine holds key k and answers calls about it. */
  predicate Holds(e: EngineView, k: JobKey)
  {
    e.state != Stopped && k in e.jobs
  }

  /** The engine after storing a binding of job to trigger. */
  function Bind(e: EngineView, job: JobDetail, trigger: Trigger): EngineView
  {
    e.(jobs := e.jobs[job.key := Binding(job, trigger)])
  }

  function CheckExistsStep(e: EngineView, k: JobKey): Try<bool>
  {
    if e.state == Stopped then Throw(SchedulerException) else Return(k in e.jobs)
  }

  /** scheduleJob(job, trigger): the result is the first fire time Quartz
      computes, which this model takes as the parameter firstFire; None
      stands for a trigger that will never fire, which Quartz refuses. */
  function ScheduleStep(e: EngineView, job: JobDetail, trigger: Trigger, firstFire: Option<int>): (EngineView, Try<int>)
  {
    if Accepts(e, job.key) && firstFire.Some? then (Bind(e, job, trigger), Return(firstFire.value))
    else (e, Throw(SchedulerException))
  }

  /** deleteJob(k): true when a job was removed. */
  function DeleteStep(e: EngineView, k: JobKey): (EngineView, Try<bool>)
  {
    if e.state == Stopped then (e, Throw(SchedulerException))
    else (e.(jobs := e.jobs - {k}), Return(k in e.jobs))
  }

  function GetJobDetailStep(e: EngineView, k: JobKey): Try<Option<JobDetail>>
  {
    if e.state == Stopped then Throw(SchedulerException)
    else if k in e.jobs then Return(Some(e.jobs[k].job))
    else Return(None)
  }

  /** triggerJob(k): hands one immediate fire of k to the engine. */
  function TriggerStep(e: EngineView, k: JobKey): (EngineView, Try<()>)
  {
    if Holds(e, k) then (e.(fired := e.fired + [k]), Return(()))
    else (e, Throw(SchedulerException))
  }

  function StartStep(e: EngineView): (EngineView, Try<()>)
  {
    if e.state == Stopped then (e, Throw(SchedulerException))
    else (e.(state := Started), Return(()))
  }

  function ShutdownStep(e: EngineView): EngineView
  {
    e.(state := Stopped)
  }

  /** One Quartz scheduler instance. */
  class Engine {
    var state: EngineState
    var jobs: map<JobKey, Binding>
    var fired: seq<JobKey>

    function View(): EngineView
      reads this
    {
      EngineView(state, jobs, fired)
    }

    /** A scheduler as the factory hands it out: in standby, holding the
        bindings its job store already had. */
    constructor (stored: map<JobKey, Binding>)
      ensures View() == EngineView(Standby, stored, [])
    {
      state := Standby;
      jobs := stored;
      fired := [];
    }

    method Start() returns (r: Try<()>)
      modifies this
      ensures (View(), r) == StartStep(old(View()))
    {
      if state == Stopped {
        r := Throw(SchedulerException);
      } else {
        state := Started;
        r := Return(());
      }
    }

    method CheckExists(k: JobKey) returns (r: Try<bool>)
      ensures r == CheckExistsStep(View(), k)
    {
      if state == Stopped {
        r := Throw(SchedulerException);
      } else {
        r := Return(k in jobs);
      }
    }

    method ScheduleJob(job: JobDetail, trigger: Trigger, firstFire: Option<int>) returns (r: Try<int>)
      modifies this
      ensures (View(), r) == ScheduleStep(old(View()), job, trigger, firstFire)
    {
      if state == Stopped || job.key in jobs || firstFire.None? {
        r := Throw(SchedulerException);
      } else {
        jobs := jobs[job.key := Binding(job, trigger)];
        r := Return(firstFire.value);
      }
    }

    method DeleteJob(k: JobKey) returns (r: Try<bool>)
      modifies this
      ensures (View(), r) == DeleteStep(old(View()), k)
    {
      if state == Stopped {
        r := Throw(SchedulerException);
      } else {
        r := Return(k in jobs);
        jobs := jobs - {k};
      }
    }

    method GetJobDetail(k: JobKey) returns (r: Try<Option<JobDetail>>)
      ensures r == GetJobDetailStep(View(), k)
    {
      if state == Stopped {
        r := Throw(SchedulerException);
      } else if k in jobs {
        r := Return(Some(jobs[k].job));
      } else {
        r := Return(None);
      }
    }

    method TriggerJob(k: JobKey) returns (r: Try<()>)
      modifies this
      ensures (View(), r) == TriggerStep(old(View()), k)
    {
      if state == Stopped || k !in jobs {
        r := Throw(SchedulerException);
      } else {
        fired := fired + [k];
        r := Return(());
      }
    }

    method Shutdown()
      modifies this
      ensures View() == ShutdownStep(old(View()))
    {
      state := Stopped;
    }
  }
}
