/** QuartzJobScheduler: the portal's daemon scheduler implemented on top of
    JobSchedulerService. It turns a daemon entry into a Quartz job (key,
    job data, job class) and a trigger (cron or fixed interval), validates
    cron expressions, and forwards execute-now and unschedule requests.
    The cron grammar is the parameter `parses` (true when
    CronScheduleBuilder.cronSchedule accepts the expression); portal
    properties are the parameter `properties`. */
module DaemonScheduling {
  import opened Lang
  import opened Quartz
  import opened Portal
  import opened Scheduling

  const TriggerNameSuffix: string := "_trigger"
  const ClusterDisConcurrencyPrefix: string := "quartzscheduler.daemon."
  const ClusterDisConcurrencySuffix: string := ".disallowedClusterConcurrentExecution"

  /** The range of a Java int. */
  const IntMin: int := -0x8000_0000
  const IntMax: int := 0x7fff_ffff

  /** The portal property holding a daemon's "disallow concurrent cluster
      execution" flag. */
  function ClusterPropertyName(id: string): string
  {
    ClusterDisConcurrencyPrefix + id + ClusterDisConcurrencySuffix
  }

  function TriggerKeyFor(id: string): TriggerKey
  {
    TriggerKey(id + TriggerNameSuffix, DefaultGroup)
  }

  /** Math.toIntExact: fails instead of truncating. */
  function ToIntExact(x: int): (r: Try<int>)
    ensures r.Return? <==> IntMin <= x <= IntMax
    ensures r.Return? ==> r.value == x
    ensures r.Throw? ==> r.ex == ArithmeticException
  {
    if IntMin <= x <= IntMax then Return(x) else Throw(ArithmeticException)
  }

  /** CronScheduleBuilder.cronSchedule: a parse failure is thrown. */
  function CronScheduleOf(expression: string, parses: string -> bool): Try<Schedule>
  {
    if parses(expression) then Return(CronSchedule(expression)) else Throw(CronParseException)
  }

  /** The Java value stored for a property that may be missing. */
  function ValueOf(s: Option<string>): Value
  {
    if s.Some? then Str(s.value) else Null
  }

  /** The job detail built for a daemon entry, given the value of its
      cluster property. What the resolver, the listener and the routing
      rule read back out of it is the entry id and the property's flag. */
  function DaemonJobDetail(id: string, property: Option<string>): (job: JobDetail)
    ensures job.key == JobKey(id, DefaultGroup) && job.jobClass == DaemonJobClass
    ensures CastToString(Get(job.data, DaemonEntryIdKey)) == Return(Some(id))
    ensures ClusteredFlag(job) == Return(ParseBoolean(property))
  {
    JobDetail(JobKey(id, DefaultGroup), DaemonJobClass,
              map[DaemonEntryIdKey := Str(id), DaemonClusteredKey := ValueOf(property)])
  }

  /** isValidCronExpression: null and "" are invalid without asking the
      parser; otherwise a parse failure is caught and reported as false. */
  function IsValidCronExpression(expression: Option<string>, parses: string -> bool): (valid: bool)
    ensures valid <==> expression.Some? && expression.value != "" && parses(expression.value)
  {
    if expression.Some? && expression.value != "" then
      match CronScheduleOf(expression.value, parses)
      case Throw(_) => false
      case Return(_) => true
    else
      false
  }

  /** The trigger schedule() builds: a cron trigger when the entry has a
      non-empty cron, otherwise a simple trigger repeating forever every
      `interval` seconds; in both cases named id + "_trigger" in the default
      group. */
  function BuildTrigger(id: string, cron: Option<string>, interval: int, parses: string -> bool): (r: Try<Trigger>)
    ensures r.Return? ==> r.value.key == TriggerKey(id + "_trigger", DefaultGroup)
    ensures cron.Some? && cron.value != "" ==>
      (r.Return? <==> IsValidCronExpression(cron, parses)) &&
      (r.Return? ==> r.value.schedule == CronSchedule(cron.value)) &&
      (r.Throw? ==> r.ex == CronParseException)
    ensures !(cron.Some? && cron.value != "") ==>
      (r.Return? <==> IntMin <= interval <= IntMax) &&
      (r.Return? ==> r.value.schedule == SimpleSchedule(interval, true)) &&
      (r.Throw? ==> r.ex == ArithmeticException)
  {
    if cron.Some? && cron.value != "" then
      match CronScheduleOf(cron.value, parses)
      case Throw(e) => Throw(e)
      case Return(s) => Return(Trigger(TriggerKeyFor(id), s))
    else
      match ToIntExact(interval)
      case Throw(e) => Throw(e)
      case Return(n) => Return(Trigger(TriggerKeyFor(id), SimpleSchedule(n, true)))
  }

  /** schedule(entry): an exception from building the trigger propagates
      and nothing is scheduled; otherwise the job is handed to
      scheduleJob, whose result is ignored. */
  function DaemonScheduleSpec(v: ServiceView, id: string, cron: Option<string>, interval: int,
                              property: Option<string>, parses: string -> bool, firstFire: Option<int>): (res: (ServiceView, Try<()>))
    ensures res.1.Return? <==> BuildTrigger(id, cron, interval, parses).Return?
    ensures res.1.Throw? ==> res == (v, Throw(BuildTrigger(id, cron, interval, parses).ex))
    ensures res.1.Return? ==>
      var job := DaemonJobDetail(id, property);
      var t := BuildTrigger(id, cron, interval, parses).value;
      var toCluster := OnCluster(v, ParseBoolean(property));
      var target := if toCluster then v.clustered else v.local;
      var accepted := target.Some? && Accepts(target.value, JobKey(id, DefaultGroup)) && firstFire.Some?;
      res.0 == (if !accepted then v
                else if toCluster then v.(clustered := Some(Bind(target.value, job, t)))
                else v.(local := Some(Bind(target.value, job, t))))
  {
    var job := DaemonJobDetail(id, property);
    match BuildTrigger(id, cron, interval, parses)
    case Throw(e) => (v, Throw(e))
    case Return(t) => (ScheduleSpec(v, job, t, firstFire).0, Return(()))
  }

  /** Distinct daemons get distinct trigger names. */
  lemma TriggerKeyInjective(a: string, b: string)
    requires TriggerKeyFor(a) == TriggerKeyFor(b)
    ensures a == b
  {
    assert (a + TriggerNameSuffix)[..|a|] == a;
    assert (b + TriggerNameSuffix)[..|b|] == b;
  }

  /** An engine whose every binding is a daemon job as schedule() builds it:
      stored under its own key in the default group, with the trigger named
      after that key. */
  predicate DaemonStore(e: Option<EngineView>)
  {
    e.Some? ==>
      forall k :: k in e.value.jobs ==>
        e.value.jobs[k].job.key == k && k.group == DefaultGroup &&
        e.value.jobs[k].trigger.key == TriggerKeyFor(k.name)
  }

  /** schedule() keeps both engines daemon stores. */
  lemma DaemonScheduleKeepsDaemonStore(v: ServiceView, id: string, cron: Option<string>, interval: int,
                                       property: Option<string>, parses: string -> bool, firstFire: Option<int>)
    requires DaemonStore(v.local) && DaemonStore(v.clustered)
    ensures var w := DaemonScheduleSpec(v, id, cron, interval, property, parses, firstFire).0;
      DaemonStore(w.local) && DaemonStore(w.clustered)
  {
  }

  /** In a daemon store no two jobs share a trigger key, so Quartz's check
      that a trigger key is new never refuses a daemon whose job key is new. */
  lemma DaemonStoreTriggerKeysDistinct(e: Option<EngineView>, k1: JobKey, k2: JobKey)
    requires DaemonStore(e) && e.Some? && k1 in e.value.jobs && k2 in e.value.jobs
    requires k1 != k2
    ensures e.value.jobs[k1].trigger.key != e.value.jobs[k2].trigger.key
  {
    if e.value.jobs[k1].trigger.key == e.value.jobs[k2].trigger.key {
      TriggerKeyInjective(k1.name, k2.name);
    }
  }

  /** A daemon not yet stored on a daemon store finds its trigger key free,
      so Quartz's trigger-key check never refuses it. */
  lemma NewDaemonTriggerFree(e: Option<EngineView>, id: string)
    requires DaemonStore(e) && e.Some? && JobKey(id, DefaultGroup) !in e.value.jobs
    ensures forall k :: k in e.value.jobs ==> e.value.jobs[k].trigger.key != TriggerKeyFor(id)
  {
    forall k | k in e.value.jobs
      ensures e.value.jobs[k].trigger.key != TriggerKeyFor(id)
    {
      if e.value.jobs[k].trigger.key == TriggerKeyFor(id) {
        TriggerKeyInjective(k.name, id);
      }
    }
  }

  /** Once a daemon entry's schedule() has returned normally with a trigger
      that fires, scheduling it again, with any cron or interval, leaves the
      engines as they are. */
  lemma RescheduleDaemonIsNoOp(v: ServiceView, id: string, property: Option<string>, parses: string -> bool,
                               cron1: Option<string>, interval1: int, f1: Option<int>,
                               cron2: Option<string>, interval2: int, f2: Option<int>)
    requires BuildTrigger(id, cron1, interval1, parses).Return?
    ensures var w := DaemonScheduleSpec(v, id, cron1, interval1, property, parses, f1).0;
      f1.Some? ==> DaemonScheduleSpec(w, id, cron2, interval2, property, parses, f2).0 == w
  {
    var t2 := BuildTrigger(id, cron2, interval2, parses);
    if t2.Return? {
      var t1 := BuildTrigger(id, cron1, interval1, parses);
      ScheduleTwice(v, DaemonJobDetail(id, property), t1.value, f1, t2.value, f2);
    }
  }

  class QuartzJobScheduler {
    const service: JobSchedulerService

    constructor (service: JobSchedulerService)
      ensures this.service == service
    {
      this.service := service;
    }

    /** enqueue: asks for an immediate fire of the entry's job, ignoring the
        delay, and always answers false. */
    method Enqueue(entry: DaemonEntry, delay: int, now: int) returns (queued: bool)
      requires service.Valid()
      modifies service.local, service.clustered
      ensures !queued
      ensures service.View() == ExecuteSpec(old(service.View()), JobKey(entry.id, DefaultGroup), now).0
    {
      var _ := service.ExecuteJob(JobKey(entry.id, DefaultGroup), now);
      queued := false;
    }

    /** schedule: the initial delay is not used. */
    method Schedule(entry: DaemonEntry, initialDelay: int, properties: string -> Option<string>,
                    parses: string -> bool, firstFire: Option<int>) returns (r: Try<()>)
      requires service.Valid()
      modifies service.local, service.clustered
      ensures (service.View(), r) ==
        DaemonScheduleSpec(old(service.View()), entry.id, entry.cron, entry.interval,
                           properties(ClusterPropertyName(entry.id)), parses, firstFire)
    {
      var data: JobDataMap := map[];
      data := data[DaemonEntryIdKey := Str(entry.id)];
      data := data[DaemonClusteredKey := ValueOf(properties(ClusterPropertyName(entry.id)))];
      var job := JobDetail(JobKey(entry.id, DefaultGroup), DaemonJobClass, data);
      assert job == DaemonJobDetail(entry.id, properties(ClusterPropertyName(entry.id)));
      if entry.cron.Some? && entry.cron.value != "" {
        var schedule := CronScheduleOf(entry.cron.value, parses);
        if schedule.Throw? {
          return Throw(schedule.ex);
        }
        var _ := service.ScheduleJob(job, Trigger(TriggerKeyFor(entry.id), schedule.value), firstFire);
      } else {
        var seconds := ToIntExact(entry.interval);
        if seconds.Throw? {
          return Throw(seconds.ex);
        }
        var _ := service.ScheduleJob(job, Trigger(TriggerKeyFor(entry.id), SimpleSchedule(seconds.value, true)), firstFire);
      }
      r := Return(());
    }

    method UnSchedule(entry: DaemonEntry)
      requires service.Valid()
      modifies service.local, service.clustered
      ensures service.View() == UnscheduleSpec(old(service.View()), entry.id)
    {
      service.UnscheduleJob(entry.id);
    }

    /** shutdown: the engines are stopped by JobSchedulerService, not here. */
    method Shutdown()
      ensures service.View() == old(service.View())
    {
    }
  }
}
