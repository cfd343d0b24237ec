/** JobSchedulerService: owns an optional local Quartz engine and an
    optional clustered one, routes each job to one of them, and forwards
    unschedule, execute-now and shutdown requests. Every operation is first
    given as a function on a ServiceView (the configuration flag and the
    views of the engines); the class's methods are proved to follow those
    functions, and the lemmas at the end are about the functions. */
module Scheduling {
  import opened Lang
  import opened Quartz

  type Path = string
  type Properties = map<string, string>

  /** loadProperties: a configuration exists only when the wildcard lookup
      finds exactly one resource. `read` is what Properties.load leaves in
      the new Properties object: everything, or whatever was read before an
      IOException, which is caught; the object is returned either way. When
      the class loader finds no stream for the resource (`read` gives None),
      load fails with a NullPointerException, which nothing here catches. */
  function LoadProperties(matches: seq<Path>, read: Path -> Option<Properties>): (r: Try<Option<Properties>>)
    ensures r.Throw? <==> |matches| == 1 && read(matches[0]).None?
    ensures r.Throw? ==> r.ex == NullPointerException
    ensures r.Return? ==> (r.value.Some? <==> |matches| == 1)
    ensures r.Return? && r.value.Some? ==> read(matches[0]) == r.value
  {
    if |matches| != 1 then Return(None)
    else if read(matches[0]).None? then Throw(NullPointerException)
    else Return(read(matches[0]))
  }

  /** How one start-up attempt ends: getScheduler throws a
      SchedulerException (the field stays null); an unchecked exception
      escapes before the field is assigned (the field stays null and the
      exception leaves initJobSchedulerService); or a scheduler is created
      with the bindings its job store holds, after which setJobFactory,
      addJobListener or start may throw a SchedulerException (the field is
      assigned, the engine stays in standby). */
  datatype FactoryOutcome =
    | GetSchedulerFails
    | Escapes
    | Created(stored: map<JobKey, Binding>, setupFails: bool)

  /** One attempt: the configuration is loaded, then handed to the factory;
      an exception out of loadProperties escapes the attempt. */
  function Attempt(loaded: Try<Option<Properties>>, factory: Option<Properties> -> FactoryOutcome): (o: FactoryOutcome)
    ensures loaded.Throw? ==> o == Escapes
    ensures loaded.Return? ==> o == factory(loaded.value)
  {
    if loaded.Throw? then Escapes else factory(loaded.value)
  }

  /** The engine field left behind by one start-up attempt. */
  function InitialEngine(o: FactoryOutcome): (e: Option<EngineView>)
    ensures e.Some? ==> e.value.fired == [] && e.value.state != Stopped
    ensures e.Some? <==> o.Created?
    ensures e.Some? ==> (e.value.state == Started <==> !o.setupFails)
  {
    match o
    case GetSchedulerFails => None
    case Escapes => None
    case Created(stored, setupFails) =>
      Some(EngineView(if setupFails then Standby else Started, stored, []))
  }

  datatype ServiceView = ServiceView(clusterEnabled: bool, local: Option<EngineView>, clustered: Option<EngineView>)

  /** The state initJobSchedulerService leaves: the local attempt always
      runs; the clustered one runs only when clustering is enabled and no
      unchecked exception escaped the local attempt, since the two try
      blocks catch SchedulerException only. */
  function InitialView(clusterEnabled: bool, localOutcome: FactoryOutcome, clusterOutcome: FactoryOutcome): (v: ServiceView)
    ensures v.clusterEnabled == clusterEnabled
    ensures v.local.Some? <==> localOutcome.Created?
    ensures v.clustered.Some? <==> clusterEnabled && !localOutcome.Escapes? && clusterOutcome.Created?
    ensures v.local.Some? ==> v.local == InitialEngine(localOutcome)
    ensures v.clustered.Some? ==> v.clustered == InitialEngine(clusterOutcome)
  {
    ServiceView(clusterEnabled, InitialEngine(localOutcome),
                if clusterEnabled && !localOutcome.Escapes? then InitialEngine(clusterOutcome) else None)
  }

  /** The job's "disallow concurrent cluster execution" flag: the data-map
      value cast to String, then Boolean.parseBoolean. */
  function ClusteredFlag(job: JobDetail): Try<bool>
  {
    match CastToString(Get(job.data, DaemonClusteredKey))
    case Throw(e) => Throw(e)
    case Return(s) => Return(ParseBoolean(s))
  }

  /** The routing rule: the clustered engine is chosen when clustering is
      enabled, the job's flag is true and the clustered engine field is
      non-null (whether it is running does not matter). */
  predicate OnCluster(v: ServiceView, flag: bool)
  {
    v.clusterEnabled && flag && v.clustered.Some?
  }

  /** A caught SchedulerException leaves the date null. */
  function DateOf(r: Try<int>): Option<int>
  {
    if r.Return? then Some(r.value) else None
  }

  /** scheduleJob(job, trigger). The clustered path asks checkExists first;
      the local path relies on the engine refusing a duplicate key. A trigger
      that never fires (firstFire None) is refused by either engine. Every
      SchedulerException is caught; only a failed cast of the flag
      propagates. */
  function ScheduleSpec(v: ServiceView, job: JobDetail, trigger: Trigger, firstFire: Option<int>): (res: (ServiceView, Try<Option<int>>))
    ensures ClusteredFlag(job).Throw? ==> res == (v, Throw(ClusteredFlag(job).ex))
    ensures ClusteredFlag(job).Return? ==>
      var toCluster := OnCluster(v, ClusteredFlag(job).value);
      var target := if toCluster then v.clustered else v.local;
      var accepted := target.Some? && Accepts(target.value, job.key) && firstFire.Some?;
      res.1 == Return(if accepted then firstFire else None) &&
      res.0 == (if !accepted then v
                else if toCluster then v.(clustered := Some(Bind(target.value, job, trigger)))
                else v.(local := Some(Bind(target.value, job, trigger))))
  {
    match ClusteredFlag(job)
    case Throw(e) => (v, Throw(e))
    case Return(flag) =>
      if OnCluster(v, flag) then
        var c := v.clustered.value;
        if CheckExistsStep(c, job.key) != Return(false) then (v, Return(None))
        else
          var (c', r) := ScheduleStep(c, job, trigger, firstFire);
          (v.(clustered := Some(c')), Return(DateOf(r)))
      else if v.local.Some? then
        var (l', r) := ScheduleStep(v.local.value, job, trigger, firstFire);
        (v.(local := Some(l')), Return(DateOf(r)))
      else
        (v, Return(None))
  }

  /** deleteJob on one engine field, with a failure reported. */
  function DeleteOn(e: Option<EngineView>, k: JobKey): (Option<EngineView>, bool)
  {
    if e.None? then (e, true)
    else
      var (e', r) := DeleteStep(e.value, k);
      (Some(e'), r.Return?)
  }

  /** The engine field after a deleteJob that is not skipped. */
  function Without(e: Option<EngineView>, k: JobKey): Option<EngineView>
  {
    if e.Some? && e.value.state != Stopped then Some(e.value.(jobs := e.value.jobs - {k})) else e
  }

  predicate Known(v: ServiceView, k: JobKey)
  {
    (v.local.Some? && k in v.local.value.jobs) || (v.clustered.Some? && k in v.clustered.value.jobs)
  }

  /** unscheduleJob(id): deletes (id, default group) from the local engine,
      then from the clustered one. Both calls sit in one try block, so an
      exception from the local engine skips the clustered one. */
  function UnscheduleSpec(v: ServiceView, id: string): (w: ServiceView)
    ensures var k := JobKey(id, DefaultGroup);
      w == if v.local.Some? && v.local.value.state == Stopped then v
           else v.(local := Without(v.local, k), clustered := Without(v.clustered, k))
    ensures !Known(v, JobKey(id, DefaultGroup)) ==> w == v
  {
    var k := JobKey(id, DefaultGroup);
    assert v.local.Some? && k !in v.local.value.jobs ==> v.local.value.jobs - {k} == v.local.value.jobs;
    assert v.clustered.Some? && k !in v.clustered.value.jobs ==> v.clustered.value.jobs - {k} == v.clustered.value.jobs;
    var (l', ok) := DeleteOn(v.local, k);
    if !ok then v
    else v.(local := l', clustered := DeleteOn(v.clustered, k).0)
  }

  /** The part of executeJob that asks the clustered engine. */
  function ExecuteClustered(v: ServiceView, key: JobKey, now: int): (ServiceView, Option<int>)
  {
    if v.clustered.None? then (v, None)
    else
      match GetJobDetailStep(v.clustered.value, key)
      case Throw(_) => (v, None)
      case Return(detail) =>
        if detail.None? then (v, None)
        else
          var (c', t) := TriggerStep(v.clustered.value, key);
          if t.Throw? then (v, None) else (v.(clustered := Some(c')), Some(now))
  }

  /** The local engine answers for key k without holding it. */
  predicate PassesOn(e: Option<EngineView>, k: JobKey)
  {
    e.None? || (e.value.state != Stopped && k !in e.value.jobs)
  }

  /** The number of fire requests handed to either engine. */
  function FireCount(v: ServiceView): nat
  {
    (if v.local.Some? then |v.local.value.fired| else 0) +
    (if v.clustered.Some? then |v.clustered.value.fired| else 0)
  }

  /** Two views differ at most in their fire logs. */
  predicate SameBindings(v: ServiceView, w: ServiceView)
  {
    v.clusterEnabled == w.clusterEnabled &&
    v.local.Some? == w.local.Some? && v.clustered.Some? == w.clustered.Some? &&
    (v.local.Some? ==> v.local.value.jobs == w.local.value.jobs && v.local.value.state == w.local.value.state) &&
    (v.clustered.Some? ==> v.clustered.value.jobs == w.clustered.value.jobs && v.clustered.value.state == w.clustered.value.state)
  }

  /** executeJob(key): fires the job on the local engine when it holds the
      key, otherwise on the clustered engine; the result is the time the
      fire was handed over, null when nothing fired. */
  function ExecuteSpec(v: ServiceView, key: JobKey, now: int): (res: (ServiceView, Option<int>))
    ensures res.1.Some? <==>
      (v.local.Some? && Holds(v.local.value, key)) ||
      (PassesOn(v.local, key) && v.clustered.Some? && Holds(v.clustered.value, key))
    ensures res.1.Some? ==> res.1.value == now
    ensures SameBindings(v, res.0)
    ensures FireCount(res.0) == FireCount(v) + (if res.1.Some? then 1 else 0)
    ensures v.local.Some? && Holds(v.local.value, key) ==>
      res.0.clustered == v.clustered && res.0.local.value.fired == v.local.value.fired + [key]
    ensures res.1.Some? && !(v.local.Some? && Holds(v.local.value, key)) ==>
      res.0 == v.(clustered := Some(v.clustered.value.(fired := v.clustered.value.fired + [key])))
    ensures res.1.None? ==> res.0 == v
  {
    if v.local.None? then ExecuteClustered(v, key, now)
    else
      match GetJobDetailStep(v.local.value, key)
      case Throw(_) => (v, None)
      case Return(detail) =>
        if detail.None? then ExecuteClustered(v, key, now)
        else
          var (l', t) := TriggerStep(v.local.value, key);
          if t.Throw? then (v, None) else (v.(local := Some(l')), Some(now))
  }

  function ShutdownOn(e: Option<EngineView>): Option<EngineView>
  {
    if e.Some? then Some(ShutdownStep(e.value)) else None
  }

  /** contextDestroyed: shuts down whichever engines exist. */
  function ShutdownSpec(v: ServiceView): ServiceView
  {
    v.(local := ShutdownOn(v.local), clustered := ShutdownOn(v.clustered))
  }

  /** Builds one engine from a factory outcome. */
  method CreateEngine(outcome: FactoryOutcome) returns (e: Engine?)
    ensures e == null <==> !outcome.Created?
    ensures e != null ==> fresh(e) && InitialEngine(outcome) == Some(e.View())
  {
    match outcome
    case GetSchedulerFails =>
      e := null;
    case Escapes =>
      e := null;
    case Created(stored, setupFails) =>
      e := new Engine(stored);
      if !setupFails {
        var _ := e.Start();
      }
  }

  class JobSchedulerService {
    const clusterEnabled: bool
    const local: Engine?
    const clustered: Engine?

    /** The two engines are distinct schedulers. */
    ghost predicate Valid()
    {
      local != null && clustered != null ==> local != clustered
    }

    function View(): ServiceView
      reads local, clustered
    {
      ServiceView(clusterEnabled,
                  if local == null then None else Some(local.View()),
                  if clustered == null then None else Some(clustered.View()))
    }

    /** The constructor together with initJobSchedulerService. An
        unchecked exception escaping the local attempt ends the method, so
        the clustered attempt is not made. */
    constructor Init(clusterEnabled: bool, localMatches: seq<Path>, clusterMatches: seq<Path>,
                     read: Path -> Option<Properties>, factory: Option<Properties> -> FactoryOutcome)
      ensures Valid()
      ensures local != null ==> fresh(local)
      ensures clustered != null ==> fresh(clustered)
      ensures View() == InitialView(clusterEnabled, Attempt(LoadProperties(localMatches, read), factory),
                                    Attempt(LoadProperties(clusterMatches, read), factory))
    {
      this.clusterEnabled := clusterEnabled;
      var localOutcome := Attempt(LoadProperties(localMatches, read), factory);
      var localEngine := CreateEngine(localOutcome);
      var clusteredEngine: Engine? := null;
      if clusterEnabled && !localOutcome.Escapes? {
        clusteredEngine := CreateEngine(Attempt(LoadProperties(clusterMatches, read), factory));
      }
      local := localEngine;
      clustered := clusteredEngine;
    }

    method ScheduleJob(job: JobDetail, trigger: Trigger, firstFire: Option<int>) returns (r: Try<Option<int>>)
      requires Valid()
      modifies local, clustered
      ensures (View(), r) == ScheduleSpec(old(View()), job, trigger, firstFire)
    {
      var value := CastToString(Get(job.data, DaemonClusteredKey));
      if value.Throw? {
        return Throw(value.ex);
      }
      var flag := ParseBoolean(value.value);
      var date: Option<int> := None;
      if clusterEnabled && flag && clustered != null {
        var present := clustered.CheckExists(job.key);
        if present == Return(false) {
          var d := clustered.ScheduleJob(job, trigger, firstFire);
          date := DateOf(d);
        }
      } else if local != null {
        var d := local.ScheduleJob(job, trigger, firstFire);
        date := DateOf(d);
      }
      r := Return(date);
    }

    method UnscheduleJob(id: string)
      requires Valid()
      modifies local, clustered
      ensures View() == UnscheduleSpec(old(View()), id)
    {
      var k := JobKey(id, DefaultGroup);
      if local != null {
        var r := local.DeleteJob(k);
        if r.Throw? {
          return;
        }
      }
      if clustered != null {
        var _ := clustered.DeleteJob(k);
      }
    }

    method ExecuteJob(key: JobKey, now: int) returns (date: Option<int>)
      requires Valid()
      modifies local, clustered
      ensures (View(), date) == ExecuteSpec(old(View()), key, now)
    {
      date := None;
      if local != null {
        var detail := local.GetJobDetail(key);
        if detail.Throw? {
          return None;
        }
        if detail.value.Some? {
          var t := local.TriggerJob(key);
          if t.Throw? {
            return None;
          }
          date := Some(now);
        }
      }
      if clustered != null && date.None? {
        var detail := clustered.GetJobDetail(key);
        if detail.Throw? {
          return None;
        }
        if detail.value.Some? {
          var t := clustered.TriggerJob(key);
          if t.Throw? {
            return None;
          }
          date := Some(now);
        }
      }
    }

    method ContextDestroyed()
      requires Valid()
      modifies local, clustered
      ensures View() == ShutdownSpec(old(View()))
    {
      if local != null {
        local.Shutdown();
      }
      if clustered != null {
        clustered.Shutdown();
      }
    }
  }

  // ---------------------------------------------------------------------
  // Properties of sequences of calls

  datatype Call =
    | ScheduleCall(job: JobDetail, trigger: Trigger, firstFire: Option<int>)
    | UnscheduleCall(id: string)
    | ExecuteCall(key: JobKey, now: int)
    | ShutdownCall

  function Step(v: ServiceView, c: Call): ServiceView
  {
    match c
    case ScheduleCall(job, trigger, firstFire) => ScheduleSpec(v, job, trigger, firstFire).0
    case UnscheduleCall(id) => UnscheduleSpec(v, id)
    case ExecuteCall(key, now) => ExecuteSpec(v, key, now).0
    case ShutdownCall => ShutdownSpec(v)
  }

  /** The service after a sequence of calls, made one after the other. */
  function Run(v: ServiceView, calls: seq<Call>): ServiceView
    decreases |calls|
  {
    if |calls| == 0 then v else Run(Step(v, calls[0]), calls[1..])
  }

  datatype Side = LocalSide | ClusteredSide

  function EngineAt(v: ServiceView, side: Side): Option<EngineView>
  {
    match side
    case LocalSide => v.local
    case ClusteredSide => v.clustered
  }

  predicate BoundTo(v: ServiceView, side: Side, k: JobKey, b: Binding)
  {
    EngineAt(v, side).Some? && k in EngineAt(v, side).value.jobs && EngineAt(v, side).value.jobs[k] == b
  }

  /** The call removes (id, default group). */
  predicate Unschedules(c: Call, k: JobKey)
  {
    c.UnscheduleCall? && k == JobKey(c.id, DefaultGroup)
  }

  /** No call other than an unschedule of the key changes a binding. */
  lemma StepKeepsBinding(v: ServiceView, c: Call, side: Side, k: JobKey, b: Binding)
    requires BoundTo(v, side, k, b)
    requires !Unschedules(c, k)
    ensures BoundTo(Step(v, c), side, k, b)
  {
    match c
    case ScheduleCall(job, trigger, firstFire) =>
      var w := ScheduleSpec(v, job, trigger, firstFire).0;
      if job.key == k {
        // the engine holding k refuses it; the other engine may take it
        assert EngineAt(w, side) == EngineAt(v, side);
      }
    case UnscheduleCall(id) =>
    case ExecuteCall(key, now) =>
    case ShutdownCall =>
  }

  /** A binding survives every sequence of calls that does not unschedule
      its key: engines never overwrite, executing only fires, shutting down
      keeps the store. */
  lemma {:induction false} BindingPersists(v: ServiceView, calls: seq<Call>, side: Side, k: JobKey, b: Binding)
    requires BoundTo(v, side, k, b)
    requires forall i :: 0 <= i < |calls| ==> !Unschedules(calls[i], k)
    ensures BoundTo(Run(v, calls), side, k, b)
    decreases |calls|
  {
    if |calls| > 0 {
      StepKeepsBinding(v, calls[0], side, k, b);
      BindingPersists(Step(v, calls[0]), calls[1..], side, k, b);
    }
  }

  /** Execute-now requests, however many, add and remove no binding and
      stop or start no engine. */
  lemma {:induction false} ExecutesKeepBindings(v: ServiceView, calls: seq<Call>)
    requires forall i :: 0 <= i < |calls| ==> calls[i].ExecuteCall?
    ensures SameBindings(v, Run(v, calls))
    ensures FireCount(Run(v, calls)) <= FireCount(v) + |calls|
    decreases |calls|
  {
    if |calls| > 0 {
      var w := Step(v, calls[0]);
      ExecutesKeepBindings(w, calls[1..]);
    }
  }

  /** Scheduling the same job a second time changes nothing and returns
      null once the first call had a trigger that fires: that call either
      bound the job or found no engine to take it, and neither engine
      overwrites a binding. A first trigger that never fires left the
      service as it was. */
  lemma ScheduleTwice(v: ServiceView, job: JobDetail, t1: Trigger, f1: Option<int>, t2: Trigger, f2: Option<int>)
    requires ClusteredFlag(job).Return?
    ensures var w := ScheduleSpec(v, job, t1, f1).0;
      (f1.Some? ==> ScheduleSpec(w, job, t2, f2) == (w, Return(None))) &&
      (f1.None? ==> w == v)
  {
  }

  /** After contextDestroyed every call is a no-op: scheduling returns
      null, execute-now returns null, unscheduling deletes nothing. */
  lemma AfterShutdown(v: ServiceView, job: JobDetail, trigger: Trigger, firstFire: Option<int>, id: string, key: JobKey, now: int)
    requires ClusteredFlag(job).Return?
    ensures var w := ShutdownSpec(v);
      ScheduleSpec(w, job, trigger, firstFire) == (w, Return(None)) &&
      UnscheduleSpec(w, id) == w &&
      ExecuteSpec(w, key, now) == (w, None)
  {
  }
}
