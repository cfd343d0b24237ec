# Quartz scheduler plugin for Lutece: a Dafny model of its scheduling core

The plugin runs Lutece daemons on Quartz. `JobSchedulerService` owns two
Quartz schedulers: a local one, and a clustered one that exists only when
clustering is enabled. It routes each job to one of them, and it forwards
unschedule, execute-now and shutdown requests. `QuartzJobScheduler` is the
portal's daemon scheduler. It turns a daemon entry into a Quartz job and a
cron or interval trigger, and it validates cron expressions.
`LuteceJobFactory` turns a fired job into an executable one: a native Quartz
job, or a daemon wrapped in a `DaemonJob`. `DaemonEntryJobListener` marks a
daemon entry as running around each fire and passes textual results on to
the `DaemonEntryJobService`.

The model has one module per component. Each module sits in its own file:

- `lang.dfy` (`Lang`): Java null, returned-or-thrown outcomes (`Try`), the
  values a JobDataMap holds, the `(String)` cast and `Boolean.parseBoolean`.
- `quartz.dfy` (`Quartz`): the Quartz scheduler as an abstract engine. An
  engine is a map from job key to binding, a lifecycle state
  (standby, started, stopped) and a log of fire requests. The contract it is
  ASSUMED to keep: every call on a shut-down scheduler throws;
  `scheduleJob` throws on a key it already stores and never overwrites, and
  throws on a trigger that has no first fire time; `triggerJob` throws on a
  key it does not hold; `shutdown` never throws.
- `scheduling.dfy` (`Scheduling`): `JobSchedulerService`. Each operation is a
  function on a `ServiceView`: the cluster flag plus the two optional engine
  views. A class with the two engine fields has methods proved to follow
  these functions. Lemmas describe sequences of calls.
- `daemon_scheduling.dfy` (`DaemonScheduling`): `QuartzJobScheduler`.
- `job_factory.dfy` (`JobFactory`): `LuteceJobFactory` as a pure resolver
  over a closed `JavaObject` type.
- `job_listener.dfy` (`JobListener`): `DaemonEntryJobListener` as a class
  that updates `DaemonEntry` objects, plus lemmas about sequences of fires.
- `portal.dfy` (`Portal`): the portal objects the plugin touches.
  `DaemonEntry` is a class with run-state fields. The result sink keeps the
  list of results it receives.

Outside inputs are parameters:

- the current time: `now`;
- the first fire time Quartz computes: `firstFire`, null (`None`) for a
  trigger that will never fire;
- the cron grammar: `parses`;
- portal properties: `properties`;
- the resources found by the wildcard lookup: `localMatches`, `clusterMatches`;
- what `Properties.load` leaves in the new object, all of the resource or
  the part read before an `IOException`: `read`, which gives null (`None`)
  when the class loader finds no stream for the resource;
- `StdSchedulerFactory` and the set-up calls after it: `factory`, which
  may also report an unchecked exception escaping before the engine field
  is assigned (`Escapes`);
- the CDI container and the daemon registry: `Lookups`, `container`, `entries`.

`QuartzJobScheduler.shutdown` and `jobExecutionVetoed` do nothing. They are
modelled as the methods `QuartzJobScheduler.Shutdown` and
`DaemonEntryJobListener.JobExecutionVetoed`, which have empty bodies, no
`modifies` clause, and contracts saying that nothing changes.

Behaviour of the code worth noting:

- Routing to the clustered engine requires the engine field to be non-null.
  Whether that engine is running does not matter. If start-up created the
  engine but failed to start it, jobs still go there.
- `executeJob` returns the time of the fire request, or null. It does not
  return a boolean.
- `unscheduleJob` and `executeJob` put both engine calls in one `try` block.
  An exception from the local engine therefore skips the clustered engine.
- `jobWasExecuted` never sets the last-run end date. It only clears the
  in-progress flag.
- `schedule` ignores the initial delay, and `enqueue` ignores the delay.
- `schedule` lets a cron parse failure and a `Math.toIntExact` overflow
  propagate. Only `isValidCronExpression` catches the parse failure.
- For a job whose data has no daemon-entry id, each listener callback reads
  a null key, the entry lookup yields null, and the callback ends in a
  `NullPointerException`:
  - `jobToBeExecuted` throws before it changes any entry;
  - `jobWasExecuted`, when it is reached, has already handed a String result
    to the sink by then.

## Model

| member | source | states |
|---|---|---|
| `Lang.ParseBoolean` | src/java/fr/paris/lutece/plugins/scheduler/quartz/service/JobSchedulerService.java:175 | The cluster flag is true exactly for a non-null four-character string whose every character is the lower- or upper-case letter of "true" at that position; so null, "" and "false" are false and "true", "TRUE" and "True" are true |
| `Quartz.Engine.constructor` | src/java/fr/paris/lutece/plugins/scheduler/quartz/service/JobSchedulerService.java:93-94 | A scheduler from the factory is in standby, holds its store's bindings and has no fire requests |
| `Quartz.Engine.Start` | src/java/fr/paris/lutece/plugins/scheduler/quartz/service/JobSchedulerService.java:97 | Assumed contract: start moves a live scheduler to started and throws on a shut-down one |
| `Quartz.Engine.CheckExists` | src/java/fr/paris/lutece/plugins/scheduler/quartz/service/JobSchedulerService.java:181 | Assumed contract: checkExists reports whether the key is stored, and throws once shut down |
| `Quartz.Engine.ScheduleJob` | src/java/fr/paris/lutece/plugins/scheduler/quartz/service/JobSchedulerService.java:194-204 | Assumed contract the local path relies on: a binding is stored, and its first fire time returned, only under a new key of a live scheduler and for a trigger that fires; a duplicate key or a trigger that never fires throws and changes nothing |
| `Quartz.Engine.DeleteJob` | src/java/fr/paris/lutece/plugins/scheduler/quartz/service/JobSchedulerService.java:214-221 | Assumed contract: deleteJob removes exactly that key (reporting whether it was there) and throws once shut down |
| `Quartz.Engine.GetJobDetail` | src/java/fr/paris/lutece/plugins/scheduler/quartz/service/JobSchedulerService.java:236-237 | Assumed contract: getJobDetail yields the stored detail or null, and throws once shut down |
| `Quartz.Engine.TriggerJob` | src/java/fr/paris/lutece/plugins/scheduler/quartz/service/JobSchedulerService.java:239 | Assumed contract: triggerJob appends one fire request for a held key and changes no binding |
| `Quartz.Engine.Shutdown` | src/java/fr/paris/lutece/plugins/scheduler/quartz/service/JobSchedulerService.java:266-274 | Assumed contract: shutdown stops the scheduler for good and keeps its store |
| `Scheduling.LoadProperties` | src/java/fr/paris/lutece/plugins/scheduler/quartz/service/JobSchedulerService.java:123-141 | A configuration is returned iff exactly one resource matches and its stream exists, and is then what loading it leaves, even after a caught IOException; no match or several give null; a missing stream makes load throw a NullPointerException, which is not caught |
| `Scheduling.InitialEngine` | src/java/fr/paris/lutece/plugins/scheduler/quartz/service/JobSchedulerService.java:90-103 | An engine field is set iff getScheduler returned; the engine is started iff the later set-up calls did not throw; it has fired nothing and is not shut down |
| `Scheduling.InitialView` | src/java/fr/paris/lutece/plugins/scheduler/quartz/service/JobSchedulerService.java:88-121 | After start-up the local engine exists iff its attempt created one; the clustered engine exists iff clustering is enabled, no unchecked exception escaped the local attempt, and its own attempt created one; a SchedulerException in the local attempt does not prevent the clustered one |
| `Scheduling.CreateEngine` | src/java/fr/paris/lutece/plugins/scheduler/quartz/service/JobSchedulerService.java:92-97 | One start-up attempt yields null iff no scheduler was created (getScheduler failed or an exception escaped), otherwise a fresh engine in the state InitialEngine gives |
| `Scheduling.JobSchedulerService.Init` | src/java/fr/paris/lutece/plugins/scheduler/quartz/service/JobSchedulerService.java:82-121 | The service after initJobSchedulerService is InitialView of the two attempts, each loading its configuration and handing it to the factory, with distinct fresh engines |
| `Scheduling.ScheduleSpec` | src/java/fr/paris/lutece/plugins/scheduler/quartz/service/JobSchedulerService.java:172-208 | A non-String flag throws and changes nothing. Otherwise the target is the clustered engine iff clustering is on, the flag parses to true and that engine is non-null, else the local engine. The job is bound, and the first fire time returned, iff the target exists, is not shut down, lacks the key and the trigger fires. Only the target changes. In every other case (no engine, existing key, trigger that never fires, engine failure) nothing changes and null is returned |
| `Scheduling.JobSchedulerService.ScheduleJob` | src/java/fr/paris/lutece/plugins/scheduler/quartz/service/JobSchedulerService.java:172-208 | scheduleJob on the two engine objects does exactly what ScheduleSpec says, to the engines and to the result |
| `Scheduling.UnscheduleSpec` | src/java/fr/paris/lutece/plugins/scheduler/quartz/service/JobSchedulerService.java:210-227 | Removes (id, default group) from each existing engine that is not shut down and touches no other key. A shut-down local engine makes the whole call a no-op. An id held by no engine is a no-op |
| `Scheduling.JobSchedulerService.UnscheduleJob` | src/java/fr/paris/lutece/plugins/scheduler/quartz/service/JobSchedulerService.java:210-227 | unscheduleJob on the engine objects does exactly what UnscheduleSpec says |
| `Scheduling.ExecuteSpec` | src/java/fr/paris/lutece/plugins/scheduler/quartz/service/JobSchedulerService.java:229-258 | Returns now iff the local engine holds the key, or the local engine is absent or answers without holding it while the clustered engine holds it; otherwise null. A local hit appends the key to the local fire log only; a clustered hit appends it to the clustered fire log only; null means nothing changed. No binding or engine state ever changes |
| `Scheduling.JobSchedulerService.ExecuteJob` | src/java/fr/paris/lutece/plugins/scheduler/quartz/service/JobSchedulerService.java:229-258 | executeJob on the engine objects does exactly what ExecuteSpec says, to the engines and to the returned date |
| `Scheduling.JobSchedulerService.ContextDestroyed` | src/java/fr/paris/lutece/plugins/scheduler/quartz/service/JobSchedulerService.java:260-281 | Every existing engine is shut down; bindings and fire logs are kept |
| `Scheduling.StepKeepsBinding` | src/java/fr/paris/lutece/plugins/scheduler/quartz/service/JobSchedulerService.java:172-258 | No schedule, execute, shutdown or unschedule of another key changes an existing binding on either engine |
| `Scheduling.BindingPersists` | src/java/fr/paris/lutece/plugins/scheduler/quartz/service/JobSchedulerService.java:181-204 | Across any sequence of calls without an unschedule of its key, a binding stays on its engine unchanged: neither routing path overwrites |
| `Scheduling.ExecutesKeepBindings` | src/java/fr/paris/lutece/plugins/scheduler/quartz/service/JobSchedulerService.java:234-251 | Any sequence of execute-now calls adds or removes no binding, stops no engine, and issues at most one fire request per call |
| `Scheduling.ScheduleTwice` | src/java/fr/paris/lutece/plugins/scheduler/quartz/service/JobSchedulerService.java:177-207 | After a schedule whose trigger fires, scheduling the same job again, with any trigger, returns null and changes nothing; a first schedule whose trigger never fires changed nothing |
| `Scheduling.AfterShutdown` | src/java/fr/paris/lutece/plugins/scheduler/quartz/service/JobSchedulerService.java:260-281 | After shutdown, scheduling returns null, unscheduling and execute-now change nothing, and execute-now returns null |
| `DaemonScheduling.ToIntExact` | src/java/fr/paris/lutece/plugins/scheduler/quartz/QuartzJobScheduler.java:104 | An interval converts iff it lies in the Java int range, unchanged; outside it an ArithmeticException is thrown, never a truncated value |
| `DaemonScheduling.DaemonJobDetail` | src/java/fr/paris/lutece/plugins/scheduler/quartz/QuartzJobScheduler.java:85-90 | The job key is (entry id, default group) and the class is DaemonJob. The data yields back the entry id under the daemon-entry key. The flag the router reads is parseBoolean of the cluster property, and reading it never throws |
| `DaemonScheduling.IsValidCronExpression` | src/java/fr/paris/lutece/plugins/scheduler/quartz/QuartzJobScheduler.java:122-141 | Valid iff the expression is non-null, non-empty and parses; null and "" are invalid whatever the parser says, and a parse failure is never propagated |
| `DaemonScheduling.BuildTrigger` | src/java/fr/paris/lutece/plugins/scheduler/quartz/QuartzJobScheduler.java:92-107 | The trigger is named id + "_trigger" in the default group. It is a cron trigger iff the cron is non-null and non-empty, and is then built iff the cron is valid, else a cron parse failure is thrown. Otherwise it is a forever-repeating trigger with the interval in seconds, built iff the interval fits an int |
| `DaemonScheduling.DaemonScheduleSpec` | src/java/fr/paris/lutece/plugins/scheduler/quartz/QuartzJobScheduler.java:82-108 | A trigger-building failure propagates and changes nothing. Otherwise the entry's job goes to the clustered engine iff clustering is on, its property parses to true and that engine exists, else to the local engine. If that target exists, is live, lacks the key and the trigger fires, the result is the service with exactly that binding added to the target; otherwise the service is unchanged |
| `DaemonScheduling.TriggerKeyInjective` | src/java/fr/paris/lutece/plugins/scheduler/quartz/QuartzJobScheduler.java:95-102 | Distinct daemons get distinct trigger keys |
| `DaemonScheduling.DaemonScheduleKeepsDaemonStore` | src/java/fr/paris/lutece/plugins/scheduler/quartz/QuartzJobScheduler.java:85-107 | If every binding on both engines is a daemon job under its own default-group key with the trigger named after it, schedule keeps that so |
| `DaemonScheduling.DaemonStoreTriggerKeysDistinct` | src/java/fr/paris/lutece/plugins/scheduler/quartz/QuartzJobScheduler.java:90-102 | On such an engine, distinct jobs have distinct trigger keys |
| `DaemonScheduling.NewDaemonTriggerFree` | src/java/fr/paris/lutece/plugins/scheduler/quartz/QuartzJobScheduler.java:90-102 | On such an engine, a daemon whose job key is not stored finds no stored job using its trigger key, so it never clashes on the trigger key |
| `DaemonScheduling.RescheduleDaemonIsNoOp` | src/java/fr/paris/lutece/plugins/scheduler/quartz/QuartzJobScheduler.java:83-108 | Once a daemon's schedule has returned normally with a trigger that fires, scheduling it again with any cron or interval changes no engine |
| `DaemonScheduling.QuartzJobScheduler.Enqueue` | src/java/fr/paris/lutece/plugins/scheduler/quartz/QuartzJobScheduler.java:75-80 | enqueue asks for an immediate fire of (entry id, default group) as executeJob does, ignores the delay, and always returns false |
| `DaemonScheduling.QuartzJobScheduler.Schedule` | src/java/fr/paris/lutece/plugins/scheduler/quartz/QuartzJobScheduler.java:82-108 | schedule, filling the job data with two puts, has exactly the effect and outcome of DaemonScheduleSpec for the entry's id, cron, interval and cluster property |
| `DaemonScheduling.QuartzJobScheduler.UnSchedule` | src/java/fr/paris/lutece/plugins/scheduler/quartz/QuartzJobScheduler.java:110-114 | unSchedule is unscheduleJob of the entry id |
| `DaemonScheduling.QuartzJobScheduler.Shutdown` | src/java/fr/paris/lutece/plugins/scheduler/quartz/QuartzJobScheduler.java:116-120 | shutdown leaves both engines as they are; stopping them is left to the service |
| `JobFactory.GetJobInstance` | src/java/fr/paris/lutece/plugins/scheduler/quartz/job/LuteceJobFactory.java:72-94 | A non-String daemon-entry id throws ClassCastException; an id yields the daemon looked up by it; without one, a failing container lookup propagates, a non-null container instance is returned, and a null one gives the newly constructed object |
| `JobFactory.BuildJob` | src/java/fr/paris/lutece/plugins/scheduler/quartz/job/LuteceJobFactory.java:105-123 | An object is accepted iff it is non-null and a Job or a Daemon. A Job is returned as it is, even when it is also a Daemon. A Daemon that is not a Job is wrapped in a DaemonJob. Anything else throws IllegalArgumentException |
| `JobFactory.NewJob` | src/java/fr/paris/lutece/plugins/scheduler/quartz/job/LuteceJobFactory.java:58-70 | newJob returns a job iff the instance lookup succeeds and yields a supported object, and the job is what buildJob makes of it. Every failure becomes a SchedulerException, never a null job |
| `JobFactory.DaemonIdDecides` | src/java/fr/paris/lutece/plugins/scheduler/quartz/job/LuteceJobFactory.java:74-79 | With a daemon-entry id the result depends only on the daemon looked up by that id, not on the job class, container or constructor |
| `JobFactory.ContainerBeforeConstructor` | src/java/fr/paris/lutece/plugins/scheduler/quartz/job/LuteceJobFactory.java:83-92 | Without a daemon id a non-null container instance is used and the constructor is never consulted; construction is used exactly when the container yields null |
| `JobFactory.NullDaemonRefused` | src/java/fr/paris/lutece/plugins/scheduler/quartz/job/LuteceJobFactory.java:117-121 | A daemon lookup yielding null ends in a SchedulerException |
| `JobListener.DaemonEntryJobListener.GetDaemonEntryJobService` | src/java/fr/paris/lutece/plugins/scheduler/quartz/job/DaemonEntryJobListener.java:85-92 | The sink is looked up on first use only; afterwards the cached instance is returned |
| `JobListener.DaemonEntryJobListener.JobToBeExecuted` | src/java/fr/paris/lutece/plugins/scheduler/quartz/job/DaemonEntryJobListener.java:59-67 | The entry named by the job's daemon-entry id gets last run = now, end date = null, in progress; every other entry is unchanged; a non-String id or an unknown entry throws and changes nothing |
| `JobListener.DaemonEntryJobListener.JobExecutionVetoed` | src/java/fr/paris/lutece/plugins/scheduler/quartz/job/DaemonEntryJobListener.java:69-72 | A vetoed fire changes no daemon entry's run state and not the cached sink |
| `JobListener.DaemonEntryJobListener.JobWasExecuted` | src/java/fr/paris/lutece/plugins/scheduler/quartz/job/DaemonEntryJobListener.java:74-83 | Whatever jobException says, the entry's in-progress flag is cleared and its dates are left as they were. The sink receives exactly one (id, now, result) iff the result is a String, and nothing otherwise; the container is looked up only when no sink is cached, and is otherwise left untouched |
| `JobListener.BeginThenEnd` | src/java/fr/paris/lutece/plugins/scheduler/quartz/job/DaemonEntryJobListener.java:64-82 | A begin followed by an end leaves the entry not in progress, with last run = the begin time and no end date |
| `JobListener.FiresLeaveNoEndDate` | src/java/fr/paris/lutece/plugins/scheduler/quartz/job/DaemonEntryJobListener.java:60-83 | After any non-empty sequence of complete fires the entry is not in progress, its last run is the last fire's start, and its end date is null |
| `JobListener.FiresNotifyText` | src/java/fr/paris/lutece/plugins/scheduler/quartz/job/DaemonEntryJobListener.java:78-81 | Over any sequence of fires, the sink receives one (daemon key, end time, text) per fire with a String result, the j-th result sent coming from the j-th such fire in fire order, and nothing for the other fires |
| `JobListener.TextFiresCoverAll` | src/java/fr/paris/lutece/plugins/scheduler/quartz/job/DaemonEntryJobListener.java:78 | Every fire whose result is a String is among the fires whose results are sent; with the increasing order of those positions this makes the log exactly the String results, in order |

## Left out

- Quartz itself: the cron grammar is the predicate parameter `parses`, and
  first fire times are the parameter `firstFire`. Not modelled: thread pools,
  job stores, misfire handling, cluster locking, and Quartz's own validation
  of trigger intervals (negative or zero). A trigger that never fires is
  modelled only through `firstFire` being null.
- Quartz's firing of a job is not modelled: a worker thread calls the
  factory, then the listener, the job body and the listener again. The
  factory and the listener are modelled separately. The lemmas about
  sequences of fires assume each begin is followed by its end.
- `DaemonJob`, `AppDaemonService`, `AppPropertiesService`,
  `DaemonEntryJobService` and `Constants` are not part of this model. The
  default group and the two job-data keys are abstract tags, not strings.
  `getDaemonEntry(null)` is taken to return null. The sink's
  `jobExecuted` is taken to append to a list.
- A job-store failure other than a shut-down engine, such as a database
  error in the clustered store, is not modelled.
- Quartz's trigger-key uniqueness check is not modelled.
  `NewDaemonTriggerFree` shows it never refuses a new daemon on an engine
  holding only daemon jobs.
- `Scheduling.FactoryOutcome`: an unchecked exception from `setJobFactory`,
  `addJobListener` or `start`, after the engine field has been assigned, is
  not modelled. What the container does with an exception escaping
  `initJobSchedulerService` is also not modelled. The service is left with
  the fields assigned so far.
- `Scheduling.JobSchedulerService.Init`: `StdSchedulerFactory` is an
  arbitrary function of the loaded configuration. Two configurations that
  name the same scheduler instance would give the same object twice. The
  model assumes the two engines are distinct objects.
- `Lang.ParseBoolean`: case is folded for ASCII only. For the letters of
  "true" this agrees with Java's `equalsIgnoreCase`.
- Concurrency: engines fire on their own threads, and
  `getDaemonEntryJobService` is `synchronized`. Every call is modelled as a
  sequential step.
- Logging, the listener's `getName`, the deprecated CDI entry points
  `getInstance` and static `shutdown`, and the wall clock are left out. The
  wall clock is the parameter `now`.
