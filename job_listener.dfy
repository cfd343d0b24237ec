/** DaemonEntryJobListener: registered on both engines, it marks the daemon
    entry of a job as running before each fire and as not running after
    it, and hands every textual result to the DaemonEntryJobService, which
    it looks up once and keeps. Daemon entries are found through
    AppDaemonService, here the map `entries`; the CDI lookup of the sink is
    the parameter `container`. */
module JobListener {
  import opened Lang
  import opened Quartz
  import opened Portal

  /** The daemon-entry id of the fired job, read with a (String) cast. */
  function DaemonKey(data: JobDataMap): Try<Option<string>>
  {
    CastToString(Get(data, DaemonEntryIdKey))
  }

  /** AppDaemonService.getDaemonEntry: null for a null or unknown key. */
  function EntryOf(key: Option<string>, entries: map<string, DaemonEntry>): Option<DaemonEntry>
  {
    if key.Some? && key.value in entries then Some(entries[key.value]) else None
  }

  /** The entry found for the fired job, or the exception raised on the way
      (a failed cast, or a method called on a null entry). */
  function Target(data: JobDataMap, entries: map<string, DaemonEntry>): Try<DaemonEntry>
  {
    match DaemonKey(data)
    case Throw(e) => Throw(e)
    case Return(key) =>
      if EntryOf(key, entries).Some? then Return(EntryOf(key, entries).value) else Throw(NullPointerException)
  }

  /** The run state jobToBeExecuted leaves, whatever the state before. */
  function BeginStatus(now: int): RunStatus
  {
    RunStatus(Some(now), None, true)
  }

  /** The run state jobWasExecuted leaves. */
  function EndStatus(s: RunStatus): RunStatus
  {
    s.(inProgress := false)
  }

  /** What jobWasExecuted hands to the sink: only a String result. */
  function Notification(key: Option<string>, result: Value, now: int): Option<JobExecutionResult>
  {
    if result.Str? then Some(JobExecutionResult(key, now, result.s)) else None
  }

  class DaemonEntryJobListener {
    var jobService: DaemonEntryJobService?

    constructor ()
      ensures jobService == null
    {
      jobService := null;
    }

    /** getDaemonEntryJobService: looked up on first use, then cached. */
    method GetDaemonEntryJobService(container: DaemonEntryJobService) returns (s: DaemonEntryJobService)
      modifies this
      ensures s == (if old(jobService) == null then container else old(jobService))
      ensures jobService == s
    {
      if jobService == null {
        jobService := container;
      }
      s := jobService;
    }

    method JobToBeExecuted(data: JobDataMap, entries: map<string, DaemonEntry>, now: int) returns (r: Try<()>)
      modifies entries.Values`lastRunDate, entries.Values`lastRunEndDate, entries.Values`inProgress
      ensures r.Throw? <==> Target(data, entries).Throw?
      ensures r.Throw? ==> r.ex == Target(data, entries).ex
      ensures r.Return? ==>
        var e := Target(data, entries).value;
        e.Status() == BeginStatus(now)
      ensures forall e :: e in entries.Values && (r.Throw? || e != Target(data, entries).value) ==>
        e.Status() == old(e.Status())
    {
      var key := CastToString(Get(data, DaemonEntryIdKey));
      if key.Throw? {
        return Throw(key.ex);
      }
      var entry := EntryOf(key.value, entries);
      if entry.None? {
        return Throw(NullPointerException);
      }
      entry.value.lastRunDate := Some(now);
      entry.value.lastRunEndDate := None;
      entry.value.inProgress := true;
      r := Return(());
    }

    /** jobExecutionVetoed: does nothing; in particular no entry's run
        state and not the cached sink. */
    method JobExecutionVetoed(data: JobDataMap, entries: map<string, DaemonEntry>)
      ensures forall e :: e in entries.Values ==> e.Status() == old(e.Status())
      ensures jobService == old(jobService)
    {
    }

    /** jobWasExecuted: the result is forwarded before the entry is looked
        up; whether the job failed does not matter. */
    method JobWasExecuted(data: JobDataMap, result: Value, jobException: bool,
                          entries: map<string, DaemonEntry>, now: int,
                          container: DaemonEntryJobService) returns (r: Try<()>)
      modifies this, entries.Values`inProgress, jobService, container
      ensures r.Throw? <==> Target(data, entries).Throw?
      ensures r.Throw? ==> r.ex == Target(data, entries).ex
      ensures r.Return? ==>
        var e := Target(data, entries).value;
        e.Status() == EndStatus(old(e.Status()))
      ensures forall e :: e in entries.Values && (r.Throw? || e != Target(data, entries).value) ==>
        e.inProgress == old(e.inProgress)
      ensures DaemonKey(data).Return? && Notification(DaemonKey(data).value, result, now).Some? ==>
        var sink := if old(jobService) == null then container else old(jobService);
        jobService == sink &&
        sink.received == old(sink.received) + [Notification(DaemonKey(data).value, result, now).value]
      ensures old(jobService) != null && container != old(jobService) ==> unchanged(container)
      ensures !(DaemonKey(data).Return? && Notification(DaemonKey(data).value, result, now).Some?) ==>
        jobService == old(jobService) && unchanged(container) &&
        (jobService != null ==> unchanged(jobService))
    {
      var key := CastToString(Get(data, DaemonEntryIdKey));
      if key.Throw? {
        return Throw(key.ex);
      }
      if result.Str? {
        var sink := GetDaemonEntryJobService(container);
        sink.JobExecuted(JobExecutionResult(key.value, now, result.s));
      }
      var entry := EntryOf(key.value, entries);
      if entry.None? {
        return Throw(NullPointerException);
      }
      entry.value.inProgress := false;
      r := Return(());
    }
  }

  // ---------------------------------------------------------------------
  // Sequences of fires of one daemon

  /** One complete fire: begun at `start`, ended at `end` with `result`. */
  datatype Fire = Fire(start: int, end: int, result: Value)

  /** The run state and the sink's log after a sequence of complete fires
      of the daemon with the given key. */
  function RunFires(key: Option<string>, s: RunStatus, fires: seq<Fire>): (RunStatus, seq<JobExecutionResult>)
    decreases |fires|
  {
    if |fires| == 0 then (s, [])
    else
      var f := fires[0];
      var note := Notification(key, f.result, f.end);
      var (s', log) := RunFires(key, EndStatus(BeginStatus(f.start)), fires[1..]);
      (s', (if note.Some? then [note.value] else []) + log)
  }

  /** A begin followed by an end: not running, last run at the begin time,
      and no end date. */
  lemma BeginThenEnd(start: int)
    ensures EndStatus(BeginStatus(start)) == RunStatus(Some(start), None, false)
  {
  }

  /** After any non-empty sequence of complete fires the entry is not
      running, its last run date is the last fire's start, and its end date
      is null: the listener never records one. */
  lemma {:induction false} FiresLeaveNoEndDate(key: Option<string>, s: RunStatus, fires: seq<Fire>)
    requires |fires| > 0
    ensures RunFires(key, s, fires).0 == RunStatus(Some(fires[|fires| - 1].start), None, false)
    decreases |fires|
  {
    if |fires| > 1 {
      FiresLeaveNoEndDate(key, EndStatus(BeginStatus(fires[0].start)), fires[1..]);
    }
  }

  /** x + 1 for every index x in s. */
  function Shift(s: seq<nat>): (t: seq<nat>)
    ensures |t| == |s| && forall j :: 0 <= j < |s| ==> t[j] == s[j] + 1
  {
    seq(|s|, j requires 0 <= j < |s| => s[j] + 1)
  }

  /** The positions of the fires whose result is a String, in order. */
  function TextFires(fires: seq<Fire>): (t: seq<nat>)
    ensures forall j :: 0 <= j < |t| ==> t[j] < |fires| && fires[t[j]].result.Str?
    ensures forall j1, j2 :: 0 <= j1 < j2 < |t| ==> t[j1] < t[j2]
    decreases |fires|
  {
    if |fires| == 0 then []
    else (if fires[0].result.Str? then [0] else []) + Shift(TextFires(fires[1..]))
  }

  /** Every fire with a String result has its position in TextFires. */
  lemma {:induction false} TextFiresCoverAll(fires: seq<Fire>)
    ensures forall i :: 0 <= i < |fires| && fires[i].result.Str? ==> i in TextFires(fires)
    decreases |fires|
  {
    if |fires| > 0 {
      var tail := fires[1..];
      TextFiresCoverAll(tail);
      var idx' := TextFires(tail);
      var hidx: seq<nat> := if fires[0].result.Str? then [0] else [];
      var idx := hidx + Shift(idx');
      assert idx == TextFires(fires);
      forall i | 0 <= i < |fires| && fires[i].result.Str?
        ensures i in idx
      {
        if i == 0 {
          assert idx[0] == 0;
        } else {
          assert tail[i - 1] == fires[i];
          var j' :| 0 <= j' < |idx'| && idx'[j'] == i - 1;
          assert idx[|hidx| + j'] == i;
        }
      }
    }
  }

  /** One fire's step of RunFires on the sink's log. */
  lemma RunFiresLog(key: Option<string>, s: RunStatus, fires: seq<Fire>)
    requires |fires| > 0
    ensures var note := Notification(key, fires[0].result, fires[0].end);
      RunFires(key, s, fires).1 ==
        (if note.Some? then [note.value] else []) +
        RunFires(key, EndStatus(BeginStatus(fires[0].start)), fires[1..]).1
  {
  }

  /** The sink receives exactly the String results, in the order of the
      fires: the j-th result sent is (daemon key, end time, text) of the j-th
      fire whose result is a String (TextFires is increasing and, by
      TextFiresCoverAll, lists every such fire). Non-String results are
      dropped. */
  lemma {:induction false} FiresNotifyText(key: Option<string>, s: RunStatus, fires: seq<Fire>)
    ensures var log := RunFires(key, s, fires).1;
      var idx := TextFires(fires);
      |log| == |idx| &&
      forall j :: 0 <= j < |idx| ==>
        log[j] == JobExecutionResult(key, fires[idx[j]].end, fires[idx[j]].result.s)
    decreases |fires|
  {
    if |fires| > 0 {
      var tail := fires[1..];
      var s1 := EndStatus(BeginStatus(fires[0].start));
      FiresNotifyText(key, s1, tail);
      RunFiresLog(key, s, fires);
      var rest := RunFires(key, s1, tail).1;
      var idx' := TextFires(tail);
      var log := RunFires(key, s, fires).1;
      var idx := TextFires(fires);
      var h := if fires[0].result.Str? then 1 else 0;
      assert idx == (if h == 1 then [0] else []) + Shift(idx');
      assert log == (if h == 1 then [JobExecutionResult(key, fires[0].end, fires[0].result.s)] else []) + rest;
    }
  }
}
