/** Java-level vocabulary shared by every component: optional values (Java's
    null), a call that either returns or throws, the untyped values a Quartz
    JobDataMap holds, and Boolean.parseBoolean. */
module Lang {

  /** A Java reference that may be null. */
  datatype Option<+T> = None | Some(value: T)

  /** The exceptions the modelled code raises, catches or lets propagate. */
  datatype Exception =
    | SchedulerException        // org.quartz.SchedulerException
    | ClassCastException        // a failed (String) cast of a JobDataMap value
    | NullPointerException      // a method called on a null daemon entry
    | ArithmeticException       // Math.toIntExact out of the int range
    | IllegalArgumentException  // "only Job or Daemon are supported"
    | CronParseException        // CronScheduleBuilder.cronSchedule on a bad expression

  /** The outcome of a Java call: a returned value or a thrown exception. */
  datatype Try<+T> = Return(value: T) | Throw(ex: Exception)

  /** An Object stored in a JobDataMap or returned as a job result. */
  datatype Value = Null | Str(s: string) | NonString

  /** The cast `(String) o`: null casts to null, a non-String fails. */
  function CastToString(v: Value): Try<Option<string>>
  {
    match v
    case Null => Return(None)
    case Str(s) => Return(Some(s))
    case NonString => Throw(ClassCastException)
  }

  /** Character.toLowerCase restricted to ASCII; the letters of "true" have no
      other upper- or lower-case partner, so equalsIgnoreCase against "true"
      is decided by these. */
  function LowerAscii(c: char): char
  {
    if 'A' <= c <= 'Z' then (c as int + 32) as char else c
  }

  predicate EqualsIgnoreCase(a: string, b: string)
  {
    |a| == |b| && forall i :: 0 <= i < |a| ==> LowerAscii(a[i]) == LowerAscii(b[i])
  }

  /** Boolean.parseBoolean: true exactly for a non-null string equal to
      "true" ignoring case. */
  function ParseBoolean(s: Option<string>): (b: bool)
    ensures b <==> (s.Some? && |s.value| == 4 &&
                    forall i :: 0 <= i < 4 ==> s.value[i] == "true"[i] || s.value[i] == "TRUE"[i])
    ensures s.None? || s == Some("") || s == Some("false") ==> !b
    ensures s == Some("true") || s == Some("TRUE") || s == Some("True") ==> b
  {
    s.Some? && EqualsIgnoreCase(s.value, "true")
  }
}
