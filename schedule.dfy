/**
 * The seven cron jobs registered by `setupSchedule`. Each job is a cron
 * expression (minute, hour, day of month, month, day of week) and a handler;
 * node-cron runs a handler in every minute its expression matches.
 */
module Schedule {
  import opened Wrappers

  /** A wall-clock minute as the cron library sees it; day of week 0 is Sunday, 6 Saturday. */
  datatype Time = Time(month: int, dayOfMonth: int, dayOfWeek: int, hour: int, minute: int)

  /** One field of a cron expression: `*`, or the values a list or range such as `0,30` or `1-4` denotes. */
  datatype Field = Any | Only(values: set<int>)

  predicate FieldMatches(f: Field, v: int) {
    f.Any? || v in f.values
  }

  datatype CronExpr = CronExpr(minute: Field, hour: Field, dayOfMonth: Field, month: Field, dayOfWeek: Field)

  predicate Matches(e: CronExpr, t: Time) {
    FieldMatches(e.minute, t.minute) && FieldMatches(e.hour, t.hour) &&
    FieldMatches(e.dayOfMonth, t.dayOfMonth) && FieldMatches(e.month, t.month) &&
    FieldMatches(e.dayOfWeek, t.dayOfWeek)
  }

  /** The seven jobs, in the order `setupSchedule` registers them. */
  datatype Job =
    | ToClassica       // '10 0 * * *'
    | NightMessage     // '0,30 1-4 * * *'
    | ToImaculado      // '0 5 * * *'
    | MessageBlock     // '0 11 * * *'
    | Noon             // '0 12 * * *'
    | SaturdayMass     // '0 19 * * 6'
    | SaturdayMassEnd  // '30 20 * * 6'

  function Cron(j: Job): CronExpr {
    match j
    case ToClassica => CronExpr(Only({10}), Only({0}), Any, Any, Any)
    case NightMessage => CronExpr(Only({0, 30}), Only({1, 2, 3, 4}), Any, Any, Any)
    case ToImaculado => CronExpr(Only({0}), Only({5}), Any, Any, Any)
    case MessageBlock => CronExpr(Only({0}), Only({11}), Any, Any, Any)
    case Noon => CronExpr(Only({0}), Only({12}), Any, Any, Any)
    case SaturdayMass => CronExpr(Only({0}), Only({19}), Any, Any, Only({6}))
    case SaturdayMassEnd => CronExpr(Only({30}), Only({20}), Any, Any, Only({6}))
  }

  predicate Fires(j: Job, t: Time) {
    Matches(Cron(j), t)
  }

  /**
   * The job due at minute `t`, written out as clock times rather than cron
   * fields. Its contract says this agrees with the cron expressions and, as a
   * consequence, that no two jobs are ever due in the same minute.
   */
  function Due(t: Time): (r: Option<Job>)
    ensures forall j :: Fires(j, t) <==> r == Some(j)
  {
    if t.hour == 0 && t.minute == 10 then Some(ToClassica)
    else if 1 <= t.hour <= 4 && (t.minute == 0 || t.minute == 30) then Some(NightMessage)
    else if t.hour == 5 && t.minute == 0 then Some(ToImaculado)
    else if t.hour == 11 && t.minute == 0 then Some(MessageBlock)
    else if t.hour == 12 && t.minute == 0 then Some(Noon)
    else if t.dayOfWeek == 6 && t.hour == 19 && t.minute == 0 then Some(SaturdayMass)
    else if t.dayOfWeek == 6 && t.hour == 20 && t.minute == 30 then Some(SaturdayMassEnd)
    else None
  }

  /** The cron expressions are pairwise disjoint: at most one handler runs in any minute. */
  lemma AtMostOneJobFires(j1: Job, j2: Job, t: Time)
    requires Fires(j1, t) && Fires(j2, t)
    ensures j1 == j2
  {
    var _ := Due(t);
  }

  /** The two Saturday jobs fire on Saturday only; on other days those minutes are idle. */
  lemma SaturdayJobsNeedSaturday(t: Time)
    requires t.dayOfWeek != 6
    requires (t.hour == 19 && t.minute == 0) || (t.hour == 20 && t.minute == 30)
    ensures Due(t) == None
  {
  }
}
