/** The mood of the assistant: a fixed priority order over the hour of the day, service
    outages and the reminder counts, giving a (state, message) pair. */
module ExpressionEngine {
  import opened Wrappers
  import opened Clock

  datatype Expression = Expression(state: string, message: string)

  /** Hours 01:00 to 05:59. */
  predicate NightHour(hour: int) {
    1 <= hour <= 5
  }

  /** `failing_services[0]` when the list is present and non-empty. */
  function FirstFailing(failing: Option<seq<string>>): Option<string> {
    if failing.Some? && |failing.value| > 0 then Some(failing.value[0]) else None
  }

  /** `compute_expression`: the first matching rule wins. */
  function ComputeExpression(now: Timestamp, pendingCount: int, missedCount: int, anyServiceDown: bool,
                             failingServices: Option<seq<string>>, upcomingNextLabel: Option<string>): (e: Expression)
    ensures e.state in {"alert", "sleepy", "warning", "focused", "happy"}
  {
    var hour := HourOf(now);
    if NightHour(hour) then
      if anyServiceDown then
        Expression("alert", match FirstFailing(failingServices)
                            case Some(name) => name + " down (night alert)"
                            case None => "Service down (night alert)")
      else Expression("sleepy", "Quiet hours...")
    else if anyServiceDown then
      Expression("warning", match FirstFailing(failingServices)
                            case Some(name) => name + " down!"
                            case None => "A service is down!")
    else if missedCount > 0 then Expression("alert", "You missed some reminders.")
    else if pendingCount > 0 then
      if upcomingNextLabel.Some? && upcomingNextLabel.value != "" then
        Expression("focused", "Next: " + upcomingNextLabel.value)
      else Expression("focused", "You have pending reminders.")
    else Expression("happy", "All good!")
  }

  /** Each state in terms of the inputs: night hours let only an outage through, an
      outage outranks every reminder count, missed reminders outrank pending ones. */
  lemma StateByPriority(now: Timestamp, pending: int, missed: int, down: bool,
                        failing: Option<seq<string>>, next: Option<string>)
    ensures var e := ComputeExpression(now, pending, missed, down, failing, next);
      var night := NightHour(HourOf(now));
      && (e.state == "sleepy" <==> night && !down)
      && (e.state == "warning" <==> !night && down)
      && (e.state == "alert" <==> (night && down) || (!night && !down && missed > 0))
      && (e.state == "focused" <==> !night && !down && missed <= 0 && pending > 0)
      && (e.state == "happy" <==> !night && !down && missed <= 0 && pending <= 0)
  {
  }

  /** The messages name the first failing service when there is one, and the next
      reminder's label when it is known. */
  lemma MessageNames(now: Timestamp, pending: int, missed: int, down: bool,
                     failing: Option<seq<string>>, next: Option<string>)
    ensures var e := ComputeExpression(now, pending, missed, down, failing, next);
      var night := NightHour(HourOf(now));
      && (down && FirstFailing(failing).Some? ==>
            e.message == FirstFailing(failing).value + (if night then " down (night alert)" else " down!"))
      && (down && FirstFailing(failing).None? ==>
            e.message == (if night then "Service down (night alert)" else "A service is down!"))
      && (e.state == "focused" ==>
            e.message == (if next.Some? && next.value != "" then "Next: " + next.value else "You have pending reminders."))
  {
  }

  /** Night hours are quiet whatever the reminder counts say. */
  lemma QuietNightIgnoresCounts(now: Timestamp, p1: int, m1: int, p2: int, m2: int,
                                failing: Option<seq<string>>, n1: Option<string>, n2: Option<string>)
    requires NightHour(HourOf(now))
    ensures ComputeExpression(now, p1, m1, false, failing, n1) == ComputeExpression(now, p2, m2, false, failing, n2)
         == Expression("sleepy", "Quiet hours...")
  {
  }

  /** Two examples: a database outage at 02:00, and two pending reminders at 14:00. */
  lemma Examples(day: Day)
    ensures ComputeExpression(Combine(day, 2 * 3600), 0, 0, true, Some(["db"]), None)
         == Expression("alert", "db down (night alert)")
    ensures ComputeExpression(Combine(day, 14 * 3600), 2, 0, false, None, Some("Take pills"))
         == Expression("focused", "Next: Take pills")
  {
    CombineTimeOfDay(day, 2 * 3600);
    CombineTimeOfDay(day, 14 * 3600);
    assert "db" + " down (night alert)" == "db down (night alert)";
    assert "Next: " + "Take pills" == "Next: Take pills";
  }
}
