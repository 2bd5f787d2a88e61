/**
 * The background worker's periodic summary: whether a notification is due for the
 * chosen frequency (`checkNotifications`), what it says (`generateNotificationMessage`),
 * and the collective total it keeps (`updateCollectiveTotal`).
 */
module Notify {
  import opened Wrappers
  import opened JsString
  import Units

  // ---------------------------------------------------------------------------
  // Scheduling

  /** `data.notificationFrequency || 'daily'`; the empty string stands for an unset key. */
  function Frequency(stored: string): string {
    if stored == "" then "daily" else stored
  }

  /** `!lastNotification`: no date stored, or an empty one. */
  predicate NoLastDate(last: Option<string>) {
    last.None? || last.value == ""
  }

  /**
   * The `shouldNotify` decision. `today`, `lastWeek` and `lastYear` are the ISO dates of
   * now, seven days ago and 365 days ago.
   */
  predicate ShouldNotify(frequency: string, last: Option<string>, today: string, lastWeek: string, lastYear: string) {
    if frequency == "daily" && last != Some(today) then true
    else if frequency == "weekly" then NoLastDate(last) || Less(last.value, lastWeek)
    else if frequency == "yearly" then NoLastDate(last) || Less(last.value, lastYear)
    else false
  }

  /** Daily, and unset, frequency: a notification is due exactly when none was sent today. */
  lemma DailySchedule(stored: string, last: Option<string>, today: string, lastWeek: string, lastYear: string)
    requires stored == "" || stored == "daily"
    ensures ShouldNotify(Frequency(stored), last, today, lastWeek, lastYear) <==> last != Some(today)
  {
  }

  /**
   * Weekly and yearly frequency: a notification is due exactly when there is no last date
   * or it is before the cut-off, seven or 365 days back.
   */
  lemma PeriodicSchedule(frequency: string, last: Option<string>, today: string, lastWeek: string, lastYear: string)
    requires frequency == "weekly" || frequency == "yearly"
    ensures var cutoff := if frequency == "weekly" then lastWeek else lastYear;
      ShouldNotify(frequency, last, today, lastWeek, lastYear) <==> NoLastDate(last) || Less(last.value, cutoff)
  {
  }

  /** Any other frequency never notifies. */
  lemma OtherFrequencySilent(stored: string, last: Option<string>, today: string, lastWeek: string, lastYear: string)
    requires stored !in {"", "daily", "weekly", "yearly"}
    ensures !ShouldNotify(Frequency(stored), last, today, lastWeek, lastYear)
  {
  }

  /**
   * Once a notification has recorded today's date, another check on the same day is
   * silent for every frequency, provided the cut-offs are not after today.
   */
  lemma SecondCheckSilent(frequency: string, today: string, lastWeek: string, lastYear: string)
    requires today != ""
    requires !Less(today, lastWeek) && !Less(today, lastYear)
    ensures !ShouldNotify(frequency, Some(today), today, lastWeek, lastYear)
  {
  }

  // ---------------------------------------------------------------------------
  // Messages

  /** The summary a notification carries; the amounts are in ml. */
  datatype Message =
    | SavedForChildren(children: int, daily: real)
    | AboveAverage(daily: real, excess: real)
    | WeeklySummary(weekly: real, saved: real)
    | YearlySummary(total: real)

  /** `generateNotificationMessage(daily, weekly, total, average, frequency)`. */
  function GenerateNotificationMessage(daily: real, weekly: real, total: real, average: real, frequency: string): (m: Message)
    ensures frequency == "daily" && average > daily ==>
      m.SavedForChildren? && m.daily == daily && m.children >= 0
      && m.children as real * 2000.0 <= average - daily < (m.children + 1) as real * 2000.0
    ensures frequency == "daily" && average <= daily ==> m == AboveAverage(daily, daily - average)
    ensures frequency == "weekly" ==>
      m.WeeklySummary? && m.weekly == weekly && m.saved >= 0.0
      && m.saved >= average * 7.0 - weekly && (m.saved == 0.0 || m.saved == average * 7.0 - weekly)
    ensures frequency != "daily" && frequency != "weekly" ==> m == YearlySummary(total)
  {
    if frequency == "daily" then
      var difference := average - daily;
      if difference > 0.0 then SavedForChildren((difference / 2000.0).Floor, daily)
      else AboveAverage(daily, if difference < 0.0 then -difference else difference)
    else if frequency == "weekly" then
      WeeklySummary(weekly, if 0.0 < average * 7.0 - weekly then average * 7.0 - weekly else 0.0)
    else YearlySummary(total)
  }

  /** The volumes a message prints, in ml, in the order the text names them. */
  function Amounts(m: Message): seq<real> {
    match m
    case SavedForChildren(_, daily) => [daily]
    case AboveAverage(daily, excess) => [daily, excess]
    case WeeklySummary(weekly, saved) => [weekly, saved]
    case YearlySummary(total) => [total]
  }

  /**
   * The amounts of a message as they are meant to be printed, with the simple format whose
   * cubic-metre label is `m³`: each one, read in the unit it names, is the amount itself.
   */
  function ShownAmounts(m: Message): (shown: seq<Units.Shown>)
    ensures |shown| == |Amounts(m)|
    ensures forall i :: 0 <= i < |shown| ==>
      && shown[i].value * Units.MlPerLabel(shown[i].unitName) == Amounts(m)[i]
      && shown[i].unitName in {"ml", "L", Units.CubicMetres}
  {
    seq(|Amounts(m)|, i requires 0 <= i < |Amounts(m)| => Units.BasicFormat(Amounts(m)[i]))
  }

  /** The amounts of a message as the worker's own `formatWaterUsage` prints them. */
  function ShownAmountsAsWritten(m: Message): seq<Units.Shown> {
    seq(|Amounts(m)|, i requires 0 <= i < |Amounts(m)| => Units.BackgroundFormatAsWritten(Amounts(m)[i]))
  }

  /**
   * A notification reads as intended exactly when all its amounts are below one million
   * millilitres; from there up the worker prints a label that names no unit.
   */
  lemma NotificationLabelGarbled(m: Message)
    ensures ShownAmountsAsWritten(m) == ShownAmounts(m) <==> forall i :: 0 <= i < |Amounts(m)| ==> Amounts(m)[i] < 1000000.0
  {
    var a := Amounts(m);
    forall i | 0 <= i < |a|
      ensures ShownAmountsAsWritten(m)[i] == ShownAmounts(m)[i] <==> a[i] < 1000000.0
    {
      Units.BackgroundLabelGarbled(a[i]);
    }
    if ShownAmountsAsWritten(m) != ShownAmounts(m) {
      var i :| 0 <= i < |a| && ShownAmountsAsWritten(m)[i] != ShownAmounts(m)[i];
    }
  }

  /** The worker's scheduling state in storage. */
  class Notifier {
    /** `notificationFrequency`, the empty string when unset. */
    var notificationFrequency: string
    var lastNotificationDate: Option<string>

    constructor(frequency: string, last: Option<string>)
      ensures notificationFrequency == frequency && lastNotificationDate == last
    {
      notificationFrequency := frequency;
      lastNotificationDate := last;
    }

    /**
     * `checkNotifications()`: decides `shouldNotify`; when it holds, builds the message
     * from the stored usage (`None` for an unset key), shows it if the notifications API
     * is available, and records today as the last notification date.
     */
    method CheckNotifications(today: string, lastWeek: string, lastYear: string,
                              dailyUsage: Option<real>, weeklyUsage: Option<real>, totalUsage: Option<real>,
                              averageUsage: Option<real>, apiAvailable: bool)
      returns (shown: Option<Message>)
      modifies this
      ensures notificationFrequency == old(notificationFrequency)
      ensures var frequency := Frequency(old(notificationFrequency));
        if ShouldNotify(frequency, old(lastNotificationDate), today, lastWeek, lastYear) then
          && lastNotificationDate == Some(today)
          && shown == (if apiAvailable then
                         Some(GenerateNotificationMessage(dailyUsage.GetOr(0.0), weeklyUsage.GetOr(0.0),
                                                          totalUsage.GetOr(0.0), averageUsage.GetOr(0.0), frequency))
                       else None)
        else lastNotificationDate == old(lastNotificationDate) && shown == None
    {
      var frequency := Frequency(notificationFrequency);
      var lastNotification := lastNotificationDate;
      var shouldNotify := false;
      if frequency == "daily" && lastNotification != Some(today) {
        shouldNotify := true;
      } else if frequency == "weekly" {
        if NoLastDate(lastNotification) || Less(lastNotification.value, lastWeek) {
          shouldNotify := true;
        }
      } else if frequency == "yearly" {
        if NoLastDate(lastNotification) || Less(lastNotification.value, lastYear) {
          shouldNotify := true;
        }
      }
      shown := None;
      if shouldNotify {
        var message := GenerateNotificationMessage(dailyUsage.GetOr(0.0), weeklyUsage.GetOr(0.0),
                                                   totalUsage.GetOr(0.0), averageUsage.GetOr(0.0), frequency);
        if apiAvailable {
          shown := Some(message);
        }
        lastNotificationDate := Some(today);
      }
    }
  }

  // ---------------------------------------------------------------------------
  // updateCollectiveTotal

  /** `(collectiveTotal || 0) + additionalUsage`. */
  function Bumped(total: Option<real>, additionalUsage: real): real {
    total.GetOr(0.0) + additionalUsage
  }

  /** The stored total after a run of updates, one after another. */
  function AfterUpdates(total: Option<real>, adds: seq<real>): Option<real>
    decreases |adds|
  {
    if |adds| == 0 then total else AfterUpdates(Some(Bumped(total, adds[0])), adds[1..])
  }

  function Sum(xs: seq<real>): real
    decreases |xs|
  {
    if |xs| == 0 then 0.0 else xs[0] + Sum(xs[1..])
  }

  /** Sequential updates on a total that starts unset or at `t` add up to exactly their sum. */
  lemma {:induction false} UpdatesAccumulate(total: Option<real>, adds: seq<real>)
    requires |adds| > 0
    ensures AfterUpdates(total, adds) == Some(total.GetOr(0.0) + Sum(adds))
    decreases |adds|
  {
    if |adds| > 1 {
      UpdatesAccumulate(Some(Bumped(total, adds[0])), adds[1..]);
    }
  }

  /** The worker's `collectiveTotal` storage key. */
  class CollectiveTotal {
    var collectiveTotal: Option<real>

    constructor(total: Option<real>)
      ensures collectiveTotal == total
    {
      collectiveTotal := total;
    }

    /** `updateCollectiveTotal(additionalUsage)`: returns the total it also sends upstream. */
    method UpdateCollectiveTotal(additionalUsage: real) returns (newTotal: real)
      modifies this
      ensures newTotal == Bumped(old(collectiveTotal), additionalUsage)
      ensures collectiveTotal == Some(newTotal)
    {
      var current := collectiveTotal;
      newTotal := current.GetOr(0.0) + additionalUsage;
      collectiveTotal := Some(newTotal);
    }
  }
}
