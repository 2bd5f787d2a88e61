/**
 * The content script's usage ledger: `trackQuery` drops calls that arrive within a second of
 * the last admitted one, then reads the stored counters and query records, applies the
 * day-rollover rule, appends a record, prunes records older than a week and writes the
 * ledger back. Storage is a value passed in (`None` when the read is rejected).
 */
module Ledger {
  import opened Wrappers
  import opened JsString

  /** One stored query record. */
  datatype Record = Record(date: string, model: string, waterUsage: real, timestamp: string)

  /** The storage keys the ledger reads and writes; `None` is a key that is not set. */
  datatype Store = Store(
    dailyUsage: Option<real>,
    weeklyUsage: Option<real>,
    totalUsage: Option<real>,
    queries: Option<seq<Record>>)

  /** How a `trackQuery` call ended. */
  datatype Outcome = ContextInvalid | Throttled | ReadFailed | WriteFailed | Recorded

  /** The duplicate-suppression window, in milliseconds. */
  const ThrottleWindow: int := 1000

  /** A call at `now` falls in the window opened by the admitted call at `last`. */
  predicate WithinWindow(last: int, now: int) {
    now - last < ThrottleWindow
  }

  // ---------------------------------------------------------------------------
  // Sums and pruning

  /** `queries.reduce((sum, q) => sum + q.waterUsage, 0)`. */
  function SumUsage(qs: seq<Record>): real
    decreases |qs|
  {
    if |qs| == 0 then 0.0 else SumUsage(qs[..|qs| - 1]) + qs[|qs| - 1].waterUsage
  }

  /** The volume of the records dated `d`. */
  function SumOn(qs: seq<Record>, d: string): real
    decreases |qs|
  {
    if |qs| == 0 then 0.0
    else SumOn(qs[..|qs| - 1], d) + (if qs[|qs| - 1].date == d then qs[|qs| - 1].waterUsage else 0.0)
  }

  /** The pruning test `q.date >= sevenDaysAgo`. */
  predicate Kept(q: Record, cutoff: string) {
    !Less(q.date, cutoff)
  }

  /** `queries.filter(q => q.date >= cutoff)`. */
  function Retain(qs: seq<Record>, cutoff: string): seq<Record>
    decreases |qs|
  {
    if |qs| == 0 then []
    else (if Kept(qs[0], cutoff) then [qs[0]] else []) + Retain(qs[1..], cutoff)
  }

  lemma {:induction false} SumUsageAppend(a: seq<Record>, b: seq<Record>)
    ensures SumUsage(a + b) == SumUsage(a) + SumUsage(b)
    decreases |b|
  {
    if |b| > 0 {
      assert (a + b)[..|a + b| - 1] == a + b[..|b| - 1];
      SumUsageAppend(a, b[..|b| - 1]);
    } else {
      assert a + b == a;
    }
  }

  lemma {:induction false} SumOnAppend(a: seq<Record>, b: seq<Record>, d: string)
    ensures SumOn(a + b, d) == SumOn(a, d) + SumOn(b, d)
    decreases |b|
  {
    if |b| > 0 {
      assert (a + b)[..|a + b| - 1] == a + b[..|b| - 1];
      SumOnAppend(a, b[..|b| - 1], d);
    } else {
      assert a + b == a;
    }
  }

  /** No record dated `d` contributes nothing. */
  lemma {:induction false} SumOnAbsent(qs: seq<Record>, d: string)
    requires forall i :: 0 <= i < |qs| ==> qs[i].date != d
    ensures SumOn(qs, d) == 0.0
    decreases |qs|
  {
    if |qs| > 0 {
      SumOnAbsent(qs[..|qs| - 1], d);
    }
  }

  /** Filtering distributes over concatenation, so it keeps the records' relative order. */
  lemma {:induction false} RetainAppend(a: seq<Record>, b: seq<Record>, cutoff: string)
    ensures Retain(a + b, cutoff) == Retain(a, cutoff) + Retain(b, cutoff)
    decreases |a|
  {
    if |a| == 0 {
      assert a + b == b;
    } else {
      assert (a + b)[0] == a[0] && (a + b)[1..] == a[1..] + b;
      RetainAppend(a[1..], b, cutoff);
    }
  }

  /**
   * The records filtering keeps: each record passing the test keeps its multiplicity,
   * every other record is gone, and nothing new appears.
   */
  lemma {:induction false} RetainMeaning(qs: seq<Record>, cutoff: string)
    ensures forall q :: multiset(Retain(qs, cutoff))[q] == if Kept(q, cutoff) then multiset(qs)[q] else 0
    ensures forall i :: 0 <= i < |Retain(qs, cutoff)| ==> Kept(Retain(qs, cutoff)[i], cutoff)
    decreases |qs|
  {
    if |qs| > 0 {
      RetainMeaning(qs[1..], cutoff);
      assert qs == [qs[0]] + qs[1..];
      assert multiset(qs) == multiset([qs[0]]) + multiset(qs[1..]);
    }
  }

  /** When every record passes, filtering changes nothing. */
  lemma {:induction false} RetainAll(qs: seq<Record>, cutoff: string)
    requires forall i :: 0 <= i < |qs| ==> Kept(qs[i], cutoff)
    ensures Retain(qs, cutoff) == qs
    decreases |qs|
  {
    if |qs| > 0 {
      RetainAll(qs[1..], cutoff);
      assert qs == [qs[0]] + qs[1..];
    }
  }

  /** Pruning never loses volume of a date that itself passes the test. */
  lemma {:induction false} RetainKeepsDay(qs: seq<Record>, cutoff: string, d: string)
    requires !Less(d, cutoff)
    ensures SumOn(Retain(qs, cutoff), d) == SumOn(qs, d)
    decreases |qs|
  {
    if |qs| > 0 {
      RetainKeepsDay(qs[1..], cutoff, d);
      assert qs == [qs[0]] + qs[1..];
      SumOnAppend([qs[0]], qs[1..], d);
      SumOnAppend(if Kept(qs[0], cutoff) then [qs[0]] else [], Retain(qs[1..], cutoff), d);
      assert SumOn([qs[0]], d) == (if qs[0].date == d then qs[0].waterUsage else 0.0) by {
        assert [qs[0]][..0] == [];
      }
    }
  }

  /** Records are in date order: no later record is dated before an earlier one. */
  predicate Chronological(qs: seq<Record>) {
    forall i, j :: 0 <= i < j < |qs| ==> !Less(qs[j].date, qs[i].date)
  }

  /** No record is dated before `d`. */
  predicate NoneBefore(qs: seq<Record>, d: string) {
    forall i :: 0 <= i < |qs| ==> !Less(qs[i].date, d)
  }

  lemma {:induction false} RetainNoneBefore(qs: seq<Record>, cutoff: string, d: string)
    requires NoneBefore(qs, d)
    ensures NoneBefore(Retain(qs, cutoff), d)
    decreases |qs|
  {
    if |qs| > 0 {
      RetainNoneBefore(qs[1..], cutoff, d);
    }
  }

  /** Filtering keeps date order. */
  lemma {:induction false} RetainChronological(qs: seq<Record>, cutoff: string)
    requires Chronological(qs)
    ensures Chronological(Retain(qs, cutoff))
    decreases |qs|
  {
    if |qs| > 0 {
      RetainChronological(qs[1..], cutoff);
      assert NoneBefore(qs[1..], qs[0].date) by {
        forall k | 0 <= k < |qs[1..]| ensures !Less(qs[1..][k].date, qs[0].date) {
          assert qs[1..][k] == qs[k + 1];
        }
      }
      RetainNoneBefore(qs[1..], cutoff, qs[0].date);
      var rest := Retain(qs[1..], cutoff);
      var head := if Kept(qs[0], cutoff) then [qs[0]] else [];
      var r := head + rest;
      forall i, j | 0 <= i < j < |r| ensures !Less(r[j].date, r[i].date) {
        if |head| == 1 && i == 0 {
          assert r[j] == rest[j - 1];
        } else {
          assert r[i] == rest[i - |head|] && r[j] == rest[j - |head|];
        }
      }
    }
  }

  // ---------------------------------------------------------------------------
  // The ledger update

  /** `data.x || 0` and `data.queries || []` read the stored keys with defaults. */
  function StoredQueries(s: Store): seq<Record> {
    s.queries.GetOr([])
  }

  /** The record of the last query, if any. */
  function LastRecord(qs: seq<Record>): Option<Record> {
    if |qs| == 0 then None else Some(qs[|qs| - 1])
  }

  /**
   * The four keys an admitted `trackQuery` writes, as a function of the stored keys, the
   * query and the two dates it derives from the clock.
   */
  function TrackedStore(s: Store, model: string, waterUsage: real, today: string, timestamp: string, sevenDaysAgo: string): Store {
    var queries := StoredQueries(s);
    var daily := if LastRecord(queries).Some? && LastRecord(queries).value.date != today then 0.0 else s.dailyUsage.GetOr(0.0);
    var kept := Retain(queries + [Record(today, model, waterUsage, timestamp)], sevenDaysAgo);
    Store(Some(daily + waterUsage), Some(SumUsage(kept)), Some(s.totalUsage.GetOr(0.0) + waterUsage), Some(kept))
  }

  /**
   * What an admitted call promises about the ledger it writes: the day-rollover rule, the
   * total growing by exactly the volume, the pruned records in their old order with the
   * new record last (when today itself is within the week), every retained record within
   * the week, and the weekly value as the sum over the retained records.
   */
  lemma TrackedStoreLedger(s: Store, model: string, waterUsage: real, today: string, timestamp: string, sevenDaysAgo: string)
    ensures TrackedStore(s, model, waterUsage, today, timestamp, sevenDaysAgo).dailyUsage.Some?
    ensures TrackedStore(s, model, waterUsage, today, timestamp, sevenDaysAgo).weeklyUsage.Some?
    ensures TrackedStore(s, model, waterUsage, today, timestamp, sevenDaysAgo).totalUsage.Some?
    ensures TrackedStore(s, model, waterUsage, today, timestamp, sevenDaysAgo).queries.Some?
    ensures var qs := StoredQueries(s);
      |qs| > 0 && qs[|qs| - 1].date != today ==>
        TrackedStore(s, model, waterUsage, today, timestamp, sevenDaysAgo).dailyUsage.value == waterUsage
    ensures var qs := StoredQueries(s);
      |qs| == 0 || qs[|qs| - 1].date == today ==>
        TrackedStore(s, model, waterUsage, today, timestamp, sevenDaysAgo).dailyUsage.value == s.dailyUsage.GetOr(0.0) + waterUsage
    ensures TrackedStore(s, model, waterUsage, today, timestamp, sevenDaysAgo).totalUsage.value == s.totalUsage.GetOr(0.0) + waterUsage
    ensures var r := TrackedStore(s, model, waterUsage, today, timestamp, sevenDaysAgo);
      r.weeklyUsage.value == SumUsage(r.queries.value)
    ensures var r := TrackedStore(s, model, waterUsage, today, timestamp, sevenDaysAgo);
      forall i :: 0 <= i < |r.queries.value| ==> !Less(r.queries.value[i].date, sevenDaysAgo)
    ensures !Less(today, sevenDaysAgo) ==>
      TrackedStore(s, model, waterUsage, today, timestamp, sevenDaysAgo).queries.value
        == Retain(StoredQueries(s), sevenDaysAgo) + [Record(today, model, waterUsage, timestamp)]
  {
    var qs := StoredQueries(s);
    var rec := Record(today, model, waterUsage, timestamp);
    var kept := Retain(qs + [rec], sevenDaysAgo);
    assert TrackedStore(s, model, waterUsage, today, timestamp, sevenDaysAgo).queries == Some(kept);
    RetainMeaning(qs + [rec], sevenDaysAgo);
    if !Less(today, sevenDaysAgo) {
      RetainAppend(qs, [rec], sevenDaysAgo);
      assert Retain([rec], sevenDaysAgo) == [rec] by {
        assert [rec][1..] == [];
      }
    }
  }

  /** The weekly value written does not depend on the weekly value stored. */
  lemma WeeklyIgnoresStoredValue(s: Store, stale: Option<real>, model: string, waterUsage: real, today: string, timestamp: string, sevenDaysAgo: string)
    ensures TrackedStore(s.(weeklyUsage := stale), model, waterUsage, today, timestamp, sevenDaysAgo)
         == TrackedStore(s, model, waterUsage, today, timestamp, sevenDaysAgo)
  {
  }

  /** The stored weekly value is the sum over the stored records. */
  predicate WeeklyConsistent(s: Store) {
    s.weeklyUsage.GetOr(0.0) == SumUsage(StoredQueries(s))
  }

  /**
   * Every written ledger is weekly-consistent, and the weekly value grows by exactly the
   * new volume when no stored record expires and today is within the week.
   */
  lemma WeeklyGrowth(s: Store, model: string, waterUsage: real, today: string, timestamp: string, sevenDaysAgo: string)
    ensures WeeklyConsistent(TrackedStore(s, model, waterUsage, today, timestamp, sevenDaysAgo))
    ensures WeeklyConsistent(s) && !Less(today, sevenDaysAgo)
            && (forall i :: 0 <= i < |StoredQueries(s)| ==> Kept(StoredQueries(s)[i], sevenDaysAgo))
        ==> TrackedStore(s, model, waterUsage, today, timestamp, sevenDaysAgo).weeklyUsage.value
            == s.weeklyUsage.GetOr(0.0) + waterUsage
  {
    var qs := StoredQueries(s);
    var rec := Record(today, model, waterUsage, timestamp);
    if WeeklyConsistent(s) && !Less(today, sevenDaysAgo) && (forall i :: 0 <= i < |qs| ==> Kept(qs[i], sevenDaysAgo)) {
      assert forall i :: 0 <= i < |qs + [rec]| ==> Kept((qs + [rec])[i], sevenDaysAgo);
      RetainAll(qs + [rec], sevenDaysAgo);
      SumUsageAppend(qs, [rec]);
      assert [rec][..0] == [];
    }
  }

  /** The stored daily value is the volume of the records dated like the last record. */
  predicate DailyConsistent(s: Store) {
    var qs := StoredQueries(s);
    s.dailyUsage.GetOr(0.0) == if |qs| == 0 then 0.0 else SumOn(qs, qs[|qs| - 1].date)
  }

  /**
   * Across `trackQuery` calls alone the daily value is the volume of today's records:
   * if the stored ledger is daily-consistent and in date order and today is neither
   * before the last record nor outside the week, the written ledger is too, and its daily
   * value is exactly the volume recorded today.
   */
  lemma DailyMatchesTodaysRecords(s: Store, model: string, waterUsage: real, today: string, timestamp: string, sevenDaysAgo: string)
    requires DailyConsistent(s) && Chronological(StoredQueries(s))
    requires |StoredQueries(s)| > 0 ==> !Less(today, StoredQueries(s)[|StoredQueries(s)| - 1].date)
    requires !Less(today, sevenDaysAgo)
    ensures var r := TrackedStore(s, model, waterUsage, today, timestamp, sevenDaysAgo);
      && r.dailyUsage.value == SumOn(r.queries.value, today)
      && DailyConsistent(r) && Chronological(StoredQueries(r))
  {
    var qs := StoredQueries(s);
    var rec := Record(today, model, waterUsage, timestamp);
    var r := TrackedStore(s, model, waterUsage, today, timestamp, sevenDaysAgo);
    TrackedStoreLedger(s, model, waterUsage, today, timestamp, sevenDaysAgo);
    RetainKeepsDay(qs + [rec], sevenDaysAgo, today);
    SumOnAppend(qs, [rec], today);
    assert SumOn([rec], today) == waterUsage by {
      assert [rec][..0] == [];
    }
    if |qs| > 0 && qs[|qs| - 1].date != today {
      var last := qs[|qs| - 1].date;
      LessTrichotomy(today, last);
      forall i | 0 <= i < |qs| ensures qs[i].date != today {
        if i < |qs| - 1 && qs[i].date == today {
          LessAsymmetric(last, today);
        }
      }
      SumOnAbsent(qs, today);
    }
    assert Chronological(qs + [rec]) by {
      forall i, j | 0 <= i < j < |qs + [rec]| ensures !Less((qs + [rec])[j].date, (qs + [rec])[i].date) {
        if j == |qs| {
          if i < |qs| - 1 {
            NotLessTransitive(today, qs[|qs| - 1].date, qs[i].date);
          }
        }
      }
    }
    RetainChronological(qs + [rec], sevenDaysAgo);
  }

  // ---------------------------------------------------------------------------
  // The throttle across a run of calls

  /**
   * The times, out of a run of calls, that the one-second gate admits. This models the
   * gate alone: each step is the throttle of `Tracker.TrackQuery` for a call with a valid
   * context, which is not `Throttled` exactly when it is outside the window of the last
   * admitted time, and then moves `lastTrackTime` to its own time.
   */
  function Admitted(last: int, times: seq<int>): seq<int>
    decreases |times|
  {
    if |times| == 0 then []
    else if WithinWindow(last, times[0]) then Admitted(last, times[1..])
    else [times[0]] + Admitted(times[0], times[1..])
  }

  /** Admitted calls are at least a second apart, and a second after the last admitted one. */
  lemma {:induction false} AdmittedSpaced(last: int, times: seq<int>)
    ensures forall i :: 0 <= i < |Admitted(last, times)| ==> Admitted(last, times)[i] - last >= ThrottleWindow
    ensures forall i :: 0 < i < |Admitted(last, times)| ==> Admitted(last, times)[i] - Admitted(last, times)[i - 1] >= ThrottleWindow
    decreases |times|
  {
    if |times| > 0 {
      AdmittedSpaced(last, times[1..]);
      AdmittedSpaced(times[0], times[1..]);
    }
  }

  lemma {:induction false} AdmittedNone(last: int, times: seq<int>)
    requires forall i :: 0 <= i < |times| ==> WithinWindow(last, times[i])
    ensures Admitted(last, times) == []
    decreases |times|
  {
    if |times| > 0 {
      AdmittedNone(last, times[1..]);
    }
  }

  /** A burst of calls within one second of its first call, which is admitted, records once. */
  lemma BurstRecordsOnce(last: int, times: seq<int>)
    requires |times| > 0 && !WithinWindow(last, times[0])
    requires forall i :: 0 <= i < |times| ==> times[0] <= times[i] < times[0] + ThrottleWindow
    ensures Admitted(last, times) == [times[0]]
  {
    AdmittedNone(times[0], times[1..]);
  }

  // ---------------------------------------------------------------------------
  // trackQuery

  /** The content script's state that `trackQuery` writes. */
  class Tracker {
    /** `trackQuery.lastTrackTime`, in milliseconds. */
    var lastTrackTime: int
    /** The module-level `queryCount`. */
    var queryCount: int
    /** The module-level `totalWaterUsage`; it mirrors the daily value. */
    var totalWaterUsage: real

    constructor()
      ensures lastTrackTime == 0 && queryCount == 0 && totalWaterUsage == 0.0
    {
      lastTrackTime := 0;
      queryCount := 0;
      totalWaterUsage := 0.0;
    }

    /**
     * `trackQuery(model, waterUsage)`. `contextValid` is the extension-context probe,
     * `now` the `Date.now()` reading, `today`, `timestamp` and `sevenDaysAgo` the dates
     * derived from the second clock reading, `stored` the storage read (`None` when it is
     * rejected) and `writeOk` whether the storage write succeeds. `written` is the
     * ledger the call asks storage to set, if it gets that far.
     */
    method TrackQuery(model: string, waterUsage: real, contextValid: bool, now: int,
                      today: string, timestamp: string, sevenDaysAgo: string,
                      stored: Option<Store>, writeOk: bool)
      returns (outcome: Outcome, written: Option<Store>)
      modifies this
      ensures !contextValid ==> outcome == ContextInvalid && written == None && unchanged(this)
      ensures contextValid && WithinWindow(old(lastTrackTime), now) ==>
                outcome == Throttled && written == None && unchanged(this)
      ensures contextValid && !WithinWindow(old(lastTrackTime), now) ==> lastTrackTime == now
      ensures contextValid && !WithinWindow(old(lastTrackTime), now) && stored.None? ==>
                outcome == ReadFailed && written == None
                && queryCount == old(queryCount) && totalWaterUsage == old(totalWaterUsage)
      ensures contextValid && !WithinWindow(old(lastTrackTime), now) && stored.Some? ==>
                && written == Some(TrackedStore(stored.value, model, waterUsage, today, timestamp, sevenDaysAgo))
                && queryCount == |written.value.queries.value|
                && totalWaterUsage == written.value.dailyUsage.value
                && outcome == (if writeOk then Recorded else WriteFailed)
    {
      if !contextValid {
        return ContextInvalid, None;
      }
      var trackTime := now;
      if trackTime - lastTrackTime < ThrottleWindow {
        return Throttled, None;
      }
      lastTrackTime := trackTime;
      if stored.None? {
        return ReadFailed, None;
      }
      var data := stored.value;
      var dailyUsage := data.dailyUsage.GetOr(0.0);
      var weeklyUsage := data.weeklyUsage.GetOr(0.0);
      var totalUsage := data.totalUsage.GetOr(0.0);
      var queries := data.queries.GetOr([]);
      if |queries| > 0 && queries[|queries| - 1].date != today {
        dailyUsage := 0.0;
      }
      dailyUsage := dailyUsage + waterUsage;
      weeklyUsage := weeklyUsage + waterUsage;
      totalUsage := totalUsage + waterUsage;
      queries := queries + [Record(today, model, waterUsage, timestamp)];
      queries := Retain(queries, sevenDaysAgo);
      queryCount := |queries|;
      totalWaterUsage := dailyUsage;
      written := Some(Store(Some(dailyUsage), Some(SumUsage(queries)), Some(totalUsage), Some(queries)));
      outcome := if writeOk then Recorded else WriteFailed;
    }
  }
}
