/** The calendar-second order counter: one bucket per user, overwritten when the user is
    next seen in another second. */
module PerSecond {
  import opened Base
  import opened Windows

  const MAX_ORDERS_PER_SECOND := 9

  datatype Bucket = Bucket(second: int, count: int)

  function CurrentCount(bucket: Option<Bucket>, now: Time): int {
    if bucket.None? || bucket.value.second != Seconds(now) then 0 else bucket.value.count
  }

  function Bumped(bucket: Option<Bucket>, now: Time): Bucket {
    if bucket.None? || bucket.value.second != Seconds(now) then Bucket(Seconds(now), 1)
    else bucket.value.(count := bucket.value.count + 1)
  }

  class PerSecondCounter {
    var perUser: map<string, Bucket>

    constructor ()
      ensures perUser == map[]
    {
      perUser := map[];
    }

    method Count(email: string, now: Time) returns (count: int)
      ensures count == CurrentCount(Get(perUser, email), now)
    {
      if email !in perUser || perUser[email].second != Seconds(now) {
        return 0;
      }
      return perUser[email].count;
    }

    method Increment(email: string, now: Time)
      modifies this
      ensures perUser == old(perUser)[email := Bumped(Get(old(perUser), email), now)]
    {
      if email !in perUser || perUser[email].second != Seconds(now) {
        perUser := perUser[email := Bucket(Seconds(now), 1)];
        return;
      }
      var b := perUser[email];
      b := b.(count := b.count + 1);
      perUser := perUser[email := b];
    }
  }

  // --- The full log of increments, in the sequence in which the mutex admitted them ---

  /** The increments whose clock reading lies in the given second. */
  function InSecond(log: seq<Stamp<()>>, second: int): nat {
    if log == [] then 0
    else InSecond(log[..|log| - 1], second) + if Seconds(log[|log| - 1].at) == second then 1 else 0
  }

  /** The unbroken run of such increments at the end of the log. */
  function Streak(log: seq<Stamp<()>>, second: int): nat {
    if log == [] || Seconds(log[|log| - 1].at) != second then 0 else Streak(log[..|log| - 1], second) + 1
  }

  /** The one bucket kept for a user holds the streak of the last increment's second. */
  ghost predicate BucketOk(bucket: Option<Bucket>, log: seq<Stamp<()>>) {
    match bucket
    case None => log == []
    case Some(b) => log != [] && b.second == Seconds(log[|log| - 1].at) && b.count == Streak(log, b.second)
  }

  /** Whatever the clock readings, the count is the streak of the second asked about. */
  lemma CountIsStreak(bucket: Option<Bucket>, log: seq<Stamp<()>>, now: Time)
    requires BucketOk(bucket, log)
    ensures CurrentCount(bucket, now) == Streak(log, Seconds(now))
  {
  }

  lemma IncrementKeepsStreak(bucket: Option<Bucket>, log: seq<Stamp<()>>, at: Time)
    requires BucketOk(bucket, log)
    ensures BucketOk(Some(Bumped(bucket, at)), log + [Stamp(at, ())])
  {
    assert (log + [Stamp(at, ())])[..|log|] == log;
  }

  /** No increment of the second was overtaken by one with a reading in another second. */
  ghost predicate Unbroken(log: seq<Stamp<()>>, second: int) {
    forall i, j :: 0 <= i < j < |log| && Seconds(log[i].at) == second ==> Seconds(log[j].at) == second
  }

  lemma {:induction false} NoneInSecond(log: seq<Stamp<()>>, second: int)
    ensures InSecond(log, second) == 0 <==> forall i :: 0 <= i < |log| ==> Seconds(log[i].at) != second
  {
    if log != [] {
      NoneInSecond(log[..|log| - 1], second);
      assert log == log[..|log| - 1] + [log[|log| - 1]];
    }
  }

  /** The streak never counts too much, and it counts the whole history of the second exactly
      when the second is unbroken. */
  lemma {:induction false} StreakIsHistoryIff(log: seq<Stamp<()>>, second: int)
    ensures Streak(log, second) <= InSecond(log, second)
    ensures Streak(log, second) == InSecond(log, second) <==> Unbroken(log, second)
  {
    if log != [] {
      var n := |log| - 1;
      StreakIsHistoryIff(log[..n], second);
      NoneInSecond(log[..n], second);
      if Seconds(log[n].at) == second {
        assert Unbroken(log, second) <==> Unbroken(log[..n], second);
      } else if i :| 0 <= i < n && Seconds(log[..n][i].at) == second {
        assert !Unbroken(log, second);
      } else {
        assert Unbroken(log, second);
      }
    }
  }

  // --- A clock that never runs backwards ---

  /** The bucket and a log whose readings do not decrease. */
  ghost predicate CountsLog(bucket: Option<Bucket>, log: seq<Stamp<()>>, now: Time) {
    Sorted(log) && Until(log, now) && BucketOk(bucket, log)
  }

  /** With a clock that never runs backwards the bucket answers for the whole history:
      the count is the number of increments in the current calendar second. */
  lemma CountIsHistory(bucket: Option<Bucket>, log: seq<Stamp<()>>, earlier: Time, now: Time)
    requires CountsLog(bucket, log, earlier) && earlier <= now
    ensures CountsLog(bucket, log, now)
    ensures CurrentCount(bucket, now) == InSecond(log, Seconds(now))
  {
    CountIsStreak(bucket, log, now);
    StreakIsHistoryIff(log, Seconds(now));
    forall i, j | 0 <= i < j < |log| && Seconds(log[i].at) == Seconds(now) ensures Seconds(log[j].at) == Seconds(now) {
      assert log[i].at <= log[j].at <= now;
    }
  }

  lemma IncrementKeepsHistory(bucket: Option<Bucket>, log: seq<Stamp<()>>, earlier: Time, now: Time)
    requires CountsLog(bucket, log, earlier) && earlier <= now
    ensures CountsLog(Some(Bumped(bucket, now)), log + [Stamp(now, ())], now)
  {
    IncrementKeepsStreak(bucket, log, now);
  }

  /** One late reading of the clock: the count stays that of the history exactly when nobody
      has been counted in the current second yet, or the late reading lies in that second too.
      Otherwise the bucket is replaced and the current second counts as empty. */
  lemma LateReadingForgets(bucket: Option<Bucket>, log: seq<Stamp<()>>, late: Time, now: Time)
    requires CountsLog(bucket, log, now) && late <= now
    ensures var counted := CurrentCount(Some(Bumped(bucket, late)), now);
            && (counted == InSecond(log + [Stamp(late, ())], Seconds(now)) <==>
                  bucket.None? || bucket.value.second != Seconds(now) || Seconds(late) == Seconds(now))
            && (bucket.Some? && bucket.value.second == Seconds(now) && Seconds(late) != Seconds(now) ==>
                  counted == 0 < InSecond(log, Seconds(now)))
  {
    var log' := log + [Stamp(late, ())];
    assert log'[..|log|] == log;
    CountIsHistory(bucket, log, now, now);
    IncrementKeepsStreak(bucket, log, late);
    CountIsStreak(Some(Bumped(bucket, late)), log', now);
  }
}
