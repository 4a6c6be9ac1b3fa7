/** Trading-day and market-hours arithmetic. Asia/Kolkata is a fixed +05:30 offset, so
    an instant splits into a local day number and a time of day. */
module Calendar {
  import opened Base

  const IST_OFFSET: Time := 5 * HOUR + 30 * MINUTE
  const OPENING: Time := 9 * HOUR + 15 * MINUTE

  // Session boundaries as minutes of the day, [09:15, 15:30).
  const MARKET_OPEN_MINUTE := 9 * 60 + 15
  const MARKET_CLOSE_MINUTE := 15 * 60 + 30

  // The off-hours block, in hours of the day, [2, 6).
  const OFF_HOURS_START := 2
  const OFF_HOURS_END := 6

  // Divisors are written as literals, so that the arithmetic stays linear.

  function LocalDay(t: Time): int {
    (t + IST_OFFSET) / 86_400_000_000_000
  }

  function TimeOfDay(t: Time): Time {
    (t + IST_OFFSET) % 86_400_000_000_000
  }

  function MinuteOfDay(t: Time): int {
    TimeOfDay(t) / 60_000_000_000
  }

  function HourOfDay(t: Time): int {
    TimeOfDay(t) / 3_600_000_000_000
  }

  /** 0 is Sunday; day 0 of the epoch was a Thursday. */
  function Weekday(t: Time): int {
    (LocalDay(t) + 4) % 7
  }

  /** The 09:15 IST of the given local day. */
  function OpeningOf(day: int): Time {
    day * 86_400_000_000_000 + OPENING - IST_OFFSET
  }

  ghost predicate IsOpening(t: Time) {
    exists day: int :: t == OpeningOf(day)
  }

  /** The instant before which a tracker's last reset is stale: today's 09:15 IST, or
      yesterday's when the market has not opened yet today. */
  function ResetBoundary(now: Time): Time {
    var today := OpeningOf(LocalDay(now));
    if now < today then today - DAY else today
  }

  /** The boundary is the greatest 09:15 IST that is not after now, and nothing else is. */
  lemma BoundaryIsLastOpening(now: Time, b: Time)
    ensures b == ResetBoundary(now) <==>
              IsOpening(b) && b <= now && forall day: int :: OpeningOf(day) <= now ==> OpeningOf(day) <= b
  {
    var r := ResetBoundary(now);
    var d := if now < OpeningOf(LocalDay(now)) then LocalDay(now) - 1 else LocalDay(now);
    assert r == OpeningOf(d) && r <= now < OpeningOf(d + 1);
    forall day: int | OpeningOf(day) <= now ensures OpeningOf(day) <= r {
      assert day * DAY < (d + 1) * DAY;
    }
    if IsOpening(b) && b <= now && forall day: int :: OpeningOf(day) <= now ==> OpeningOf(day) <= b {
      assert OpeningOf(d) <= b;
      var day :| b == OpeningOf(day);
      assert OpeningOf(day) <= r;
    }
  }

  /** Boundaries never move back, and every instant between a boundary and now shares it. */
  lemma BoundaryMonotone(a: Time, b: Time)
    requires a <= b
    ensures ResetBoundary(a) <= a < ResetBoundary(a) + DAY
    ensures ResetBoundary(a) <= ResetBoundary(b)
    ensures ResetBoundary(b) <= a <==> ResetBoundary(a) == ResetBoundary(b)
    ensures ResetBoundary(a) != ResetBoundary(b) ==> a < ResetBoundary(b)
  {
    BoundaryIsLastOpening(a, ResetBoundary(a));
    BoundaryIsLastOpening(b, ResetBoundary(b));
    var da :| ResetBoundary(a) == OpeningOf(da);
    var db :| ResetBoundary(b) == OpeningOf(db);
    assert OpeningOf(da) <= ResetBoundary(b);
    if ResetBoundary(b) <= a {
      assert OpeningOf(db) <= ResetBoundary(a);
    }
  }

  function IsSpace(c: char): bool {
    c == ' ' || c == '\t' || c == '\n' || c == '\r' || c == '\U{000B}' || c == '\U{000C}'
    || c == '\U{0085}' || c == '\U{00A0}'
  }

  function TrimLeft(s: string): string {
    if s != "" && IsSpace(s[0]) then TrimLeft(s[1..]) else s
  }

  function TrimRight(s: string): string {
    if s != "" && IsSpace(s[|s| - 1]) then TrimRight(s[..|s| - 1]) else s
  }

  /** After-market orders are queued for the next session. */
  predicate IsAmo(variety: string) {
    Lower(TrimRight(TrimLeft(variety))) == "amo"
  }

  /** The market-hours rule: after-market orders always pass, anything else passes on
      weekdays within the session only. */
  predicate MarketAllows(now: Time, variety: string) {
    if IsAmo(variety) then true
    else if Weekday(now) == 6 || Weekday(now) == 0 then false
    else MARKET_OPEN_MINUTE <= MinuteOfDay(now) < MARKET_CLOSE_MINUTE
  }

  predicate OffHours(now: Time) {
    OFF_HOURS_START <= HourOfDay(now) < OFF_HOURS_END
  }

  /** An order that the market-hours rule lets through without the after-market bypass is
      counted against the current local date's opening, and never meets the off-hours block. */
  lemma SessionOrdersBelongToToday(now: Time, variety: string)
    requires MarketAllows(now, variety) && !IsAmo(variety)
    ensures ResetBoundary(now) == OpeningOf(LocalDay(now))
    ensures OpeningOf(LocalDay(now)) <= now < OpeningOf(LocalDay(now)) + 6 * HOUR + 15 * MINUTE
    ensures !OffHours(now)
  {
    var tod := TimeOfDay(now);
    assert now + IST_OFFSET == LocalDay(now) * DAY + tod;
    assert OPENING <= tod < 15 * HOUR + 30 * MINUTE;
  }

  /** The session in terms of instants: a weekday order passes exactly between that day's
      opening and six and a quarter hours later. */
  lemma SessionInstants(now: Time, variety: string)
    requires !IsAmo(variety)
    ensures MarketAllows(now, variety) <==>
              1 <= Weekday(now) <= 5 &&
              exists day: int {:trigger OpeningOf(day)} ::
                && Weekday(OpeningOf(day)) == Weekday(now)
                && OpeningOf(day) <= now < OpeningOf(day) + 6 * HOUR + 15 * MINUTE
  {
    var tod := TimeOfDay(now);
    assert now + IST_OFFSET == LocalDay(now) * DAY + tod;
    var today := OpeningOf(LocalDay(now));
    assert LocalDay(today) == LocalDay(now);
    if 1 <= Weekday(now) <= 5 && exists day: int {:trigger OpeningOf(day)} ::
         Weekday(OpeningOf(day)) == Weekday(now) && OpeningOf(day) <= now < OpeningOf(day) + 6 * HOUR + 15 * MINUTE {
      var day: int :| Weekday(OpeningOf(day)) == Weekday(now)
        && OpeningOf(day) <= now < OpeningOf(day) + 6 * HOUR + 15 * MINUTE;
      assert day * DAY + OPENING <= now + IST_OFFSET < (day + 1) * DAY;
      assert LocalDay(now) == day;
    }
  }

  // --- Known dates and instants ---

  /** One nanosecond before 00:00 UTC on 1 January 1970 it was Thursday in India; weekdays go
      round in steps of one a day, and the day changes at 18:30 UTC. */
  lemma WeekdaysGoRound(t: Time)
    ensures Weekday(-1) == 4
    ensures Weekday(t + 86_400_000_000_000) == if Weekday(t) == 6 then 0 else Weekday(t) + 1
    ensures 0 <= Weekday(t) <= 6
    ensures (t + 19_800_000_000_000) % 86_400_000_000_000 != 0 ==> Weekday(t - 1) == Weekday(t)
  {
    assert LocalDay(t + 86_400_000_000_000) == LocalDay(t) + 1;
  }

  /** 22 April 2026 was a Wednesday, 25 April a Saturday, and the 26th a Sunday: at 10:30 IST
      only the first of them trades. */
  lemma AWeekInApril(variety: string)
    requires !IsAmo(variety)
    ensures Weekday(1_776_834_000_000_000_000) == 3 && MarketAllows(1_776_834_000_000_000_000, variety)
    ensures Weekday(1_777_093_200_000_000_000) == 6 && !MarketAllows(1_777_093_200_000_000_000, variety)
    ensures Weekday(1_777_179_600_000_000_000) == 0 && !MarketAllows(1_777_179_600_000_000_000, variety)
  {
  }

  /** 09:15 IST is 03:45 UTC. */
  lemma OpeningsInUtc(t: Time)
    ensures IsOpening(t) <==> t % 86_400_000_000_000 == 13_500_000_000_000
  {
    if t % 86_400_000_000_000 == 13_500_000_000_000 {
      assert t == OpeningOf(t / 86_400_000_000_000);
    }
  }

  /** The off-hours block, from 02:00 to 06:00 IST, lies between 20:30 and 00:30 UTC. */
  lemma OffHoursInUtc(now: Time)
    ensures OffHours(now) <==> !(1_800_000_000_000 <= now % 86_400_000_000_000 < 73_800_000_000_000)
  {
    TimeInUtc(now);
    var tod := TimeOfDay(now);
    hide TimeOfDay;
    assert OffHours(now) <==> 7_200_000_000_000 <= tod < 21_600_000_000_000;
  }

  lemma TimeInUtc(now: Time)
    ensures var utc := now % 86_400_000_000_000;
            TimeOfDay(now) == if utc < 66_600_000_000_000 then utc + 19_800_000_000_000 else utc - 66_600_000_000_000
  {
  }

  // --- The variety of an after-market order ---

  /** White space of Latin-1, by its codes. */
  predicate IsBlank(s: string) {
    forall i :: 0 <= i < |s| ==> s[i] as int in {9, 10, 11, 12, 13, 32, 133, 160}
  }

  /** Three letters that spell the variety in any case. */
  predicate SpellsAmo(s: string) {
    && |s| == 3
    && s[0] as int in {65, 97} && s[1] as int in {77, 109} && s[2] as int in {79, 111}
  }

  lemma {:induction false} TrimLeftStrips(s: string) returns (n: nat)
    ensures n <= |s| && IsBlank(s[..n]) && TrimLeft(s) == s[n..]
    ensures n < |s| ==> !IsSpace(s[n])
  {
    n := 0;
    if s != "" && IsSpace(s[0]) {
      var m := TrimLeftStrips(s[1..]);
      n := m + 1;
      assert s[..n] == [s[0]] + s[1..][..m];
    }
  }

  lemma {:induction false} TrimRightStrips(s: string) returns (n: nat)
    ensures n <= |s| && IsBlank(s[n..]) && TrimRight(s) == s[..n]
    ensures n > 0 ==> !IsSpace(s[n - 1])
  {
    n := |s|;
    if s != "" && IsSpace(s[|s| - 1]) {
      var front := s[..|s| - 1];
      n := TrimRightStrips(front);
      assert s[n..] == front[n..] + [s[|s| - 1]] && s[..n] == front[..n];
    }
  }

  lemma SpaceAt(s: string, i: nat)
    requires IsBlank(s) && i < |s|
    ensures IsSpace(s[i]) && s[i] as int !in {65, 97, 79, 111}
  {
  }

  lemma AmoIsSpelled(s: string)
    ensures Lower(s) == "amo" <==> SpellsAmo(s)
  {
    if |s| == 3 {
      assert Lower(s) == [LowerChar(s[0]), LowerChar(s[1]), LowerChar(s[2])];
    }
  }

  /** The variety is surrounded by blanks, and spelled in any case. */
  ghost predicate DressedAmo(variety: string, i: nat) {
    && i + 3 <= |variety| && SpellsAmo(variety[i..i + 3])
    && IsBlank(variety[..i]) && IsBlank(variety[i + 3..])
  }

  lemma DressedIsAmo(variety: string, i: nat)
    requires DressedAmo(variety, i)
    ensures IsAmo(variety)
  {
    var core, rest := variety[i..i + 3], variety[i..];
    var n := TrimLeftStrips(variety);
    if n < i {
      SpaceAt(variety[..i], n);
    } else if n > i {
      SpaceAt(variety[..n], i);
    }
    var m := TrimRightStrips(rest);
    if m > 3 {
      SpaceAt(variety[i + 3..], m - 4);
    } else if m < 3 {
      SpaceAt(rest[m..], 2 - m);
    }
    assert rest[..3] == core;
    AmoIsSpelled(core);
  }

  /** Case and surrounding white space do not matter to the after-market bypass, and nothing
      else passes for it. */
  lemma AmoInAnyCase(variety: string)
    ensures IsAmo(variety) <==> exists i: nat :: DressedAmo(variety, i)
  {
    if IsAmo(variety) {
      var i := TrimLeftStrips(variety);
      var rest := variety[i..];
      var m := TrimRightStrips(rest);
      AmoIsSpelled(rest[..m]);
      assert rest[..3] == variety[i..i + 3] && rest[3..] == variety[i + 3..];
      assert DressedAmo(variety, i);
    }
    if i: nat :| DressedAmo(variety, i) {
      DressedIsAmo(variety, i);
    }
  }
}
