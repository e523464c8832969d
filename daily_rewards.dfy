/**
 * Daily-login streaks on the game server. Each claim inserts a row of
 * `daily_logins`; the status shown to a player is derived from their latest
 * row. Calendar dates (UTC `YYYY-MM-DD` strings) are day numbers here, so
 * "yesterday" is `today - 1`.
 */
module DailyRewards {
  import opened Common
  import opened ServerSaves

  /** `reward_day` cycles through 1..30. */
  const RewardCycle: int := 30

  datatype Login = Login(user: UserId, day: int, streak: int, rewardDay: int)

  /** What the claim route keeps true of the table. */
  predicate Inv(rows: seq<Login>)
  {
    (forall k :: 0 <= k < |rows| ==>
       rows[k].streak >= 1 && 1 <= rows[k].rewardDay <= RewardCycle &&
       rows[k].rewardDay == (rows[k].streak - 1) % RewardCycle + 1) &&
    (forall i, j :: 0 <= i < j < |rows| ==> rows[i].user != rows[j].user || rows[i].day != rows[j].day)
  }

  /** `SELECT * … WHERE user_id = ? ORDER BY login_date DESC LIMIT 1` */
  function Latest(rows: seq<Login>, u: UserId): (r: Option<Login>)
    ensures r.None? <==> forall k :: 0 <= k < |rows| ==> rows[k].user != u
    ensures r.Some? ==> r.value in rows && r.value.user == u
    ensures r.Some? ==> forall k :: 0 <= k < |rows| && rows[k].user == u ==> rows[k].day <= r.value.day
  {
    if rows == [] then None
    else
      var prev := Latest(rows[..|rows| - 1], u);
      var last := rows[|rows| - 1];
      assert forall k :: 0 <= k < |rows| - 1 ==> rows[k] == rows[..|rows| - 1][k];
      if last.user != u then prev
      else if prev.Some? && prev.value.day >= last.day then prev
      else Some(last)
  }

  /** Whether `u` already has a row for `day` (the UNIQUE(user_id, login_date) key). */
  predicate HasRow(rows: seq<Login>, u: UserId, day: int)
  {
    exists k :: 0 <= k < |rows| && rows[k].user == u && rows[k].day == day
  }

  // ---------------------------------------------------------------------------
  // GET /

  datatype StreakStatus = StreakStatus(streak: int, rewardDay: int, claimedToday: bool)

  function StatusOf(rows: seq<Login>, u: UserId, today: int): (s: StreakStatus)
    ensures Latest(rows, u).None? ==> s == StreakStatus(0, 0, false)
  {
    match Latest(rows, u)
    case None => StreakStatus(0, 0, false)
    case Some(l) =>
      var active := l.day == today || l.day == today - 1;
      StreakStatus(if active then l.streak else 0, if active then l.rewardDay else 0, l.day == today)
  }

  /**
   * The status reports the latest row's streak and reward day exactly when
   * that row is from today or yesterday, and zeros otherwise; the reward day
   * is 0 or within 1..30.
   */
  lemma StatusMeaning(rows: seq<Login>, u: UserId, today: int)
    requires Inv(rows)
    ensures var s := StatusOf(rows, u, today);
      (s.claimedToday <==> HasRow(rows, u, today) && Latest(rows, u).value.day == today) &&
      (s.streak == 0 <==> s.rewardDay == 0) &&
      0 <= s.rewardDay <= RewardCycle &&
      (s.streak != 0 <==> Latest(rows, u).Some? && today - 1 <= Latest(rows, u).value.day <= today)
  {
    var s := StatusOf(rows, u, today);
    if s.claimedToday {
      var l := Latest(rows, u).value;
      var k :| 0 <= k < |rows| && rows[k] == l;
      assert rows[k].user == u && rows[k].day == today;
    }
  }

  // ---------------------------------------------------------------------------
  // POST /claim

  datatype ClaimError =
    | AlreadyClaimed   // 400
    | RowConflict      // the INSERT hits UNIQUE(user_id, login_date): a failure the route does not catch

  /** The streak and reward day of a new claim, given the latest earlier row. */
  function NextStreak(latest: Option<Login>, today: int): (r: (int, int))
    ensures latest.Some? && latest.value.day == today - 1 ==>
      r.0 == latest.value.streak + 1 &&
      r.1 == (if latest.value.rewardDay < RewardCycle then latest.value.rewardDay + 1 else 1)
    ensures !(latest.Some? && latest.value.day == today - 1) ==> r == (1, 1)
  {
    if latest.Some? && latest.value.day == today - 1 then
      (latest.value.streak + 1, if latest.value.rewardDay < RewardCycle then latest.value.rewardDay + 1 else 1)
    else (1, 1)
  }

  function ClaimSpec(rows: seq<Login>, u: UserId, today: int): (seq<Login>, Result<Login, ClaimError>)
  {
    var latest := Latest(rows, u);
    if latest.Some? && latest.value.day == today then (rows, Err(AlreadyClaimed))
    else if HasRow(rows, u, today) then (rows, Err(RowConflict))
    else
      var (streak, rewardDay) := NextStreak(latest, today);
      var row := Login(u, today, streak, rewardDay);
      (rows + [row], Ok(row))
  }

  /**
   * A claim adds exactly one row, for today; it keeps every reward day in
   * 1..30 in step with the streak, and keeps one row per user and day.
   */
  lemma {:induction false} ClaimKeepsInv(rows: seq<Login>, u: UserId, today: int)
    requires Inv(rows)
    ensures var (rows', r) := ClaimSpec(rows, u, today);
      Inv(rows') &&
      (r.Ok? ==> rows' == rows + [r.value] && r.value.day == today && r.value.user == u &&
                 1 <= r.value.rewardDay <= RewardCycle && r.value.streak >= 1) &&
      (r.Err? ==> rows' == rows)
  {
    var (rows', r) := ClaimSpec(rows, u, today);
    if r.Ok? {
      var latest := Latest(rows, u);
      var (streak, rewardDay) := NextStreak(latest, today);
      NextStreakInStep(rows, u, today);
      assert !HasRow(rows, u, today);
      AppendKeepsInv(rows, Login(u, today, streak, rewardDay));
    }
  }

  /** The streak and reward day a claim computes keep the reward day in step with the streak. */
  lemma NextStreakInStep(rows: seq<Login>, u: UserId, today: int)
    requires Inv(rows)
    ensures var (streak, rewardDay) := NextStreak(Latest(rows, u), today);
      streak >= 1 && 1 <= rewardDay <= RewardCycle && rewardDay == (streak - 1) % RewardCycle + 1
  {
    var latest := Latest(rows, u);
    if latest.Some? && latest.value.day == today - 1 {
      var l := latest.value;
      var k :| 0 <= k < |rows| && rows[k] == l;
      assert l.streak >= 1 && l.rewardDay == (l.streak - 1) % RewardCycle + 1;
      StepCycle(l.streak);
    }
  }

  /** A row in step with its streak, for a user and day without a row yet, keeps the invariant. */
  lemma AppendKeepsInv(rows: seq<Login>, row: Login)
    requires Inv(rows) && !HasRow(rows, row.user, row.day)
    requires row.streak >= 1 && 1 <= row.rewardDay <= RewardCycle
    requires row.rewardDay == (row.streak - 1) % RewardCycle + 1
    ensures Inv(rows + [row])
  {
    var rows' := rows + [row];
    forall k | 0 <= k < |rows'|
      ensures rows'[k].streak >= 1 && 1 <= rows'[k].rewardDay <= RewardCycle &&
              rows'[k].rewardDay == (rows'[k].streak - 1) % RewardCycle + 1
    {
      if k < |rows| {
        assert rows'[k] == rows[k];
      }
    }
    forall i, j | 0 <= i < j < |rows'|
      ensures rows'[i].user != rows'[j].user || rows'[i].day != rows'[j].day
    {
      assert rows'[i] == rows[i];
      if j < |rows| {
        assert rows'[j] == rows[j];
      }
    }
  }

  /** The reward day stepping with wrap-around is the streak counted modulo 30. */
  lemma StepCycle(streak: int)
    requires streak >= 1
    ensures var rd := (streak - 1) % RewardCycle + 1;
      (if rd < RewardCycle then rd + 1 else 1) == streak % RewardCycle + 1
  {
    var q := (streak - 1) / RewardCycle;
    var m := (streak - 1) % RewardCycle;
    assert streak - 1 == q * RewardCycle + m;
    if m < RewardCycle - 1 {
      assert streak == q * RewardCycle + (m + 1);
      assert streak % RewardCycle == m + 1;
    } else {
      assert streak == (q + 1) * RewardCycle;
      assert streak % RewardCycle == 0;
    }
  }

  /** Claiming on consecutive days continues the streak and the reward day, wrapping from 30 to 1. */
  lemma ConsecutiveClaim(rows: seq<Login>, u: UserId, today: int)
    requires Inv(rows)
    requires Latest(rows, u).Some? && Latest(rows, u).value.day == today - 1
    ensures var r := ClaimSpec(rows, u, today).1;
      var l := Latest(rows, u).value;
      r.Ok? && r.value.streak == l.streak + 1 &&
      r.value.rewardDay == (if l.rewardDay == RewardCycle then 1 else l.rewardDay + 1)
  {
    var l := Latest(rows, u).value;
    assert 1 <= l.rewardDay <= RewardCycle by {
      var k :| 0 <= k < |rows| && rows[k] == l;
    }
    assert !HasRow(rows, u, today);
  }

  /**
   * When time only moves forward (no row of the user is later than today),
   * a claim shows up in the status at once, and a second claim the same day
   * is refused.
   */
  lemma ClaimThenStatus(rows: seq<Login>, u: UserId, today: int)
    requires Inv(rows)
    requires forall k :: 0 <= k < |rows| && rows[k].user == u ==> rows[k].day <= today
    requires ClaimSpec(rows, u, today).1.Ok?
    ensures var (rows', r) := ClaimSpec(rows, u, today);
      StatusOf(rows', u, today) == StreakStatus(r.value.streak, r.value.rewardDay, true) &&
      ClaimSpec(rows', u, today) == (rows', Err(AlreadyClaimed))
  {
    var (rows', r) := ClaimSpec(rows, u, today);
    assert rows'[..|rows'| - 1] == rows;
    assert Latest(rows', u) == Some(r.value);
  }

  /** A first claim, or one after a missed day, starts again at streak 1, reward day 1. */
  lemma BrokenStreakResets(rows: seq<Login>, u: UserId, today: int)
    requires Latest(rows, u).None? || Latest(rows, u).value.day < today - 1
    requires !HasRow(rows, u, today)
    ensures ClaimSpec(rows, u, today).1 == Ok(Login(u, today, 1, 1))
  {
  }

  class DailyLogins {
    /** The `daily_logins` table, in insertion order. */
    var rows: seq<Login>

    constructor ()
      ensures rows == [] && Inv(rows)
    {
      rows := [];
    }

    /** POST /claim for user `u` on day `today`. */
    method Claim(u: UserId, today: int) returns (r: Result<Login, ClaimError>)
      modifies this
      ensures (rows, r) == ClaimSpec(old(rows), u, today)
    {
      var latest := Latest(rows, u);
      if latest.Some? && latest.value.day == today {
        return Err(AlreadyClaimed);
      }
      var newStreak := 1;
      var newRewardDay := 1;
      if latest.Some? {
        var yesterday := today - 1;
        if latest.value.day == yesterday {
          newStreak := latest.value.streak + 1;
          newRewardDay := if latest.value.rewardDay < RewardCycle then latest.value.rewardDay + 1 else 1;
        }
      }
      if HasRow(rows, u, today) {
        return Err(RowConflict);
      }
      var row := Login(u, today, newStreak, newRewardDay);
      rows := rows + [row];
      r := Ok(row);
    }
  }
}
