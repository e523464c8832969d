/**
 * The journal's task cycles: the daily, weekly and monthly task pools, the
 * seeded shuffle that picks the active tasks of a cycle, the cycle seeds
 * and their expiry, and the initial progress and statistics records. The
 * clock arrives as `now` in milliseconds; the month seed, which the source
 * reads from the local calendar, arrives as a number.
 */
module Tasks {
  import opened Common
  import opened Utils

  /** A task definition; `rewardGold` is `reward.gold`. */
  datatype Task = Task(id: string, stat: string, target: int, rewardGold: int)

  const DailyTasks: seq<Task> := [
    Task("daily_kill_5", "monstersKilled", 5, 25),
    Task("daily_explore_3", "explorationsCompleted", 3, 15),
    Task("daily_deal_500", "damageDealt", 500, 20),
    Task("daily_earn_100g", "goldEarned", 100, 30),
    Task("daily_use_potion", "potionsUsed", 1, 10),
    Task("daily_win_3", "battlesWon", 3, 20),
    Task("daily_loot_2", "itemsLooted", 2, 15)]

  const WeeklyTasks: seq<Task> := [
    Task("weekly_kill_50", "monstersKilled", 50, 200),
    Task("weekly_boss_3", "bossesKilled", 3, 300),
    Task("weekly_deal_5000", "damageDealt", 5000, 250),
    Task("weekly_earn_1000g", "goldEarned", 1000, 350),
    Task("weekly_explore_20", "explorationsCompleted", 20, 200),
    Task("weekly_sell_10", "itemsSold", 10, 150)]

  const MonthlyTasks: seq<Task> := [
    Task("monthly_kill_300", "monstersKilled", 300, 1000),
    Task("monthly_boss_15", "bossesKilled", 15, 1500),
    Task("monthly_deal_50000", "damageDealt", 50000, 1200),
    Task("monthly_earn_10000g", "goldEarned", 10000, 2000),
    Task("monthly_explore_100", "explorationsCompleted", 100, 800)]

  const DailyTaskCount: int := 4
  const WeeklyTaskCount: int := 3
  const MonthlyTaskCount: int := 3

  const DayMs: nat := 24 * 60 * 60 * 1000
  const WeekMs: nat := 7 * 24 * 60 * 60 * 1000

  /** Whether no two tasks of a pool share an id. */
  predicate DistinctIds(pool: seq<Task>)
  {
    forall i, j :: 0 <= i < j < |pool| ==> pool[i].id != pool[j].id
  }

  // ---------------------------------------------------------------------------
  // selectTasks(pool, count, seed)

  /** The array `a` after `[a[i], a[j]] = [a[j], a[i]]`. */
  function Swap<T>(a: seq<T>, i: nat, j: nat): (r: seq<T>)
    requires i < |a| && j < |a|
    ensures |r| == |a| && r[i] == a[j] && r[j] == a[i]
    ensures forall k :: 0 <= k < |a| && k != i && k != j ==> r[k] == a[k]
  {
    a[i := a[j]][j := a[i]]
  }

  /** A swap rearranges the entries: each stays as often as before. */
  lemma SwapPermutes<T>(a: seq<T>, i: nat, j: nat)
    requires i < |a| && j < |a|
    ensures multiset(Swap(a, i, j)) == multiset(a)
  {
  }

  /** `s % (i + 1)` for a non-negative state: the partner of position i lies in [0, i]. */
  function SwapIndex(s: int, i: nat): (j: nat)
    requires s >= 0
    ensures j <= i
  {
    JsRem(s, i + 1)
  }

  /**
   * The shuffle loop from position i down to 1, the generator standing at s:
   * each iteration steps the generator, then swaps position i with the
   * position the new state chooses.
   */
  function ShuffleFrom<T>(a: seq<T>, s: int, i: int): seq<T>
    requires s >= 0 && i < |a|
    decreases i
  {
    if i <= 0 then a
    else
      var s' := LehmerStep(s);
      ShuffleFrom(Swap(a, i, SwapIndex(s', i)), s', i - 1)
  }

  /** One iteration of the shuffle loop. */
  lemma ShuffleUnfold<T>(a: seq<T>, s: int, i: int)
    requires s >= 0 && 0 < i < |a|
    ensures LehmerStep(s) >= 0
    ensures ShuffleFrom(a, s, i) == ShuffleFrom(Swap(a, i, SwapIndex(LehmerStep(s), i)), LehmerStep(s), i - 1)
  {
  }

  /** The shuffle rearranges the pool: the same entries, each as often as before. */
  lemma {:induction false} ShufflePermutes<T>(a: seq<T>, s: int, i: int)
    requires s >= 0 && i < |a|
    ensures |ShuffleFrom(a, s, i)| == |a| && multiset(ShuffleFrom(a, s, i)) == multiset(a)
    decreases i
  {
    if i > 0 {
      var s' := LehmerStep(s);
      var b := Swap(a, i, SwapIndex(s', i));
      ShuffleUnfold(a, s, i);
      SwapPermutes(a, i, SwapIndex(s', i));
      ShufflePermutes(b, s', i - 1);
    }
  }

  /** The end index of `slice(0, count)` on an array of length len: a negative count counts from the end. */
  function SliceEnd(len: nat, count: int): (n: nat)
    ensures n <= len
    ensures count >= 0 ==> n == Min(count, len)
  {
    if count < 0 then Max(0, len + count) else Min(count, len)
  }

  /** `selectTasks(pool, count, seed)` as a value: the first `count` entries of the shuffled copy. */
  function Selection<T>(pool: seq<T>, count: int, seed: int): seq<T>
    requires seed >= 0
  {
    var shuffled := ShuffleFrom(pool, seed, |pool| - 1);
    ShufflePermutes(pool, seed, |pool| - 1);
    shuffled[..SliceEnd(|pool|, count)]
  }

  /** A sequence with no entry twice has multiplicity at most one everywhere, and back. */
  lemma {:induction false} DistinctMultiplicity<T>(s: seq<T>)
    ensures Distinct(s) <==> forall x :: multiset(s)[x] <= 1
  {
    if s != [] {
      var t := s[..|s| - 1];
      var last := s[|s| - 1];
      assert s == t + [last];
      DistinctMultiplicity(t);
      if Distinct(s) {
        assert Distinct(t);
        forall k | 0 <= k < |t| ensures t[k] != last {
          assert s[k] == t[k] && k < |s| - 1;
        }
      }
      if forall x :: multiset(s)[x] <= 1 {
        forall x ensures multiset(t)[x] <= 1 {
          assert multiset(s)[x] == multiset(t)[x] + (if x == last then 1 else 0);
        }
        forall i, j | 0 <= i < j < |s| ensures s[i] != s[j] {
          if j < |s| - 1 {
            assert s[i] == t[i] && s[j] == t[j];
          } else {
            assert s[i] == t[i] && t[i] in multiset(t);
            assert multiset(s)[t[i]] == multiset(t)[t[i]] + (if t[i] == last then 1 else 0);
          }
        }
      }
    }
  }

  /**
   * What `selectTasks` promises: `min(count, pool.length)` entries (for a
   * non-negative count), each taken from the pool and none more often than
   * the pool holds it, so a pool without repeats gives a selection without
   * repeats.
   */
  lemma SelectionSound<T>(pool: seq<T>, count: int, seed: int)
    requires seed >= 0
    ensures var r := Selection(pool, count, seed);
      |r| == SliceEnd(|pool|, count) && (count >= 0 ==> |r| == Min(count, |pool|)) &&
      multiset(r) <= multiset(pool) &&
      (forall x :: x in r ==> x in pool) &&
      (Distinct(pool) ==> Distinct(r))
  {
    var shuffled := ShuffleFrom(pool, seed, |pool| - 1);
    ShufflePermutes(pool, seed, |pool| - 1);
    var n := SliceEnd(|pool|, count);
    var r := shuffled[..n];
    assert shuffled == r + shuffled[n..];
    assert multiset(shuffled) == multiset(r) + multiset(shuffled[n..]);
    forall x | x in r ensures x in pool {
      assert x in multiset(r);
      assert x in multiset(pool);
    }
    if Distinct(pool) {
      DistinctMultiplicity(pool);
      DistinctMultiplicity(r);
    }
  }

  /**
   * `selectTasks(pool, count, seed)`: copies the pool, shuffles the copy in
   * place from the last position down, and slices off the first `count`.
   * The pool is only read, never written.
   */
  method SelectTasks<T>(pool: array<T>, count: int, seed: int) returns (r: seq<T>)
    requires seed >= 0
    ensures r == Selection(pool[..], count, seed)
  {
    var shuffled := new T[pool.Length](k reads pool requires 0 <= k < pool.Length => pool[k]);
    assert shuffled[..] == pool[..];
    ghost var target := ShuffleFrom(pool[..], seed, pool.Length - 1);
    var s := seed;
    var i := shuffled.Length - 1;
    while i > 0
      invariant -1 <= i < shuffled.Length && s >= 0
      invariant ShuffleFrom(shuffled[..], s, i) == target
      decreases i
    {
      ghost var before := shuffled[..];
      ghost var s0 := s;
      s := JsRem(s * Multiplier + 0, Modulus);
      var j := JsRem(s, i + 1);
      assert s == LehmerStep(s0) && j == SwapIndex(s, i);
      ShuffleUnfold(before, s0, i);
      shuffled[i], shuffled[j] := shuffled[j], shuffled[i];
      assert shuffled[..] == Swap(before, i, j);
      assert ShuffleFrom(shuffled[..], s, i - 1) == ShuffleFrom(before, s0, i);
      i := i - 1;
    }
    r := shuffled[..SliceEnd(shuffled.Length, count)];
  }

  // ---------------------------------------------------------------------------
  // Cycle seeds and expiry

  /** `getDailySeed(now)`: the number of whole days since the epoch. */
  function DailySeed(now: nat): (d: nat)
    ensures d * DayMs <= now < (d + 1) * DayMs
  {
    now / DayMs
  }

  /** `getWeeklySeed(now)`: the number of whole weeks since the epoch. */
  function WeeklySeed(now: nat): (w: nat)
    ensures w * WeekMs <= now < (w + 1) * WeekMs
  {
    now / WeekMs
  }

  /** `isDailyExpired(lastDailySeed, now)` */
  predicate IsDailyExpired(lastDailySeed: int, now: nat)
  {
    DailySeed(now) != lastDailySeed
  }

  /** `isWeeklyExpired(lastWeeklySeed, now)` */
  predicate IsWeeklyExpired(lastWeeklySeed: int, now: nat)
  {
    WeeklySeed(now) != lastWeeklySeed
  }

  /** `isMonthlyExpired(lastMonthlySeed)` with the current month seed supplied. */
  predicate IsMonthlyExpired(lastMonthlySeed: int, monthSeed: int)
  {
    monthSeed != lastMonthlySeed
  }

  /** Multiplying by a non-negative unit keeps the order. */
  lemma MulLe(a: int, b: int, unit: nat)
    requires a <= b
    ensures a * unit <= b * unit
  {
    assert b * unit - a * unit == (b - a) * unit;
  }

  /** A multiple-of-`unit` window containing `now` is exactly one index. */
  lemma WindowUnique(now: nat, unit: nat, q: int, d: int)
    requires unit > 0
    requires q * unit <= now < (q + 1) * unit
    ensures d == q <==> d * unit <= now < (d + 1) * unit
  {
    if d < q {
      MulLe(d + 1, q, unit);
    }
    if q < d {
      MulLe(q + 1, d, unit);
    }
  }

  /**
   * The daily tasks expire exactly when `now` has left the day the stored
   * seed names, and the weekly tasks exactly when it has left that week.
   */
  lemma ExpiryMeaning(lastSeed: int, now: nat)
    ensures !IsDailyExpired(lastSeed, now) <==> lastSeed * DayMs <= now < (lastSeed + 1) * DayMs
    ensures !IsWeeklyExpired(lastSeed, now) <==> lastSeed * WeekMs <= now < (lastSeed + 1) * WeekMs
  {
    WindowUnique(now, DayMs, DailySeed(now), lastSeed);
    WindowUnique(now, WeekMs, WeeklySeed(now), lastSeed);
  }

  // ---------------------------------------------------------------------------
  // getActive*Tasks

  /** `getActiveDailyTasks(now)` */
  function ActiveDailyTasks(now: nat): seq<Task>
  {
    Selection(DailyTasks, DailyTaskCount, DailySeed(now))
  }

  /** `getActiveWeeklyTasks(now)` */
  function ActiveWeeklyTasks(now: nat): seq<Task>
  {
    Selection(WeeklyTasks, WeeklyTaskCount, WeeklySeed(now))
  }

  /** `getActiveMonthlyTasks()` for the month seed `year * 100 + month` of the local calendar. */
  function ActiveMonthlyTasks(monthSeed: nat): seq<Task>
  {
    Selection(MonthlyTasks, MonthlyTaskCount, monthSeed)
  }

  lemma PoolsHaveDistinctIds()
    ensures DistinctIds(DailyTasks) && DistinctIds(WeeklyTasks) && DistinctIds(MonthlyTasks)
  {
  }

  /** Distinct ids make distinct tasks. */
  lemma DistinctIdsDistinct(pool: seq<Task>)
    requires DistinctIds(pool)
    ensures Distinct(pool)
  {
  }

  /** Distinct tasks drawn from a pool with distinct ids have distinct ids. */
  lemma DistinctFromPool(pool: seq<Task>, r: seq<Task>)
    requires DistinctIds(pool) && Distinct(r) && forall x :: x in r ==> x in pool
    ensures DistinctIds(r)
  {
    forall i, j | 0 <= i < j < |r| ensures r[i].id != r[j].id {
      assert r[i] in pool && r[j] in pool;
      var a :| 0 <= a < |pool| && pool[a] == r[i];
      var b :| 0 <= b < |pool| && pool[b] == r[j];
      if a < b {
        assert pool[a].id != pool[b].id;
      } else if b < a {
        assert pool[b].id != pool[a].id;
      }
    }
  }

  /** A cycle's active tasks: `count` tasks of the pool with pairwise different ids. */
  lemma ActiveFromPool(pool: seq<Task>, count: nat, seed: nat)
    requires DistinctIds(pool) && count <= |pool|
    ensures var r := Selection(pool, count, seed);
      |r| == count && DistinctIds(r) && forall x :: x in r ==> x in pool
  {
    SelectionSound(pool, count, seed);
    DistinctIdsDistinct(pool);
    DistinctFromPool(pool, Selection(pool, count, seed));
  }

  /**
   * Every day has four daily tasks, every week three weekly tasks and every
   * month three monthly tasks, each from its pool and none twice.
   */
  lemma ActiveTasksSound(now: nat, monthSeed: nat)
    ensures |ActiveDailyTasks(now)| == 4 && DistinctIds(ActiveDailyTasks(now))
    ensures forall x :: x in ActiveDailyTasks(now) ==> x in DailyTasks
    ensures |ActiveWeeklyTasks(now)| == 3 && DistinctIds(ActiveWeeklyTasks(now))
    ensures forall x :: x in ActiveWeeklyTasks(now) ==> x in WeeklyTasks
    ensures |ActiveMonthlyTasks(monthSeed)| == 3 && DistinctIds(ActiveMonthlyTasks(monthSeed))
    ensures forall x :: x in ActiveMonthlyTasks(monthSeed) ==> x in MonthlyTasks
  {
    PoolsHaveDistinctIds();
    ActiveFromPool(DailyTasks, 4, DailySeed(now));
    ActiveFromPool(WeeklyTasks, 3, WeeklySeed(now));
    ActiveFromPool(MonthlyTasks, 3, monthSeed);
  }

  // ---------------------------------------------------------------------------
  // createInitialTaskProgress(), createInitialStats()

  /** The journal's progress record: counts per task id, claimed ids, and the seeds of the current cycles. */
  datatype TaskProgress = TaskProgress(
    dailyProgress: map<string, int>, weeklyProgress: map<string, int>, monthlyProgress: map<string, int>,
    dailyClaimed: seq<string>, weeklyClaimed: seq<string>, monthlyClaimed: seq<string>, storyClaimed: seq<string>,
    lastDailySeed: int, lastWeeklySeed: int, lastMonthlySeed: int)

  /**
   * `createInitialTaskProgress()` at clock `now` in month `monthSeed`:
   * nothing counted or claimed yet, and no cycle expired at that instant.
   */
  function InitialTaskProgress(now: nat, monthSeed: nat): (p: TaskProgress)
    ensures p.dailyProgress == map[] && p.weeklyProgress == map[] && p.monthlyProgress == map[]
    ensures p.dailyClaimed == [] && p.weeklyClaimed == [] && p.monthlyClaimed == [] && p.storyClaimed == []
    ensures !IsDailyExpired(p.lastDailySeed, now) && !IsWeeklyExpired(p.lastWeeklySeed, now)
    ensures !IsMonthlyExpired(p.lastMonthlySeed, monthSeed)
  {
    TaskProgress(map[], map[], map[], [], [], [], [], DailySeed(now), WeeklySeed(now), monthSeed)
  }

  const StatKeys: seq<string> := [
    "monstersKilled", "bossesKilled", "battlesWon", "battlesLost", "battlesRun",
    "damageDealt", "damageTaken", "goldEarned", "goldSpent", "itemsLooted",
    "itemsSold", "potionsUsed", "explorationsCompleted", "skillsUnlocked", "levelsGained",
    "highestDamage", "totalHealing"]

  /** `createInitialStats()`: every counter of the seventeen at zero. */
  function InitialStats(): (stats: map<string, int>)
    ensures stats.Keys == set k | k in StatKeys
    ensures forall k :: k in stats ==> stats[k] == 0
  {
    map k | k in StatKeys :: 0
  }
}
