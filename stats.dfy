/** The history screen (app/stats/page.tsx): the stored swipe statistics and
    shortlist narrowed to a period, and the counts shown for them. The clock
    reading `now` is an input, in milliseconds. */
module Stats {
  import opened Common
  import opened Records

  datatype Period = Today | Week | Month | AllTime

  const DayMs: nat := 24 * 60 * 60 * 1000

  /** The length in days of a bounded period. */
  function WindowDays(p: Period): (days: nat)
    requires p != AllTime
    ensures p == Today ==> days == 1
    ensures p == Week ==> days == 7
    ensures p == Month ==> days == 30
  {
    match p
    case Today => 1
    case Week => 7
    case Month => 30
  }

  /** The first instant a period covers, for a bounded period. */
  function WindowStart(p: Period, now: int): int
    requires p != AllTime
  {
    now - WindowDays(p) * DayMs
  }

  /** `getFilteredStats`: every statistic for "all"; otherwise exactly those
      from the start of the period on, in their stored order. */
  function FilteredStats(stats: seq<SwipeStat>, p: Period, now: int): (r: seq<SwipeStat>)
    ensures p == AllTime ==> r == stats
    ensures p != AllTime ==> forall s :: s in r <==> s in stats && s.timestamp >= WindowStart(p, now)
    ensures p != AllTime ==>
              forall s :: multiset(r)[s] == (if s.timestamp >= WindowStart(p, now) then multiset(stats)[s] else 0)
    ensures p != AllTime ==> IsSubseq(r, stats)
  {
    if p == AllTime then stats
    else
      var start := WindowStart(p, now);
      FilterCounts(stats, (s: SwipeStat) => s.timestamp >= start);
      Filter(stats, (s: SwipeStat) => s.timestamp >= start)
  }

  /** A longer period keeps every statistic a shorter one keeps. */
  lemma WindowsNest(stats: seq<SwipeStat>, now: int)
    ensures forall s :: s in FilteredStats(stats, Today, now) ==> s in FilteredStats(stats, Week, now)
    ensures forall s :: s in FilteredStats(stats, Week, now) ==> s in FilteredStats(stats, Month, now)
    ensures forall s :: s in FilteredStats(stats, Month, now) ==> s in FilteredStats(stats, AllTime, now)
  {
  }

  /** The start of the period for the shortlist: 0 for "all". */
  function SelectedStart(p: Period, now: int): int
  {
    if p == AllTime then 0 else WindowStart(p, now)
  }

  /** `filteredSelected`: the shortlist entries chosen from the start of the
      period on; for "all" those chosen at time 0 or later. */
  function FilteredSelected(list: seq<SelectedMovie>, p: Period, now: int): (r: seq<SelectedMovie>)
    ensures forall m :: m in r <==> m in list && m.selectedAt >= SelectedStart(p, now)
    ensures forall m :: multiset(r)[m] == if m.selectedAt >= SelectedStart(p, now) then multiset(list)[m] else 0
    ensures IsSubseq(r, list)
  {
    var start := SelectedStart(p, now);
    FilterCounts(list, (m: SelectedMovie) => m.selectedAt >= start);
    Filter(list, (m: SelectedMovie) => m.selectedAt >= start)
  }

  /** How many statistics have direction `d`: none exactly when no statistic
      has it, all exactly when every one has it. */
  function DirectionCount(stats: seq<SwipeStat>, d: Direction): (c: nat)
    ensures c <= |stats|
    ensures c == 0 <==> forall s :: s in stats ==> s.direction != d
    ensures c == |stats| <==> forall s :: s in stats ==> s.direction == d
  {
    var r := Filter(stats, (s: SwipeStat) => s.direction == d);
    assert r != [] ==> r[0] in r;
    FilterAllIffFull(stats, (s: SwipeStat) => s.direction == d);
    |r|
  }

  lemma DirectionCountHead(stats: seq<SwipeStat>, d: Direction)
    requires stats != []
    ensures DirectionCount(stats, d) == (if stats[0].direction == d then 1 else 0) + DirectionCount(stats[1..], d)
  {
    FilterHead(stats, (s: SwipeStat) => s.direction == d);
  }

  /** Every statistic has exactly one of the four directions. */
  lemma {:induction false} DirectionsPartition(stats: seq<SwipeStat>)
    ensures DirectionCount(stats, Left) + DirectionCount(stats, Right) + DirectionCount(stats, Down) +
            DirectionCount(stats, Up) == |stats|
  {
    if stats != [] {
      DirectionsPartition(stats[1..]);
      DirectionCountHead(stats, Left);
      DirectionCountHead(stats, Right);
      DirectionCountHead(stats, Down);
      DirectionCountHead(stats, Up);
    }
  }

  /** How many shortlist entries have disposition `a`: none exactly when no
      entry has it, all exactly when every one has it. */
  function ActionCount(list: seq<SelectedMovie>, a: Action): (c: nat)
    ensures c <= |list|
    ensures c == 0 <==> forall m :: m in list ==> m.action != a
    ensures c == |list| <==> forall m :: m in list ==> m.action == a
  {
    var r := Filter(list, (m: SelectedMovie) => m.action == a);
    assert r != [] ==> r[0] in r;
    FilterAllIffFull(list, (m: SelectedMovie) => m.action == a);
    |r|
  }

  /** Every shortlist entry is either "watch now" or "watch later". */
  lemma ActionsPartition(list: seq<SelectedMovie>)
    ensures ActionCount(list, WatchNow) + ActionCount(list, WatchLater) == |list|
  {
    FilterPartition(list, (m: SelectedMovie) => m.action == WatchNow, (m: SelectedMovie) => m.action == WatchLater);
  }

  /** The share of right swipes as a percentage, 0 when there are none. */
  function SwipeRatio(right: nat, total: nat): (r: real)
    requires right <= total
    ensures 0.0 <= r <= 100.0
    ensures total == 0 ==> r == 0.0
    ensures total > 0 && right == total ==> r == 100.0
    ensures total > 0 ==> r * total as real == right as real * 100.0
  {
    if total > 0 then (right as real / total as real) * 100.0 else 0.0
  }

  /** The figures the screen shows. */
  datatype Summary = Summary(
    total: nat, left: nat, right: nat, down: nat,
    totalSelected: nat, watchNow: nat, watchLater: nat,
    ratio: real)

  /** The figures for a period. Up swipes have no figure of their own, so
      the three shown directions may add up to less than the total; the two
      dispositions always add up to the shortlist's size. */
  function Summarize(stats: seq<SwipeStat>, selected: seq<SelectedMovie>, p: Period, now: int): (s: Summary)
    ensures s.total == |FilteredStats(stats, p, now)| && s.totalSelected == |FilteredSelected(selected, p, now)|
    ensures s.left == DirectionCount(FilteredStats(stats, p, now), Left)
    ensures s.right == DirectionCount(FilteredStats(stats, p, now), Right)
    ensures s.down == DirectionCount(FilteredStats(stats, p, now), Down)
    ensures s.watchNow == ActionCount(FilteredSelected(selected, p, now), WatchNow)
    ensures s.watchLater == ActionCount(FilteredSelected(selected, p, now), WatchLater)
    ensures s.ratio == SwipeRatio(s.right, s.total)
    ensures s.left + s.right + s.down <= s.total
    ensures s.left + s.right + s.down + DirectionCount(FilteredStats(stats, p, now), Up) == s.total
    ensures s.watchNow + s.watchLater == s.totalSelected
    ensures 0.0 <= s.ratio <= 100.0 && (s.total == 0 ==> s.ratio == 0.0)
  {
    var fs := FilteredStats(stats, p, now);
    var fsel := FilteredSelected(selected, p, now);
    DirectionsPartition(fs);
    ActionsPartition(fsel);
    var right := DirectionCount(fs, Right);
    Summary(|fs|, DirectionCount(fs, Left), right, DirectionCount(fs, Down),
            |fsel|, ActionCount(fsel, WatchNow), ActionCount(fsel, WatchLater),
            SwipeRatio(right, |fs|))
  }
}
