/** `backend/routers/stats.py`: dashboard counts over the bin and alert
    tables, and per-status and per-type counters. */
module StatsRouter {
  import opened Common
  import opened Store

  /** A counter dictionary as (key, count) pairs in first-seen order. */
  type Counter = seq<(string, nat)>

  function CounterKey(e: (string, nat)): string { e.0 }

  /** The count stored for `x`, 0 when absent. */
  function CountOf(c: Counter, x: string): nat {
    match IndexOf(c, CounterKey, x)
    case None => 0
    case Some(i) => c[i].1
  }

  function Total(c: Counter): nat {
    if c == [] then 0 else Total(c[..|c| - 1]) + c[|c| - 1].1
  }

  /** One loop step: `if key not in d: d[key] = 0` then `d[key] += 1`. */
  function Bump(c: Counter, key: string): Counter {
    match IndexOf(c, CounterKey, key)
    case None => c + [(key, 1)]
    case Some(i) => c[i := (key, c[i].1 + 1)]
  }

  /** The counters after counting `keys` in order. */
  function Tally(keys: seq<string>): Counter {
    if keys == [] then [] else Bump(Tally(keys[..|keys| - 1]), keys[|keys| - 1])
  }

  lemma {:induction false} TotalUpdate(c: Counter, i: nat, e: (string, nat))
    requires i < |c|
    ensures Total(c[i := e]) + c[i].1 == Total(c) + e.1
    decreases |c|
  {
    var n := |c| - 1;
    assert c[i := e][..n] == if i < n then c[..n][i := e] else c[..n];
    if i < n {
      TotalUpdate(c[..n], i, e);
    }
  }

  /** A key found nowhere in a counter is not found after a bump of another key. */
  lemma AbsentAfterBump(c: Counter, key: string, x: string)
    requires UniqueKeys(c, CounterKey)
    requires x != key && IndexOf(c, CounterKey, x).None?
    ensures IndexOf(Bump(c, key), CounterKey, x).None?
  {
  }

  /** Bumping a key not yet counted appends it with count 1. */
  lemma BumpNew(c: Counter, key: string, x: string)
    requires UniqueKeys(c, CounterKey)
    requires IndexOf(c, CounterKey, key).None?
    ensures UniqueKeys(Bump(c, key), CounterKey)
    ensures CountOf(Bump(c, key), x) == CountOf(c, x) + (if x == key then 1 else 0)
  {
    var b := Bump(c, key);
    UniqueAppend(c, CounterKey, (key, 1));
    IndexOfUnique(b, CounterKey, |c|);
    if x != key {
      match IndexOf(c, CounterKey, x)
      case None => AbsentAfterBump(c, key, x);
      case Some(j) =>
        assert b[j] == c[j];
        IndexOfUnique(b, CounterKey, j);
    }
  }

  /** Bumping a counted key adds one to its count in place. */
  lemma BumpExisting(c: Counter, key: string, x: string, i: nat)
    requires UniqueKeys(c, CounterKey)
    requires IndexOf(c, CounterKey, key) == Some(i)
    ensures UniqueKeys(Bump(c, key), CounterKey)
    ensures CountOf(Bump(c, key), x) == CountOf(c, x) + (if x == key then 1 else 0)
  {
    var b := Bump(c, key);
    UniqueReplace(c, CounterKey, i, (key, c[i].1 + 1));
    IndexOfUnique(b, CounterKey, i);
    if x != key {
      match IndexOf(c, CounterKey, x)
      case None => AbsentAfterBump(c, key, x);
      case Some(j) => IndexOfUnique(b, CounterKey, j);
    }
  }

  /** A bump adds one to the bumped key's count and changes no other count. */
  lemma BumpCounts(c: Counter, key: string, x: string)
    requires UniqueKeys(c, CounterKey)
    ensures UniqueKeys(Bump(c, key), CounterKey)
    ensures CountOf(Bump(c, key), x) == CountOf(c, x) + (if x == key then 1 else 0)
    ensures Total(Bump(c, key)) == Total(c) + 1
  {
    match IndexOf(c, CounterKey, key)
    case None =>
      BumpNew(c, key, x);
      assert (c + [(key, 1)])[..|c|] == c;
    case Some(i) =>
      BumpExisting(c, key, x, i);
      TotalUpdate(c, i, (key, c[i].1 + 1));
  }

  /** Counting a sequence of keys gives each key its number of occurrences,
      each key once, and counts that add up to the length. */
  lemma {:induction false} TallyCounts(keys: seq<string>, x: string)
    ensures UniqueKeys(Tally(keys), CounterKey)
    ensures CountOf(Tally(keys), x) == Occurrences(keys, x)
    ensures Total(Tally(keys)) == |keys|
    decreases |keys|
  {
    if keys != [] {
      var init := keys[..|keys| - 1];
      TallyCounts(init, x);
      BumpCounts(Tally(init), keys[|keys| - 1], x);
    }
  }

  /** The counting loop of `get_bin_stats` and `get_alert_stats`. */
  method CountBy(keys: seq<string>) returns (counts: Counter)
    ensures counts == Tally(keys)
  {
    counts := [];
    for k := 0 to |keys|
      invariant counts == Tally(keys[..k])
    {
      var key := keys[k];
      var found := IndexOf(counts, CounterKey, key);
      if found.None? {
        counts := counts + [(key, 0)];
        found := Some(|counts| - 1);
      }
      counts := counts[found.value := (key, counts[found.value].1 + 1)];
      assert keys[..k + 1][..k] == keys[..k];
    }
    assert keys[..|keys|] == keys;
  }

  function Statuses(bins: seq<BinRow>): (r: seq<string>)
    ensures |r| == |bins| && forall k :: 0 <= k < |bins| ==> r[k] == bins[k].status
  {
    seq(|bins|, k requires 0 <= k < |bins| => bins[k].status)
  }

  function AlertTypes(alerts: seq<AlertRow>): (r: seq<string>)
    ensures |r| == |alerts| && forall k :: 0 <= k < |alerts| ==> r[k] == alerts[k].alertType
  {
    seq(|alerts|, k requires 0 <= k < |alerts| => alerts[k].alertType)
  }

  datatype Breakdown = Breakdown(counts: Counter, total: nat)

  /** `get_bin_stats`: how many bins carry each status, and how many bins. */
  method GetBinStats(bins: seq<BinRow>) returns (r: Breakdown)
    ensures r.counts == Tally(Statuses(bins)) && r.total == |bins|
  {
    var counts := CountBy(Statuses(bins));
    r := Breakdown(counts, |bins|);
  }

  /** `get_alert_stats`: how many alerts carry each type, and how many alerts. */
  method GetAlertStats(alerts: seq<AlertRow>) returns (r: Breakdown)
    ensures r.counts == Tally(AlertTypes(alerts)) && r.total == |alerts|
  {
    var counts := CountBy(AlertTypes(alerts));
    r := Breakdown(counts, |alerts|);
  }

  /** Either breakdown's counters add up to its total. */
  lemma BreakdownSumsToTotal(bins: seq<BinRow>, alerts: seq<AlertRow>)
    ensures Total(Tally(Statuses(bins))) == |bins|
    ensures Total(Tally(AlertTypes(alerts))) == |alerts|
  {
    TallyCounts(Statuses(bins), "");
    TallyCounts(AlertTypes(alerts), "");
  }

  /** Bins whose status is exactly `status`. */
  function CountStatus(bins: seq<BinRow>, status: string): nat {
    if bins == [] then 0 else CountStatus(bins[..|bins| - 1], status) + (if bins[|bins| - 1].status == status then 1 else 0)
  }

  /** Bins whose status is anything but "offline". */
  function CountOnline(bins: seq<BinRow>): nat {
    if bins == [] then 0 else CountOnline(bins[..|bins| - 1]) + (if bins[|bins| - 1].status != "offline" then 1 else 0)
  }

  /** A full bin is online, and no more bins are online than exist. */
  lemma {:induction false} FullAreOnline(bins: seq<BinRow>)
    ensures CountStatus(bins, "full") <= CountOnline(bins) <= |bins|
    decreases |bins|
  {
    if bins != [] {
      FullAreOnline(bins[..|bins| - 1]);
    }
  }

  function FillLevels(bins: seq<BinRow>): (r: seq<int>)
    ensures |r| == |bins| && forall k :: 0 <= k < |bins| ==> r[k] == bins[k].fillLevelPercent
  {
    seq(|bins|, k requires 0 <= k < |bins| => bins[k].fillLevelPercent)
  }

  /** SQL `avg` over the fill levels, reported as 0 when there are no bins. */
  function AverageFill(bins: seq<BinRow>): real {
    if bins == [] then 0.0 else SumInt(FillLevels(bins)) as real / |bins| as real
  }

  lemma {:induction false} SumIntPercentBounds(xs: seq<int>)
    requires forall k :: 0 <= k < |xs| ==> 0 <= xs[k] <= 100
    ensures 0 <= SumInt(xs) <= 100 * |xs|
    decreases |xs|
  {
    if xs != [] {
      SumIntPercentBounds(xs[..|xs| - 1]);
    }
  }

  /** Fill levels within 0..100 average within 0..100. */
  lemma AverageFillInRange(bins: seq<BinRow>)
    requires forall k :: 0 <= k < |bins| ==> 0 <= bins[k].fillLevelPercent <= 100
    ensures 0.0 <= AverageFill(bins) <= 100.0
  {
    if bins != [] {
      var n := |bins| as real;
      SumIntPercentBounds(FillLevels(bins));
      assert SumInt(FillLevels(bins)) as real <= 100.0 * n;
    }
  }

  /** Every bin is either online or has the status "offline". */
  lemma {:induction false} OfflineComplement(bins: seq<BinRow>)
    ensures CountOnline(bins) + CountStatus(bins, "offline") == |bins|
    decreases |bins|
  {
    if bins != [] {
      OfflineComplement(bins[..|bins| - 1]);
    }
  }

  datatype DashboardStats = DashboardStats(
    totalBins: nat,
    binsOnline: nat,
    binsFull: nat,
    activeAlerts: nat,
    averageFillLevel: real,
    binsOffline: int)

  /** `get_dashboard_stats`: every stored alert counts as active, and the
      offline count is whatever is not online (maintenance counts as online). */
  function GetDashboardStats(bins: seq<BinRow>, alerts: seq<AlertRow>): (s: DashboardStats)
    ensures s.binsOnline + s.binsOffline == s.totalBins == |bins|
    ensures 0 <= s.binsOffline && s.binsFull <= s.binsOnline
    ensures s.activeAlerts == |alerts|
    ensures s.binsOnline == CountOnline(bins) && s.binsFull == CountStatus(bins, "full")
    ensures s.binsOffline == CountStatus(bins, "offline")
    ensures s.averageFillLevel == AverageFill(bins)
  {
    FullAreOnline(bins);
    OfflineComplement(bins);
    var total := |bins|;
    var online := CountOnline(bins);
    DashboardStats(total, online, CountStatus(bins, "full"), |alerts|, AverageFill(bins), total - online)
  }
}
