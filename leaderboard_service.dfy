/** The trader leaderboard service of src/services/LeaderboardService.ts:
    the store query is still a stub returning no rows, the mapping from
    stored rows to LeaderboardEntry values assigns ranks and win rates, and
    the mock generator builds ranked entries with random figures.  Each
    `Math.random()` the source draws is a parameter. */
module LeaderboardService {
  import opened Wrappers
  import opened Text
  import opened LeaderboardTemplate

  /** A stored row (its lastUpdated timestamp is not read by the service). */
  datatype LeaderboardData = LeaderboardData(id: string, address: string, displayName: Option<string>, pnl: real,
                                             trades: int, wins: int, losses: int, volume: real)

  datatype OrderDirection = Asc | Desc

  /** fetchLeaderboardData: no store is connected, so there are no rows. */
  function FetchLeaderboardData(direction: OrderDirection, limit: int): seq<LeaderboardData> {
    []
  }

  /** `trades > 0 ? wins / trades * 100 : 0` */
  function WinRate(wins: int, trades: int): real {
    if trades > 0 then (wins as real / trades as real) * 100.0 else 0.0
  }

  /** The win rate is 0 without trades and a percentage when the wins are
      among the trades. */
  lemma WinRateBounds(wins: int, trades: int)
    ensures trades <= 0 ==> WinRate(wins, trades) == 0.0
    ensures 0 <= wins <= trades ==> 0.0 <= WinRate(wins, trades) <= 100.0
    ensures trades > 0 ==> WinRate(wins, trades) * trades as real == wins as real * 100.0
  {
    if trades > 0 {
      var q := wins as real / trades as real;
      assert q * trades as real == wins as real;
      if 0 <= wins <= trades {
        assert q <= 1.0 by {
          assert q * trades as real <= trades as real;
        }
      }
    }
  }

  function EntryOf(item: LeaderboardData, index: nat): LeaderboardEntry {
    LeaderboardEntry(index + 1, item.address, item.displayName, item.pnl, item.trades,
                     Some(WinRate(item.wins, item.trades)), Some(item.volume))
  }

  /** `data.map((item, index) => ...)` */
  function MapToLeaderboardEntries(data: seq<LeaderboardData>): seq<LeaderboardEntry> {
    seq(|data|, i requires 0 <= i < |data| => EntryOf(data[i], i))
  }

  /** The mapping keeps length and order, ranks by position from 1, copies
      the row's figures and computes the win rate. */
  lemma MapToLeaderboardEntriesShape(data: seq<LeaderboardData>)
    ensures var r := MapToLeaderboardEntries(data);
      && |r| == |data|
      && forall i :: 0 <= i < |data| ==>
        && r[i].rank == i + 1
        && r[i].address == data[i].address && r[i].displayName == data[i].displayName
        && r[i].pnl == data[i].pnl && r[i].trades == data[i].trades && r[i].volume == Some(data[i].volume)
        && r[i].winRate == Some(WinRate(data[i].wins, data[i].trades))
  {
  }

  /** The ranks are exactly 1..n in order. */
  lemma MapToLeaderboardEntriesRanks(data: seq<LeaderboardData>, i: nat, j: nat)
    requires i < j < |data|
    ensures var r := MapToLeaderboardEntries(data);
      r[i].rank < r[j].rank && r[0].rank == 1 && r[|r| - 1].rank == |data|
  {
  }

  function GetTopTraders(limit: int): seq<LeaderboardEntry> {
    MapToLeaderboardEntries(FetchLeaderboardData(Desc, limit))
  }

  function GetBottomTraders(limit: int): seq<LeaderboardEntry> {
    MapToLeaderboardEntries(FetchLeaderboardData(Asc, limit))
  }

  /** The date is not used yet. */
  function GetDailyLeaderboard(date: int, limit: int): seq<LeaderboardEntry> {
    MapToLeaderboardEntries(FetchLeaderboardData(Desc, limit))
  }

  /** The date range is not used yet. */
  function GetWeeklyLeaderboard(startDate: int, endDate: int, limit: int): seq<LeaderboardEntry> {
    MapToLeaderboardEntries(FetchLeaderboardData(Desc, limit))
  }

  /** With the stub store, every query returns no entries. */
  lemma QueriesEmpty(limit: int, date: int, endDate: int)
    ensures GetTopTraders(limit) == [] && GetBottomTraders(limit) == []
    ensures GetDailyLeaderboard(date, limit) == [] && GetWeeklyLeaderboard(date, endDate, limit) == []
  {
  }

  // ==================== MOCK DATA ====================

  /** `Partial<LeaderboardEntry>`: the fields present in the overrides. */
  datatype Overrides = Overrides(rank: Option<int>, address: Option<string>, displayName: Option<string>,
                                 pnl: Option<real>, trades: Option<int>, winRate: Option<real>, volume: Option<real>)

  const NoOverrides: Overrides := Overrides(None, None, None, None, None, None, None)

  /** The four `Math.random()` draws of createMockEntry, in call order. */
  datatype MockDraws = MockDraws(pnl: real, trades: real, winRate: real, volume: real)

  predicate UnitInterval(x: real) {
    0.0 <= x < 1.0
  }

  /** `` `0x${rank.toString().padStart(40, '0')}` `` */
  function MockAddress(rank: int): string {
    "0x" + PadStart(IntToString(rank), 40, '0')
  }

  /** Left-padding digits with '0' to 40 characters keeps their value. */
  lemma PaddedDigits(digits: string)
    requires forall i :: 0 <= i < |digits| ==> IsDigit(digits[i])
    ensures var p := PadStart(digits, 40, '0');
      (forall i :: 0 <= i < |p| ==> IsDigit(p[i])) && DecimalValue(p) == DecimalValue(digits)
  {
    LeadingZeros(if |digits| >= 40 then 0 else 40 - |digits|, digits);
  }

  /** For a non-negative rank the address is '0x' and at least 40 decimal
      digits that read back as the rank. */
  lemma MockAddressShape(rank: nat)
    ensures var a := MockAddress(rank);
      && a[..2] == "0x" && |a| >= 42
      && (forall i :: 2 <= i < |a| ==> IsDigit(a[i]))
      && DecimalValue(a[2..]) == rank
  {
    var digits := NatToString(rank);
    assert IntToString(rank) == digits;
    PaddedDigits(digits);
    var p := PadStart(digits, 40, '0');
    assert MockAddress(rank)[2..] == p;
  }

  /** createMockEntry: the mock figures, then whatever the overrides set. */
  function CreateMockEntry(rank: int, overrides: Overrides, draws: MockDraws): LeaderboardEntry {
    LeaderboardEntry(
      overrides.rank.GetOr(rank),
      overrides.address.GetOr(MockAddress(rank)),
      overrides.displayName,
      overrides.pnl.GetOr(draws.pnl * 100000.0 - 50000.0),
      overrides.trades.GetOr((draws.trades * 1000.0).Floor),
      Some(overrides.winRate.GetOr(draws.winRate * 100.0)),
      Some(overrides.volume.GetOr(draws.volume * 1000000.0)))
  }

  /** Without overrides the figures lie in the ranges the draws give. */
  lemma MockEntryRanges(rank: int, draws: MockDraws)
    requires UnitInterval(draws.pnl) && UnitInterval(draws.trades) && UnitInterval(draws.winRate)
    requires UnitInterval(draws.volume)
    ensures var e := CreateMockEntry(rank, NoOverrides, draws);
      && e.rank == rank && e.address == MockAddress(rank) && e.displayName == None
      && -50000.0 <= e.pnl < 50000.0 && 0 <= e.trades < 1000
      && 0.0 <= e.winRate.value < 100.0 && 0.0 <= e.volume.value < 1000000.0
  {
    var t := draws.trades * 1000.0;
    assert 0.0 <= t < 1000.0;
    assert t.Floor as real <= t < t.Floor as real + 1.0;
  }

  /** The overrides replace exactly the fields they set. */
  lemma MockEntryOverrides(rank: int, overrides: Overrides, draws: MockDraws)
    ensures var e := CreateMockEntry(rank, overrides, draws);
      && (overrides.rank.Some? ==> e.rank == overrides.rank.value)
      && (overrides.address.Some? ==> e.address == overrides.address.value)
      && (overrides.pnl.Some? ==> e.pnl == overrides.pnl.value)
      && (overrides.trades.Some? ==> e.trades == overrides.trades.value)
      && (overrides.winRate.Some? ==> e.winRate == overrides.winRate)
      && (overrides.volume.Some? ==> e.volume == overrides.volume)
      && (overrides.pnl.None? ==> e.pnl == draws.pnl * 100000.0 - 50000.0)
      && (overrides.address.None? ==> e.address == MockAddress(rank))
  {
  }

  /** `isTop ? Math.random() * 100000 + 10000 : -(Math.random() * 100000 + 10000)` */
  function MockPnl(isTop: bool, draw: real): real {
    if isTop then draw * 100000.0 + 10000.0 else -(draw * 100000.0 + 10000.0)
  }

  /** Entry i (0-based) of the mock board. */
  function MockEntryAt(isTop: bool, pnlDraws: seq<real>, entryDraws: seq<MockDraws>, i: nat): LeaderboardEntry
    requires i < |pnlDraws| && i < |entryDraws|
  {
    CreateMockEntry(i + 1, NoOverrides.(pnl := Some(MockPnl(isTop, pnlDraws[i]))), entryDraws[i])
  }

  /** The mock board of `count` entries (none for count <= 0). */
  function MockLeaderboard(count: int, isTop: bool, pnlDraws: seq<real>, entryDraws: seq<MockDraws>)
    : seq<LeaderboardEntry>
    requires count <= |pnlDraws| && count <= |entryDraws|
  {
    seq(if count < 0 then 0 else count, i requires 0 <= i < count => MockEntryAt(isTop, pnlDraws, entryDraws, i))
  }

  /** getMockLeaderboard returns max(count, 0) entries ranked 1..count, with
      pnl in [10000, 110000) for the top board and in (-110000, -10000] for
      the bottom board. */
  lemma MockLeaderboardShape(count: int, isTop: bool, pnlDraws: seq<real>, entryDraws: seq<MockDraws>, i: nat)
    requires count <= |pnlDraws| && count <= |entryDraws|
    requires forall k :: 0 <= k < |pnlDraws| ==> UnitInterval(pnlDraws[k])
    ensures var r := MockLeaderboard(count, isTop, pnlDraws, entryDraws);
      && |r| == (if count < 0 then 0 else count)
      && (i < |r| ==> r[i].rank == i + 1 && r[i].address == MockAddress(i + 1))
      && (i < |r| && isTop ==> 10000.0 <= r[i].pnl < 110000.0)
      && (i < |r| && !isTop ==> -110000.0 < r[i].pnl <= -10000.0)
  {
    var r := MockLeaderboard(count, isTop, pnlDraws, entryDraws);
    if i < |r| {
      assert r[i] == MockEntryAt(isTop, pnlDraws, entryDraws, i);
      assert UnitInterval(pnlDraws[i]);
    }
  }

  /** getMockLeaderboard: the `for (let i = 1; i <= count; i++)` loop. */
  method GetMockLeaderboard(count: int, isTop: bool, pnlDraws: seq<real>, entryDraws: seq<MockDraws>)
    returns (entries: seq<LeaderboardEntry>)
    requires count <= |pnlDraws| && count <= |entryDraws|
    ensures entries == MockLeaderboard(count, isTop, pnlDraws, entryDraws)
  {
    entries := [];
    var i := 1;
    while i <= count
      invariant 1 <= i <= (if count < 0 then 1 else count + 1) && |entries| == i - 1
      invariant forall k :: 0 <= k < i - 1 ==> entries[k] == MockEntryAt(isTop, pnlDraws, entryDraws, k)
    {
      var pnl := MockPnl(isTop, pnlDraws[i - 1]);
      entries := entries + [CreateMockEntry(i, NoOverrides.(pnl := Some(pnl)), entryDraws[i - 1])];
      i := i + 1;
    }
  }
}
