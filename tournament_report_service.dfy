/** The tournament queries of src/services/TournamentReportService.ts over an
    in-memory copy of the document store.  Each collection is a sequence in
    the store's natural order; timestamps are integer milliseconds since the
    epoch (UTC); scores and prize amounts are integers; the current time is a
    parameter. */
module TournamentReportService {
  import opened Wrappers
  import opened Seqs
  import opened Text

  const MsPerHour: int := 3600000
  const MsPerDay: int := 86400000

  // ==================== DATA ====================

  datatype Status = Upcoming | Active | Ended
  datatype Direction = Up | Down

  datatype Prize = Prize(position: int, patronNFTs: int, clashTokens: int)
  datatype PrizeAward = PrizeAward(patronNFTs: int, clashTokens: int)
  datatype PrizePool = PrizePool(totalClash: int, totalNFTs: int)

  /** A tournament record; the two announcement flags are stored on it. */
  datatype Tournament = Tournament(
    id: string,
    name: string,
    startDate: int,
    endDate: int,
    lockDate: int,
    status: Status,
    weekNumber: Option<int>,
    leagueCategory: string,
    prizes: Option<seq<Prize>>,
    announcedCreation: bool,
    announcedLock: bool)

  datatype TournamentResult = TournamentResult(
    tournamentId: string,
    userId: Option<string>,
    playerName: Option<string>,
    finalRank: int,
    totalParticipants: int,
    finalScore: int,
    prizeAwarded: Option<PrizeAward>)

  /** One participant's score as of one hour boundary. */
  datatype HourlyScore = HourlyScore(tournamentId: string, userId: string, hour: int, score: int)

  datatype Participant = Participant(
    tournamentId: string, userId: string, selectedCrypto: Option<string>, direction: Option<Direction>)

  datatype Player = Player(userId: string, playerName: Option<string>)

  datatype LeaderboardEntry = LeaderboardEntry(
    rank: int,
    userId: string,
    playerName: Option<string>,
    totalScore: int,
    selectedCrypto: Option<string>,
    direction: Option<Direction>)

  /** The collections this service reads. */
  datatype Store = Store(
    tournaments: seq<Tournament>,
    participants: seq<Participant>,
    hourlyScores: seq<HourlyScore>,
    players: seq<Player>,
    results: seq<TournamentResult>)

  // ==================== SIMPLE QUERIES ====================

  /** `findOne({status: 'active'})`: the index of the first active record. */
  function FindActive(ts: seq<Tournament>): (r: Option<nat>)
    ensures r.Some? ==> r.value < |ts| && ts[r.value].status == Active
    ensures r.Some? ==> forall j :: 0 <= j < r.value ==> ts[j].status != Active
    ensures r.None? ==> forall j :: 0 <= j < |ts| ==> ts[j].status != Active
  {
    if ts == [] then None
    else if ts[0].status == Active then Some(0)
    else
      match FindActive(ts[1..])
      case None => None
      case Some(k) => Some(k + 1)
  }

  function GetActiveTournament(ts: seq<Tournament>): Option<Tournament> {
    match FindActive(ts)
    case None => None
    case Some(i) => Some(ts[i])
  }

  function UpcomingRecords(ts: seq<Tournament>): (r: seq<Tournament>)
    ensures forall x :: x in r <==> x in ts && x.status == Upcoming
  {
    var p := (t: Tournament) => t.status == Upcoming;
    FilterMembers(ts, p);
    Filter(ts, p)
  }

  function StartDates(ts: seq<Tournament>): (r: seq<int>)
    ensures |r| == |ts| && forall i :: 0 <= i < |ts| ==> r[i] == ts[i].startDate
  {
    seq(|ts|, i requires 0 <= i < |ts| => ts[i].startDate)
  }

  /** `find({status: 'upcoming'}).sort({startDate: 1})`: exactly the upcoming
      records, each as often as it is stored, earliest start first, ties in
      store order. */
  function GetUpcomingTournaments(ts: seq<Tournament>): (r: seq<Tournament>)
    ensures forall x :: x in r <==> x in ts && x.status == Upcoming
    ensures forall x :: multiset(r)[x] == if x.status == Upcoming then multiset(ts)[x] else 0
    ensures forall i, j :: 0 <= i < j < |r| ==> r[i].startDate <= r[j].startDate
  {
    var up := UpcomingRecords(ts);
    var keys := Negate(StartDates(up));
    var r := TopByKey(up, keys, |up|);
    forall x ensures x in r <==> x in up {
      TopByKeyMembers(up, keys, |up|, x);
    }
    TopByKeyMultiset(up, keys, |up|);
    FilterMultiset(ts, (t: Tournament) => t.status == Upcoming);
    forall i, j | 0 <= i < j < |r| ensures r[i].startDate <= r[j].startDate {
      TopByKeySorted(up, keys, |up|, i, j);
    }
    r
  }

  function ParticipantsOf(ps: seq<Participant>, tid: string): (r: seq<Participant>)
    ensures forall x :: x in r <==> x in ps && x.tournamentId == tid
  {
    var p := (p: Participant) => p.tournamentId == tid;
    FilterMembers(ps, p);
    Filter(ps, p)
  }

  /** `countDocuments({tournamentId})` on the participants. */
  function GetParticipantCount(store: Store, tid: string): nat {
    |ParticipantsOf(store.participants, tid)|
  }

  function ResultsOf(rs: seq<TournamentResult>, tid: string): (r: seq<TournamentResult>)
    ensures forall x :: x in r <==> x in rs && x.tournamentId == tid
  {
    var p := (r: TournamentResult) => r.tournamentId == tid;
    FilterMembers(rs, p);
    Filter(rs, p)
  }

  function FinalRanks(rs: seq<TournamentResult>): (r: seq<int>)
    ensures |r| == |rs| && forall i :: 0 <= i < |rs| ==> r[i] == rs[i].finalRank
  {
    seq(|rs|, i requires 0 <= i < |rs| => rs[i].finalRank)
  }

  /** The number of documents `cursor.limit(limit)` lets through out of m:
      a limit of 0 means no limit, and a negative limit counts as its
      absolute value. */
  function LimitCount(m: nat, limit: int): nat {
    var lim := if limit < 0 then -limit else limit;
    if lim == 0 || m < lim then m else lim
  }

  /** `find({tournamentId}).sort({finalRank: 1}).limit(limit)`: the rows of
      the tournament with the lowest final ranks, lowest first. */
  function GetTournamentResults(store: Store, tid: string, limit: int): (r: seq<TournamentResult>)
    ensures |r| == LimitCount(|ResultsOf(store.results, tid)|, limit)
    ensures forall x :: x in r ==> x in store.results && x.tournamentId == tid
    ensures multiset(r) <= multiset(store.results)
    ensures forall i, j :: 0 <= i < j < |r| ==> r[i].finalRank <= r[j].finalRank
    ensures forall x :: x in store.results && x.tournamentId == tid && x !in r
                        ==> |r| > 0 && r[|r| - 1].finalRank <= x.finalRank
  {
    var all := ResultsOf(store.results, tid);
    SelectionMembers(all, limit);
    SelectionSorted(all, limit);
    SelectionKeepsLowest(all, limit);
    ResultsOfMultiset(store.results, tid);
    LowestRanks(all, limit)
  }

  /** The sort on finalRank followed by the limit. */
  function LowestRanks(all: seq<TournamentResult>, limit: int): (r: seq<TournamentResult>)
    ensures |r| == LimitCount(|all|, limit)
  {
    TopByKey(all, Negate(FinalRanks(all)), LimitCount(|all|, limit))
  }

  lemma SelectionMembers(all: seq<TournamentResult>, limit: int)
    ensures forall x :: x in LowestRanks(all, limit) ==> x in all
    ensures multiset(LowestRanks(all, limit)) <= multiset(all)
  {
    var keys := Negate(FinalRanks(all));
    var n := LimitCount(|all|, limit);
    forall x | x in LowestRanks(all, limit) ensures x in all {
      TopByKeyMembers(all, keys, n, x);
    }
    TopByKeyMultiset(all, keys, n);
  }

  lemma SelectionSorted(all: seq<TournamentResult>, limit: int)
    ensures var r := LowestRanks(all, limit);
      forall i, j :: 0 <= i < j < |r| ==> r[i].finalRank <= r[j].finalRank
  {
    var keys := Negate(FinalRanks(all));
    var n := LimitCount(|all|, limit);
    var r := LowestRanks(all, limit);
    forall i, j | 0 <= i < j < |r| ensures r[i].finalRank <= r[j].finalRank {
      TopByKeySorted(all, keys, n, i, j);
    }
  }

  lemma SelectionKeepsLowest(all: seq<TournamentResult>, limit: int)
    ensures var r := LowestRanks(all, limit);
      forall x :: x in all && x !in r ==> |r| > 0 && r[|r| - 1].finalRank <= x.finalRank
  {
    var keys := Negate(FinalRanks(all));
    var n := LimitCount(|all|, limit);
    var r := LowestRanks(all, limit);
    forall x | x in all && x !in r ensures |r| > 0 && r[|r| - 1].finalRank <= x.finalRank {
      TopByKeyMembers(all, keys, n, x);
      var k :| 0 <= k < |all| && all[k] == x;
      TopByKeyRest(all, keys, n, k);
    }
  }

  /** With no limit, or a limit at least the row count, every row of the
      tournament comes back, each as often as it is stored. */
  lemma ResultsAllKept(store: Store, tid: string, limit: int)
    requires limit == 0 || |ResultsOf(store.results, tid)| <= (if limit < 0 then -limit else limit)
    ensures multiset(GetTournamentResults(store, tid, limit)) == multiset(ResultsOf(store.results, tid))
  {
    var all := ResultsOf(store.results, tid);
    assert LimitCount(|all|, limit) == |all|;
    assert LowestRanks(all, limit) == TopByKey(all, Negate(FinalRanks(all)), |all|);
    TopByKeyMultiset(all, Negate(FinalRanks(all)), |all|);
    assert GetTournamentResults(store, tid, limit) == LowestRanks(all, limit);
  }

  lemma ResultsOfMultiset(rs: seq<TournamentResult>, tid: string)
    ensures multiset(ResultsOf(rs, tid)) <= multiset(rs)
  {
    FilterMultiset(rs, (r: TournamentResult) => r.tournamentId == tid);
  }

  // ==================== RECENTLY FINALIZED ====================

  predicate RecentlyEnded(t: Tournament, now: int) {
    t.status == Ended && t.endDate >= now - MsPerDay
  }

  function EndedSince(ts: seq<Tournament>, now: int): (r: seq<Tournament>)
    ensures forall x :: x in r <==> x in ts && RecentlyEnded(x, now)
  {
    var p := (t: Tournament) => RecentlyEnded(t, now);
    FilterMembers(ts, p);
    Filter(ts, p)
  }

  predicate HasResults(rs: seq<TournamentResult>, tid: string) {
    |ResultsOf(rs, tid)| > 0
  }

  function WithResults(ts: seq<Tournament>, rs: seq<TournamentResult>): (r: seq<Tournament>)
    ensures forall x :: x in r <==> x in ts && HasResults(rs, x.id)
  {
    var p := (t: Tournament) => HasResults(rs, t.id);
    FilterMembers(ts, p);
    Filter(ts, p)
  }

  lemma WithResultsSnoc(ts: seq<Tournament>, t: Tournament, rs: seq<TournamentResult>)
    ensures WithResults(ts + [t], rs) == WithResults(ts, rs) + (if HasResults(rs, t.id) then [t] else [])
  {
    assert (ts + [t])[..|ts|] == ts;
  }

  /** The specification of getRecentlyFinalized: the ended-in-the-last-day
      query, then the records that have at least one result row. */
  function RecentlyFinalized(store: Store, now: int): seq<Tournament> {
    WithResults(EndedSince(store.tournaments, now), store.results)
  }

  /** The loop of getRecentlyFinalized: one result count per ended record. */
  method GetRecentlyFinalized(store: Store, now: int) returns (finalized: seq<Tournament>)
    ensures finalized == RecentlyFinalized(store, now)
  {
    var ended := EndedSince(store.tournaments, now);
    finalized := [];
    var i := 0;
    while i < |ended|
      invariant 0 <= i <= |ended|
      invariant finalized == WithResults(ended[..i], store.results)
    {
      var t := ended[i];
      var resultCount := |ResultsOf(store.results, t.id)|;
      assert ended[..i + 1] == ended[..i] + [t];
      WithResultsSnoc(ended[..i], t, store.results);
      if resultCount > 0 {
        finalized := finalized + [t];
      }
      i := i + 1;
    }
    assert ended[..i] == ended;
  }

  /** Exactly the ended records with an end date no more than 24 hours ago and
      at least one result row (in store order, as both steps are filters). */
  lemma RecentlyFinalizedMembers(store: Store, now: int, t: Tournament)
    ensures t in RecentlyFinalized(store, now)
        <==> t in store.tournaments && t.status == Ended && t.endDate >= now - MsPerDay
             && exists r :: r in store.results && r.tournamentId == t.id
  {
    var rs := ResultsOf(store.results, t.id);
    if exists r :: r in store.results && r.tournamentId == t.id {
      var r :| r in store.results && r.tournamentId == t.id;
      assert r in rs;
    }
    if |rs| > 0 {
      assert rs[0] in rs;
    }
  }

  /** Finalization gating: no result rows, or an end more than a day ago,
      excludes a tournament; an end 23 hours ago with results includes it. */
  lemma FinalizationGating(t: Tournament, r: TournamentResult, now: int)
    requires t.status == Ended && r.tournamentId == t.id
    ensures t.endDate == now - 23 * MsPerHour
        ==> RecentlyFinalized(Store([t], [], [], [], [r]), now) == [t]
    ensures RecentlyFinalized(Store([t], [], [], [], []), now) == []
    ensures t.endDate == now - 25 * MsPerHour
        ==> RecentlyFinalized(Store([t], [], [], [], [r]), now) == []
  {
    assert [t][..0] == [] && [r][..0] == [];
    assert ResultsOf([r], t.id) == [r];
  }

  // ==================== LEADERBOARD AGGREGATION ====================

  function TournamentSamples(hs: seq<HourlyScore>, tid: string): (r: seq<HourlyScore>)
    ensures forall x :: x in r <==> x in hs && x.tournamentId == tid
  {
    var p := (h: HourlyScore) => h.tournamentId == tid;
    FilterMembers(hs, p);
    Filter(hs, p)
  }

  /** `$dateToString: {format: '%Y-%m-%d'}` in UTC: the calendar day number. */
  function DayKey(hour: int): int {
    hour / MsPerDay
  }

  /** Same `$group` key: lower-cased user id and UTC day. */
  predicate SameGroup(a: HourlyScore, b: HourlyScore) {
    ToLower(a.userId) == ToLower(b.userId) && DayKey(a.hour) == DayKey(b.hour)
  }

  /** Sample i is the `$last` of its group after `$sort: {hour: 1}`: no other
      sample of the group has a later hour (equal hours: the later record). */
  predicate IsDayLast(s: seq<HourlyScore>, i: nat)
    requires i < |s|
  {
    forall j :: 0 <= j < |s| && j != i && SameGroup(s[j], s[i])
      ==> s[j].hour < s[i].hour || (s[j].hour == s[i].hour && j < i)
  }

  /** The daily values of user `uid` among the first k samples, summed. */
  function DailySum(s: seq<HourlyScore>, uid: string, k: nat): int
    requires k <= |s|
  {
    if k == 0 then 0
    else DailySum(s, uid, k - 1)
         + (if ToLower(s[k - 1].userId) == uid && IsDayLast(s, k - 1) then s[k - 1].score else 0)
  }

  /** The pipeline's `cumulativeScore` for lower-cased user `uid`: the sum
      over days of the last sample of the day. */
  function CumulativeScore(s: seq<HourlyScore>, uid: string): int {
    DailySum(s, uid, |s|)
  }

  lemma {:induction false} DailySumNoSamples(s: seq<HourlyScore>, uid: string, k: nat)
    requires k <= |s|
    requires forall i :: 0 <= i < k ==> ToLower(s[i].userId) != uid
    ensures DailySum(s, uid, k) == 0
  {
    if k > 0 {
      DailySumNoSamples(s, uid, k - 1);
    }
  }

  /** A user without samples scores 0. */
  lemma NoSamplesScoreZero(s: seq<HourlyScore>, uid: string)
    requires !HasSamples(s, uid)
    ensures CumulativeScore(s, uid) == 0
  {
    DailySumNoSamples(s, uid, |s|);
  }

  /** Samples 10 and 25 on one day and 5 on the next give 25 + 5 = 30, not
      the sum 40 of all samples. */
  lemma LastOfDayExample(u: string, t: string)
    ensures var s := [HourlyScore(t, u, 1 * MsPerHour, 10),
                      HourlyScore(t, u, 2 * MsPerHour, 25),
                      HourlyScore(t, u, MsPerDay + MsPerHour, 5)];
            CumulativeScore(s, ToLower(u)) == 30
  {
    var s := [HourlyScore(t, u, 1 * MsPerHour, 10),
              HourlyScore(t, u, 2 * MsPerHour, 25),
              HourlyScore(t, u, MsPerDay + MsPerHour, 5)];
    assert DayKey(s[0].hour) == 0 && DayKey(s[1].hour) == 0 && DayKey(s[2].hour) == 1;
    assert !IsDayLast(s, 0) by {
      assert SameGroup(s[1], s[0]);
    }
    assert IsDayLast(s, 1);
    assert IsDayLast(s, 2);
    assert DailySum(s, ToLower(u), 1) == 0;
    assert DailySum(s, ToLower(u), 2) == 25;
  }

  /** x is the latest sample of its day so far (snapshots arrive in time
      order). */
  predicate LatestOfItsDay(s: seq<HourlyScore>, x: HourlyScore) {
    forall j :: 0 <= j < |s| && SameGroup(s[j], x) ==> s[j].hour <= x.hour
  }

  /** Appending the day's latest sample demotes exactly the earlier samples
      of that day. */
  lemma IsDayLastAppend(s: seq<HourlyScore>, x: HourlyScore, i: nat)
    requires i < |s| && LatestOfItsDay(s, x)
    ensures IsDayLast(s + [x], i) <==> IsDayLast(s, i) && !SameGroup(s[i], x)
  {
    var t := s + [x];
    if IsDayLast(t, i) {
      forall j | 0 <= j < |s| && j != i && SameGroup(s[j], s[i])
        ensures s[j].hour < s[i].hour || (s[j].hour == s[i].hour && j < i)
      {
        assert t[j] == s[j];
      }
      if SameGroup(s[i], x) {
        assert t[|s|] == x && SameGroup(t[|s|], t[i]);
      }
    }
    if IsDayLast(s, i) && !SameGroup(s[i], x) {
      forall j | 0 <= j < |t| && j != i && SameGroup(t[j], t[i])
        ensures t[j].hour < t[i].hour || (t[j].hour == t[i].hour && j < i)
      {
        if j < |s| { assert t[j] == s[j]; }
      }
    }
  }

  /** Two day-last samples of the same day are the same sample. */
  lemma DayLastUnique(s: seq<HourlyScore>, i: nat, m: nat)
    requires i < |s| && m < |s| && SameGroup(s[i], s[m])
    requires IsDayLast(s, i) && IsDayLast(s, m)
    ensures i == m
  {
  }

  lemma {:induction false} DailySumAppend(s: seq<HourlyScore>, x: HourlyScore, uid: string, k: nat, m: Option<nat>)
    requires k <= |s| && LatestOfItsDay(s, x)
    requires m.None? ==> forall j :: 0 <= j < |s| ==> !SameGroup(s[j], x)
    requires m.Some? ==> m.value < |s| && SameGroup(s[m.value], x) && IsDayLast(s, m.value)
    ensures DailySum(s + [x], uid, k)
         == DailySum(s, uid, k)
            - (if m.Some? && m.value < k && ToLower(x.userId) == uid then s[m.value].score else 0)
  {
    if k > 0 {
      DailySumAppend(s, x, uid, k - 1, m);
      IsDayLastAppend(s, x, k - 1);
      assert (s + [x])[k - 1] == s[k - 1];
      if m.Some? && IsDayLast(s, k - 1) && SameGroup(s[k - 1], x) {
        DayLastUnique(s, k - 1, m.value);
      }
    }
  }

  /** Only the last sample of a day counts: a later sample of a day already
      seen replaces that day's value, a sample of a new day adds to the
      total, and other users are unaffected. */
  lemma AppendSample(s: seq<HourlyScore>, x: HourlyScore, uid: string, m: Option<nat>)
    requires LatestOfItsDay(s, x)
    requires m.None? ==> forall j :: 0 <= j < |s| ==> !SameGroup(s[j], x)
    requires m.Some? ==> m.value < |s| && SameGroup(s[m.value], x) && IsDayLast(s, m.value)
    ensures ToLower(x.userId) != uid ==> CumulativeScore(s + [x], uid) == CumulativeScore(s, uid)
    ensures ToLower(x.userId) == uid && m.None?
      ==> CumulativeScore(s + [x], uid) == CumulativeScore(s, uid) + x.score
    ensures ToLower(x.userId) == uid && m.Some?
      ==> CumulativeScore(s + [x], uid) == CumulativeScore(s, uid) - s[m.value].score + x.score
  {
    var t := s + [x];
    DailySumAppend(s, x, uid, |s|, m);
    assert IsDayLast(t, |s|) by {
      forall j | 0 <= j < |t| && j != |s| && SameGroup(t[j], t[|s|])
        ensures t[j].hour < t[|s|].hour || (t[j].hour == t[|s|].hour && j < |s|)
      {
        assert t[j] == s[j];
      }
    }
  }

  /** Some sample belongs to lower-cased user `uid`. */
  predicate HasSamples(s: seq<HourlyScore>, uid: string) {
    exists h :: h in s && ToLower(h.userId) == uid
  }

  /** Lower-cased user ids of the samples, each once, in first-seen order:
      the `_id`s of the pipeline's second `$group`. */
  function LowerIds(s: seq<HourlyScore>): (r: seq<string>)
    ensures forall u :: u in r <==> HasSamples(s, u)
  {
    if s == [] then []
    else
      var s' := s[..|s| - 1];
      var last := s[|s| - 1];
      var prev := LowerIds(s');
      var u := ToLower(last.userId);
      var r := if u in prev then prev else prev + [u];
      assert s == s' + [last];
      forall v ensures v in r <==> HasSamples(s, v) {
        if HasSamples(s, v) {
          var h :| h in s && ToLower(h.userId) == v;
          if h != last {
            assert h in s';
          }
        }
      }
      r
  }

  /** The pipeline's output: one (user, cumulativeScore) group per user. */
  function ScoreGroups(s: seq<HourlyScore>): (r: seq<(string, int)>)
    ensures forall k :: 0 <= k < |r| ==> r[k].1 == CumulativeScore(s, r[k].0)
    ensures forall u :: HasSamples(s, u) ==> exists k :: 0 <= k < |r| && r[k].0 == u
  {
    var ids := LowerIds(s);
    var r := seq(|ids|, k requires 0 <= k < |ids| => (ids[k], CumulativeScore(s, ids[k])));
    forall u | HasSamples(s, u) ensures exists k :: 0 <= k < |r| && r[k].0 == u {
      var k :| 0 <= k < |ids| && ids[k] == u;
      assert r[k].0 == u;
    }
    r
  }

  /** `participantScores.get(id) || 0` */
  function ScoreFor(m: map<string, int>, uid: string): int {
    if uid in m then m[uid] else 0
  }

  /** The last player record with this lower-cased id and a non-empty name
      (later `set`s overwrite earlier ones). */
  function PlayerName(players: seq<Player>, uid: string): Option<string> {
    if players == [] then None
    else
      var p := players[|players| - 1];
      if ToLower(p.userId) == uid && Truthy(p.playerName) then Some(p.playerName.value)
      else PlayerName(players[..|players| - 1], uid)
  }

  function LowerUserIds(ps: seq<Participant>): (r: seq<string>)
    ensures |r| == |ps| && forall i :: 0 <= i < |ps| ==> r[i] == ToLower(ps[i].userId)
  {
    seq(|ps|, i requires 0 <= i < |ps| => ToLower(ps[i].userId))
  }

  /** The players `$match`ed by the participants' lower-cased ids. */
  function MatchedPlayers(players: seq<Player>, ids: seq<string>): seq<Player> {
    Filter(players, (p: Player) => ToLower(p.userId) in ids)
  }

  function TotalScore(store: Store, tid: string, userId: string): int {
    CumulativeScore(TournamentSamples(store.hourlyScores, tid), ToLower(userId))
  }

  function ScoreKeys(store: Store, tid: string): (r: seq<int>)
    ensures var ps := ParticipantsOf(store.participants, tid);
      |r| == |ps| && forall i :: 0 <= i < |ps| ==> r[i] == TotalScore(store, tid, ps[i].userId)
  {
    var ps := ParticipantsOf(store.participants, tid);
    seq(|ps|, i requires 0 <= i < |ps| => TotalScore(store, tid, ps[i].userId))
  }

  /** Registration indices in leaderboard order (stable sort by score). */
  function RankingOrder(store: Store, tid: string): (r: seq<nat>)
    ensures |r| == |ParticipantsOf(store.participants, tid)|
    ensures forall i :: 0 <= i < |r| ==> r[i] < |ParticipantsOf(store.participants, tid)|
  {
    DescendingOrder(ScoreKeys(store, tid))
  }

  function MakeEntry(store: Store, tid: string, rank: int, p: Participant): LeaderboardEntry {
    var ids := LowerUserIds(ParticipantsOf(store.participants, tid));
    LeaderboardEntry(rank, p.userId,
                     PlayerName(MatchedPlayers(store.players, ids), ToLower(p.userId)),
                     TotalScore(store, tid, p.userId), p.selectedCrypto, p.direction)
  }

  /** The specification of getLeaderboard. */
  function Leaderboard(store: Store, tid: string, limit: nat): (r: seq<LeaderboardEntry>)
    ensures var n := |ParticipantsOf(store.participants, tid)|;
      |r| == if limit < n then limit else n
    ensures forall i :: 0 <= i < |r| ==> r[i].rank == i + 1
  {
    var ps := ParticipantsOf(store.participants, tid);
    RankedEntries(store, tid, ps, RankingOrder(store, tid), if limit < |ps| then limit else |ps|)
  }

  /** The first `n` participants in the order `ord`, ranked from 1. */
  function RankedEntries(store: Store, tid: string, ps: seq<Participant>, ord: seq<nat>, n: nat)
    : (r: seq<LeaderboardEntry>)
    requires n <= |ord| && forall i :: 0 <= i < |ord| ==> ord[i] < |ps|
    ensures |r| == n && forall i :: 0 <= i < n ==> r[i] == MakeEntry(store, tid, i + 1, ps[ord[i]])
  {
    seq(n, i requires 0 <= i < n => MakeEntry(store, tid, i + 1, ps[ord[i]]))
  }

  /** The `forEach` over the aggregation filling `participantScores`: every
      id then maps to its cumulative score (absent ids read as 0). */
  method CollectScores(samples: seq<HourlyScore>) returns (participantScores: map<string, int>)
    ensures forall u :: ScoreFor(participantScores, u) == CumulativeScore(samples, u)
  {
    var scoreAggregation := ScoreGroups(samples);
    participantScores := map[];
    var i := 0;
    while i < |scoreAggregation|
      invariant 0 <= i <= |scoreAggregation|
      invariant forall u :: u in participantScores ==> participantScores[u] == CumulativeScore(samples, u)
      invariant forall k :: 0 <= k < i ==> scoreAggregation[k].0 in participantScores
    {
      participantScores := participantScores[scoreAggregation[i].0 := scoreAggregation[i].1];
      i := i + 1;
    }
    forall u ensures ScoreFor(participantScores, u) == CumulativeScore(samples, u) {
      if u !in participantScores {
        assert !HasSamples(samples, u);
        NoSamplesScoreZero(samples, u);
      }
    }
  }

  /** The `forEach` over the matched players filling `playerNames`: later
      records with a non-empty name overwrite earlier ones. */
  method CollectNames(players: seq<Player>) returns (playerNames: map<string, string>)
    ensures forall u :: PlayerName(players, u) == if u in playerNames then Some(playerNames[u]) else None
  {
    playerNames := map[];
    var i := 0;
    while i < |players|
      invariant 0 <= i <= |players|
      invariant forall u :: PlayerName(players[..i], u) == if u in playerNames then Some(playerNames[u]) else None
    {
      var p := players[i];
      assert players[..i + 1][..i] == players[..i];
      if Truthy(p.playerName) {
        playerNames := playerNames[ToLower(p.userId) := p.playerName.value];
      }
      i := i + 1;
    }
    assert players[..i] == players;
  }

  /** getLeaderboard: the two maps, the participants sorted by score, and
      the first `limit` of them ranked 1, 2, .... */
  method GetLeaderboard(store: Store, tid: string, limit: nat) returns (entries: seq<LeaderboardEntry>)
    ensures entries == Leaderboard(store, tid, limit)
  {
    var participantScores := CollectScores(TournamentSamples(store.hourlyScores, tid));
    var participants := ParticipantsOf(store.participants, tid);
    var userIds := LowerUserIds(participants);
    var playerNames := CollectNames(MatchedPlayers(store.players, userIds));

    var keys := seq(|participants|, k requires 0 <= k < |participants|
                      => ScoreFor(participantScores, ToLower(participants[k].userId)));
    assert keys == ScoreKeys(store, tid);
    var sorted := DescendingOrder(keys);
    assert sorted == RankingOrder(store, tid);
    var n := if limit < |participants| then limit else |participants|;
    entries := RankEntries(store, tid, participants, sorted, n, participantScores, playerNames);
  }

  /** The `map` over the first `n` sorted participants building the rows
      from the two maps. */
  method RankEntries(store: Store, tid: string, participants: seq<Participant>, sorted: seq<nat>, n: nat,
                     participantScores: map<string, int>, playerNames: map<string, string>)
    returns (entries: seq<LeaderboardEntry>)
    requires participants == ParticipantsOf(store.participants, tid)
    requires n <= |sorted| && forall i :: 0 <= i < |sorted| ==> sorted[i] < |participants|
    requires forall u :: ScoreFor(participantScores, u) == CumulativeScore(TournamentSamples(store.hourlyScores, tid), u)
    requires forall u :: PlayerName(MatchedPlayers(store.players, LowerUserIds(participants)), u)
                         == if u in playerNames then Some(playerNames[u]) else None
    ensures entries == RankedEntries(store, tid, participants, sorted, n)
  {
    ghost var lb := RankedEntries(store, tid, participants, sorted, n);
    entries := [];
    var i := 0;
    while i < n
      invariant 0 <= i <= n == |lb|
      invariant entries == lb[..i]
    {
      var p := participants[sorted[i]];
      var lower := ToLower(p.userId);
      var name := if lower in playerNames then Some(playerNames[lower]) else None;
      var entry := LeaderboardEntry(i + 1, p.userId, name, ScoreFor(participantScores, lower),
                                    p.selectedCrypto, p.direction);
      assert entry == MakeEntry(store, tid, i + 1, p) == lb[i];
      assert lb[..i + 1] == lb[..i] + [lb[i]];
      entries := entries + [entry];
      i := i + 1;
    }
    assert lb[..i] == lb;
  }

  /** Row i carries the score key of the participant the order puts there. */
  lemma EntryScore(store: Store, tid: string, limit: nat, i: nat)
    requires i < |Leaderboard(store, tid, limit)|
    ensures Leaderboard(store, tid, limit)[i].totalScore == ScoreKeys(store, tid)[RankingOrder(store, tid)[i]]
  {
    var ps := ParticipantsOf(store.participants, tid);
    var ord := RankingOrder(store, tid);
    assert Leaderboard(store, tid, limit)[i] == MakeEntry(store, tid, i + 1, ps[ord[i]]);
  }

  /** Scores never increase down the leaderboard, and equal scores keep
      registration order. */
  lemma LeaderboardSorted(store: Store, tid: string, limit: nat, i: nat, j: nat)
    requires i < j < |Leaderboard(store, tid, limit)|
    ensures var lb := Leaderboard(store, tid, limit);
            var ord := RankingOrder(store, tid);
      && lb[i].totalScore >= lb[j].totalScore
      && (lb[i].totalScore == lb[j].totalScore ==> ord[i] < ord[j])
  {
    DescendingOrderSorted(ScoreKeys(store, tid), i, j);
    EntryScore(store, tid, limit, i);
    EntryScore(store, tid, limit, j);
  }

  /** Every row is a registered participant of this tournament, with the
      cumulative score of its lower-cased id; no samples means score 0. */
  lemma LeaderboardRows(store: Store, tid: string, limit: nat, i: nat)
    requires i < |Leaderboard(store, tid, limit)|
    ensures var e := Leaderboard(store, tid, limit)[i];
            var p := ParticipantsOf(store.participants, tid)[RankingOrder(store, tid)[i]];
      && p in store.participants && p.tournamentId == tid
      && e.userId == p.userId && e.selectedCrypto == p.selectedCrypto && e.direction == p.direction
      && e.totalScore == CumulativeScore(TournamentSamples(store.hourlyScores, tid), ToLower(p.userId))
      && (!HasSamples(TournamentSamples(store.hourlyScores, tid), ToLower(p.userId)) ==> e.totalScore == 0)
  {
    var ps := ParticipantsOf(store.participants, tid);
    var p := ps[RankingOrder(store, tid)[i]];
    assert p in ps;
    assert Leaderboard(store, tid, limit)[i] == MakeEntry(store, tid, i + 1, p);
    var samples := TournamentSamples(store.hourlyScores, tid);
    if !HasSamples(samples, ToLower(p.userId)) {
      NoSamplesScoreZero(samples, ToLower(p.userId));
    }
  }

  /** No participant is listed twice, and with a large enough limit every
      registered participant is listed. */
  lemma LeaderboardIsPermutation(store: Store, tid: string, limit: nat)
    ensures var ord := RankingOrder(store, tid);
            var lb := Leaderboard(store, tid, limit);
      && (forall i, j :: 0 <= i < j < |lb| ==> ord[i] != ord[j])
      && (limit >= |ParticipantsOf(store.participants, tid)|
          ==> forall k :: 0 <= k < |ParticipantsOf(store.participants, tid)| ==> k in ord[..|lb|])
  {
    var ord := RankingOrder(store, tid);
    var lb := Leaderboard(store, tid, limit);
    forall i, j | 0 <= i < j < |lb| ensures ord[i] != ord[j] {
      DescendingOrderInjective(ScoreKeys(store, tid), i, j);
    }
    if limit >= |ParticipantsOf(store.participants, tid)| {
      assert ord[..|lb|] == ord;
    }
  }

  /** Truncation keeps the best: a participant cut off by the limit scores no
      more than the last listed row. */
  lemma LeaderboardTruncation(store: Store, tid: string, limit: nat, k: nat)
    requires 0 < limit
    requires k < |ParticipantsOf(store.participants, tid)|
    requires k !in RankingOrder(store, tid)[..|Leaderboard(store, tid, limit)|]
    ensures var lb := Leaderboard(store, tid, limit);
      TotalScore(store, tid, ParticipantsOf(store.participants, tid)[k].userId) <= lb[|lb| - 1].totalScore
  {
    var ord := RankingOrder(store, tid);
    var lb := Leaderboard(store, tid, limit);
    assert k in ord;
    var pos :| 0 <= pos < |ord| && ord[pos] == k;
    DescendingOrderSorted(ScoreKeys(store, tid), |lb| - 1, pos);
  }

  // ==================== PLAYER STATS ====================

  /** Index of the first entry whose id matches `wallet` case-insensitively. */
  function FindWallet(lb: seq<LeaderboardEntry>, wallet: string): (r: Option<nat>)
    ensures r.Some? ==> r.value < |lb| && ToLower(lb[r.value].userId) == ToLower(wallet)
    ensures r.Some? ==> forall j :: 0 <= j < r.value ==> ToLower(lb[j].userId) != ToLower(wallet)
    ensures r.None? ==> forall j :: 0 <= j < |lb| ==> ToLower(lb[j].userId) != ToLower(wallet)
  {
    if lb == [] then None
    else if ToLower(lb[0].userId) == ToLower(wallet) then Some(0)
    else
      match FindWallet(lb[1..], wallet)
      case None => None
      case Some(k) => Some(k + 1)
  }

  /** getPlayerStats: the first of the top 999 rows whose id equals the wallet
      case-insensitively, or nothing. */
  function GetPlayerStats(store: Store, tid: string, wallet: string): (r: Option<LeaderboardEntry>)
    ensures r.Some? <==> exists i :: 0 <= i < |Leaderboard(store, tid, 999)|
                                     && ToLower(Leaderboard(store, tid, 999)[i].userId) == ToLower(wallet)
    ensures r.Some? ==> r.value in Leaderboard(store, tid, 999) && ToLower(r.value.userId) == ToLower(wallet)
    ensures r.Some? ==> exists i :: 0 <= i < |Leaderboard(store, tid, 999)| && Leaderboard(store, tid, 999)[i] == r.value
                          && forall j :: 0 <= j < i ==> ToLower(Leaderboard(store, tid, 999)[j].userId) != ToLower(wallet)
  {
    var lb := Leaderboard(store, tid, 999);
    match FindWallet(lb, wallet)
    case None => None
    case Some(i) => Some(lb[i])
  }

  /** '0xABC' finds the participant registered as '0xabc'. */
  lemma PlayerStatsCaseInsensitive(store: Store, tid: string, wallet: string, i: nat)
    requires i < |Leaderboard(store, tid, 999)|
    requires Leaderboard(store, tid, 999)[i].userId == ToLower(wallet)
    ensures GetPlayerStats(store, tid, wallet).Some?
  {
    ToLowerIdempotent(wallet);
  }

  // ==================== TIME ====================

  /** getTournamentDay: the 1-based day since the start, clamped to 1..7. */
  function GetTournamentDay(startDate: int, now: int): (r: int)
    ensures 1 <= r <= 7
    ensures 1 < r < 7 ==> startDate + (r - 1) * MsPerDay <= now < startDate + r * MsPerDay
    ensures r == 1 <==> now < startDate + MsPerDay
    ensures r == 7 <==> now >= startDate + 6 * MsPerDay
  {
    var day := (now - startDate) / MsPerDay + 1;
    if day < 1 then 1 else if day > 7 then 7 else day
  }

  /** Whole days and the remaining whole hours (0..23) of a positive span. */
  function SplitRemaining(diff: int): (r: (nat, nat))
    requires diff > 0
    ensures r.1 < 24
    ensures r.0 * MsPerDay + r.1 * MsPerHour <= diff < r.0 * MsPerDay + (r.1 + 1) * MsPerHour
  {
    (diff / MsPerDay, (diff % MsPerDay) / MsPerHour)
  }

  /** getTimeRemaining: 'Ended', or 'Nd Hh', or 'Hh' when under a day. */
  function GetTimeRemaining(endDate: int, now: int): (r: string)
    ensures r == "Ended" <==> endDate <= now
    ensures endDate > now ==> |r| > 0 && r[|r| - 1] == 'h'
  {
    var diff := endDate - now;
    if diff <= 0 then "Ended"
    else
      var (days, hours) := SplitRemaining(diff);
      var r := (if days > 0 then NatToString(days) + "d " else "") + NatToString(hours) + "h";
      assert r[|r| - 1] == 'h' && "Ended"[4] == 'd';
      r
  }

  /** The "Nd " prefix appears exactly when at least one full day remains;
      the hour count is always below 24. */
  lemma TimeRemainingShape(endDate: int, now: int)
    requires endDate > now
    ensures var r := GetTimeRemaining(endDate, now);
            var (days, hours) := SplitRemaining(endDate - now);
      && ((exists i :: 0 <= i < |r| && r[i] == 'd') <==> endDate - now >= MsPerDay)
      && r[|r| - 1 - |NatToString(hours)|..|r| - 1] == NatToString(hours)
      && hours < 24
  {
    var r := GetTimeRemaining(endDate, now);
    var (days, hours) := SplitRemaining(endDate - now);
    var hs := NatToString(hours);
    if days > 0 {
      var ds := NatToString(days);
      assert r == ds + "d " + hs + "h";
      assert r[|ds|] == 'd';
      assert r[|r| - 1 - |hs|..|r| - 1] == hs;
    } else {
      assert r == hs + "h";
      assert r[..|r| - 1] == hs;
      forall i | 0 <= i < |r| ensures r[i] != 'd' {
        if i < |r| - 1 { assert r[i] == hs[i] && IsDigit(hs[i]); }
      }
    }
  }

  // ==================== PRIZES ====================

  /** The default prize for a position 1..50. */
  function DefaultPrizeFor(position: int): Prize {
    if position == 1 then Prize(1, 3, 40000)
    else if position == 2 then Prize(2, 2, 25000)
    else if position == 3 then Prize(3, 1, 15000)
    else if position <= 5 then Prize(position, 0, 7500)
    else if position <= 10 then Prize(position, 0, 3000)
    else Prize(position, 0, 1500)
  }

  function DefaultPrizes(): (r: seq<Prize>)
    ensures |r| == 50
    ensures forall i :: 0 <= i < 50 ==> r[i] == DefaultPrizeFor(i + 1)
  {
    seq(50, i requires 0 <= i < 50 => DefaultPrizeFor(i + 1))
  }

  /** getDefaultPrizes: three pushes and three `for` loops. */
  method GetDefaultPrizes() returns (prizes: seq<Prize>)
    ensures prizes == DefaultPrizes()
    ensures forall i :: 0 <= i < |prizes| ==> prizes[i].position == i + 1
  {
    prizes := [];
    prizes := prizes + [Prize(1, 3, 40000)];
    prizes := prizes + [Prize(2, 2, 25000)];
    prizes := prizes + [Prize(3, 1, 15000)];
    var i := 4;
    while i <= 5
      invariant 4 <= i <= 6 && |prizes| == i - 1
      invariant forall k :: 0 <= k < |prizes| ==> prizes[k] == DefaultPrizeFor(k + 1)
    {
      prizes := prizes + [Prize(i, 0, 7500)];
      i := i + 1;
    }
    i := 6;
    while i <= 10
      invariant 6 <= i <= 11 && |prizes| == i - 1
      invariant forall k :: 0 <= k < |prizes| ==> prizes[k] == DefaultPrizeFor(k + 1)
    {
      prizes := prizes + [Prize(i, 0, 3000)];
      i := i + 1;
    }
    i := 11;
    while i <= 50
      invariant 11 <= i <= 51 && |prizes| == i - 1
      invariant forall k :: 0 <= k < |prizes| ==> prizes[k] == DefaultPrizeFor(k + 1)
    {
      prizes := prizes + [Prize(i, 0, 1500)];
      i := i + 1;
    }
  }

  /** getTotalPrizePool: the `reduce` adding up tokens and NFTs. */
  function GetTotalPrizePool(prizes: seq<Prize>): PrizePool {
    if prizes == [] then PrizePool(0, 0)
    else
      var acc := GetTotalPrizePool(prizes[..|prizes| - 1]);
      var p := prizes[|prizes| - 1];
      PrizePool(acc.totalClash + p.clashTokens, acc.totalNFTs + p.patronNFTs)
  }

  /** The pool of a concatenation is the sum of the pools. */
  lemma {:induction false} PrizePoolAppend(a: seq<Prize>, b: seq<Prize>)
    ensures GetTotalPrizePool(a + b).totalClash == GetTotalPrizePool(a).totalClash + GetTotalPrizePool(b).totalClash
    ensures GetTotalPrizePool(a + b).totalNFTs == GetTotalPrizePool(a).totalNFTs + GetTotalPrizePool(b).totalNFTs
    decreases |b|
  {
    if b == [] {
      assert a + b == a;
    } else {
      var b' := b[..|b| - 1];
      assert (a + b)[..|a + b| - 1] == a + b';
      PrizePoolAppend(a, b');
    }
  }

  function ClashAmounts(prizes: seq<Prize>): (r: seq<int>)
    ensures |r| == |prizes| && forall i :: 0 <= i < |prizes| ==> r[i] == prizes[i].clashTokens
  {
    seq(|prizes|, i requires 0 <= i < |prizes| => prizes[i].clashTokens)
  }

  function NftCounts(prizes: seq<Prize>): (r: seq<int>)
    ensures |r| == |prizes| && forall i :: 0 <= i < |prizes| ==> r[i] == prizes[i].patronNFTs
  {
    seq(|prizes|, i requires 0 <= i < |prizes| => prizes[i].patronNFTs)
  }

  /** The pool totals are the plain sums of the two columns. */
  lemma {:induction false} PrizePoolIsSum(prizes: seq<Prize>)
    ensures GetTotalPrizePool(prizes) == PrizePool(Sum(ClashAmounts(prizes)), Sum(NftCounts(prizes)))
  {
    if prizes != [] {
      var p' := prizes[..|prizes| - 1];
      assert ClashAmounts(prizes)[..|prizes| - 1] == ClashAmounts(p');
      assert NftCounts(prizes)[..|prizes| - 1] == NftCounts(p');
      PrizePoolIsSum(p');
    }
  }

  /** k positions that each pay c tokens and no NFT. */
  lemma {:induction false} FlatTierPool(first: int, k: nat, c: int)
    ensures var tier := seq(k, i requires 0 <= i < k => Prize(first + i, 0, c));
      GetTotalPrizePool(tier) == PrizePool(k * c, 0)
  {
    var tier := seq(k, i requires 0 <= i < k => Prize(first + i, 0, c));
    if k > 0 {
      assert tier[..k - 1] == seq(k - 1, i requires 0 <= i < k - 1 => Prize(first + i, 0, c));
      FlatTierPool(first, k - 1, c);
    }
  }

  /** The default structure pays 170,000 $CLASH and 6 NFTs in total. */
  lemma DefaultPrizePool()
    ensures GetTotalPrizePool(DefaultPrizes()) == PrizePool(170000, 6)
  {
    var d := DefaultPrizes();
    var top := d[..3];
    var t4 := seq(2, i requires 0 <= i < 2 => Prize(4 + i, 0, 7500));
    var t6 := seq(5, i requires 0 <= i < 5 => Prize(6 + i, 0, 3000));
    var t11 := seq(40, i requires 0 <= i < 40 => Prize(11 + i, 0, 1500));
    assert d == top + t4 + t6 + t11;
    assert top == [Prize(1, 3, 40000), Prize(2, 2, 25000), Prize(3, 1, 15000)];
    assert GetTotalPrizePool(top) == PrizePool(80000, 6) by {
      var one := [Prize(1, 3, 40000)];
      var two := one + [Prize(2, 2, 25000)];
      assert one[..0] == [] && two[..1] == one && top[..2] == two;
      assert GetTotalPrizePool(one) == PrizePool(40000, 3);
      assert GetTotalPrizePool(two) == PrizePool(65000, 5);
    }
    FlatTierPool(4, 2, 7500);
    FlatTierPool(6, 5, 3000);
    FlatTierPool(11, 40, 1500);
    PrizePoolAppend(top, t4);
    PrizePoolAppend(top + t4, t6);
    PrizePoolAppend(top + t4 + t6, t11);
  }

  /** `tournament.prizes || getDefaultPrizes()`: an absent table falls back to
      the defaults (an empty array is truthy and is kept). */
  function PrizesOrDefault(t: Tournament): (r: seq<Prize>)
    ensures t.prizes.None? ==> r == DefaultPrizes()
    ensures t.prizes.Some? ==> r == t.prizes.value
  {
    match t.prizes
    case Some(p) => p
    case None => DefaultPrizes()
  }
}
