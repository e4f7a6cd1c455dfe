/** The text of the tournament embeds of src/templates/tournamentReport.ts:
    the daily standings table, the final-results tiers and the prize list.
    Number rendering that goes through floating point (`toFixed(1)` for
    scores, `toLocaleString('en-US')` for token amounts) and `shortAddress`
    are parameters. */
module TournamentReport {
  import opened Wrappers
  import opened Seqs
  import opened Text
  import Branding
  import opened TournamentReportService

  // ==================== ORDINAL ====================

  /** JavaScript's `a % b` for b > 0: the remainder takes the sign of `a`. */
  function JsRem(a: int, b: int): (r: int)
    requires b > 0
    ensures a >= 0 ==> 0 <= r < b
    ensures a < 0 ==> -b < r <= 0
  {
    if a >= 0 then a % b else -((-a) % b)
  }

  const OrdinalSuffixes: seq<string> := ["th", "st", "nd", "rd"]

  /** `s[i]` on the suffix array: undefined outside 0..3. */
  function SuffixAt(i: int): Option<string> {
    if 0 <= i < |OrdinalSuffixes| then Some(OrdinalSuffixes[i]) else None
  }

  /** `s[(v - 20) % 10] || s[v] || s[0]` with `v = n % 100` (every entry of
      the array is a non-empty, hence truthy, string). */
  function OrdinalSuffix(n: int): string {
    var v := JsRem(n, 100);
    match SuffixAt(JsRem(v - 20, 10))
    case Some(s) => s
    case None => SuffixAt(v).GetOr(OrdinalSuffixes[0])
  }

  function Ordinal(n: int): string {
    IntToString(n) + OrdinalSuffix(n)
  }

  /** The English ordinal suffix, as a reference definition. */
  function EnglishSuffix(n: nat): string {
    if 11 <= n % 100 <= 13 then "th"
    else if n % 10 == 1 then "st"
    else if n % 10 == 2 then "nd"
    else if n % 10 == 3 then "rd"
    else "th"
  }

  /** For non-negative numbers the array trick is the English suffix; every
      negative number gets "th". */
  lemma OrdinalIsEnglish(n: int)
    ensures n >= 0 ==> OrdinalSuffix(n) == EnglishSuffix(n)
    ensures n < 0 ==> OrdinalSuffix(n) == "th"
  {
    var v := JsRem(n, 100);
    if n >= 0 {
      assert v == n % 100;
      assert n % 10 == v % 10;
      if v >= 20 {
        assert JsRem(v - 20, 10) == v % 10;
      } else {
        assert JsRem(v - 20, 10) == -((20 - v) % 10);
      }
    } else {
      assert -100 < v <= 0;
    }
  }

  lemma OrdinalSuffixExamples()
    ensures OrdinalSuffix(1) == "st" && OrdinalSuffix(2) == "nd" && OrdinalSuffix(3) == "rd" && OrdinalSuffix(4) == "th"
    ensures OrdinalSuffix(11) == "th" && OrdinalSuffix(12) == "th" && OrdinalSuffix(13) == "th"
    ensures OrdinalSuffix(21) == "st" && OrdinalSuffix(22) == "nd" && OrdinalSuffix(23) == "rd"
    ensures OrdinalSuffix(101) == "st" && OrdinalSuffix(111) == "th" && OrdinalSuffix(-1) == "th"
  {
  }

  lemma OrdinalExamples()
    ensures Ordinal(1) == "1st" && Ordinal(22) == "22nd" && Ordinal(113) == "113th"
  {
    assert NatToString(1) == "1";
    assert NatToString(22) == "22";
    assert NatToString(113) == "113";
  }

  // ==================== DAILY STANDINGS ====================

  /** `entry.playerName || shortAddress(entry.userId)` */
  function DisplayName(playerName: Option<string>, userId: string, shortAddress: string -> string): string {
    if Truthy(playerName) then playerName.value else shortAddress(userId)
  }

  /** The rank, right-aligned in two columns. */
  function RankColumn(rank: int): string {
    PadStart(IntToString(rank), 2, ' ')
  }

  /** The name cut to 20 characters, then padded to exactly 20. */
  function NameColumn(name: string): string {
    PadEnd(Take(name, 20), 20, ' ')
  }

  /** The formatted score, right-aligned in seven columns. */
  function ScoreColumn(score: string): string {
    PadStart(score, 7, ' ')
  }

  /** `entry.selectedCrypto ? `${arrow} ${entry.selectedCrypto}` : ''` */
  function PickColumn(selectedCrypto: Option<string>, direction: Option<Direction>): string {
    var arrow := if direction == Some(Up) then "▲" else "▼";
    if Truthy(selectedCrypto) then arrow + " " + selectedCrypto.value else ""
  }

  /** The rank is right-aligned: spaces, then its digits, at least two
      columns in all. */
  lemma RankColumnAligned(rank: int)
    ensures var r := RankColumn(rank); var d := IntToString(rank);
      && |r| == (if |d| < 2 then 2 else |d|)
      && r[|r| - |d|..] == d
      && (forall i :: 0 <= i < |r| - |d| ==> r[i] == ' ')
  {
  }

  /** The name column is always exactly 20 wide: a long name is cut, a short
      one is followed by spaces. */
  lemma NameColumnWidth(name: string)
    ensures var r := NameColumn(name);
      && |r| == 20
      && (|name| >= 20 ==> r == name[..20])
      && (|name| < 20 ==> r[..|name|] == name && forall i :: |name| <= i < 20 ==> r[i] == ' ')
  {
  }

  /** The score is right-aligned in at least seven columns. */
  lemma ScoreColumnAligned(score: string)
    ensures var r := ScoreColumn(score);
      && |r| == (if |score| < 7 then 7 else |score|)
      && r[|r| - |score|..] == score
      && (forall i :: 0 <= i < |r| - |score| ==> r[i] == ' ')
  {
  }

  /** The pick column is empty exactly when no asset was picked; otherwise an
      up arrow for Up, a down arrow for Down or no direction, then the asset. */
  lemma PickColumnShape(selectedCrypto: Option<string>, direction: Option<Direction>)
    ensures var r := PickColumn(selectedCrypto, direction);
      && (r == "" <==> !Truthy(selectedCrypto))
      && (Truthy(selectedCrypto) ==>
            && r[0] == (if direction == Some(Up) then '▲' else '▼')
            && r[1..] == " " + selectedCrypto.value)
  {
  }

  function StandingsRow(e: LeaderboardEntry, shortAddress: string -> string, formatScore: int -> string): string {
    " " + RankColumn(e.rank) + "  " + NameColumn(DisplayName(e.playerName, e.userId, shortAddress))
      + " " + ScoreColumn(formatScore(e.totalScore)) + "   " + PickColumn(e.selectedCrypto, e.direction)
  }

  const MaxStandingsRows: nat := 25

  const StandingsTableHead: seq<string> :=
    ["", "```", " #  Player                Score   Pick", "───────────────────────────────────────────"]

  function StandingsHeadline(day: int, participantCount: int, timeRemaining: string): string {
    "**Day " + IntToString(day) + "/7** · " + IntToString(participantCount) + " players · "
      + timeRemaining + " remaining"
  }

  /** The row renderer, as a value to map over the leaderboard. */
  function StandingsRowOf(shortAddress: string -> string, formatScore: int -> string): LeaderboardEntry -> string {
    e => StandingsRow(e, shortAddress, formatScore)
  }

  function StandingsRows(leaderboard: seq<LeaderboardEntry>, shortAddress: string -> string,
                         formatScore: int -> string): (r: seq<string>)
    ensures |r| == |leaderboard|
    ensures forall i :: 0 <= i < |r| ==> r[i] == StandingsRow(leaderboard[i], shortAddress, formatScore)
  {
    Map(leaderboard, StandingsRowOf(shortAddress, formatScore))
  }

  /** The line after the table: present exactly when rows were cut, giving
      how many. */
  function MoreLine(count: nat): (r: seq<string>)
    ensures r == [] <==> count <= MaxStandingsRows
    ensures count > MaxStandingsRows ==> r == ["*...and " + NatToString(count - MaxStandingsRows) + " more*"]
  {
    if count > MaxStandingsRows then ["*...and " + NatToString(count - MaxStandingsRows) + " more*"] else []
  }

  /** The description lines of DailyStandingsEmbed: the headline and table
      head, the first min(n, 25) rows in leaderboard order, the closing
      fence, and the "more" line. */
  function StandingsLines(headline: string, leaderboard: seq<LeaderboardEntry>,
                          shortAddress: string -> string, formatScore: int -> string): seq<string> {
    var show := if |leaderboard| < MaxStandingsRows then |leaderboard| else MaxStandingsRows;
    [headline] + StandingsTableHead + StandingsRows(leaderboard[..show], shortAddress, formatScore)
      + ["```"] + MoreLine(|leaderboard|)
  }

  /** The `lines.push` sequence of DailyStandingsEmbed. */
  method DailyStandingsLines(t: Tournament, now: int, day: int, leaderboard: seq<LeaderboardEntry>,
                             participantCount: int, shortAddress: string -> string,
                             formatScore: int -> string)
    returns (headerLines: seq<string>)
    ensures headerLines == StandingsLines(StandingsHeadline(day, participantCount, GetTimeRemaining(t.endDate, now)),
                                          leaderboard, shortAddress, formatScore)
  {
    var timeRemaining := GetTimeRemaining(t.endDate, now);
    headerLines := [StandingsHeadline(day, participantCount, timeRemaining)] + StandingsTableHead;
    var showCount := if |leaderboard| < MaxStandingsRows then |leaderboard| else MaxStandingsRows;
    headerLines := AppendMapped(headerLines, leaderboard[..showCount], StandingsRowOf(shortAddress, formatScore));
    headerLines := headerLines + ["```"];
    if |leaderboard| > showCount {
      headerLines := headerLines + ["*...and " + NatToString(|leaderboard| - showCount) + " more*"];
    }
  }

  /** The table has 5 head lines, then the rows for the first min(n, 25)
      entries in leaderboard order, the fence, and one more line exactly when
      n > 25. */
  lemma StandingsLinesShape(headline: string, leaderboard: seq<LeaderboardEntry>,
                            shortAddress: string -> string, formatScore: int -> string)
    ensures var show := if |leaderboard| < MaxStandingsRows then |leaderboard| else MaxStandingsRows;
            var lines := StandingsLines(headline, leaderboard, shortAddress, formatScore);
      && |lines| == 5 + show + 1 + (if |leaderboard| > MaxStandingsRows then 1 else 0)
      && lines[0] == headline
      && lines[5..5 + show] == StandingsRows(leaderboard[..show], shortAddress, formatScore)
      && lines[5 + show] == "```"
  {
    var show := if |leaderboard| < MaxStandingsRows then |leaderboard| else MaxStandingsRows;
    var rows := StandingsRows(leaderboard[..show], shortAddress, formatScore);
    var lines := StandingsLines(headline, leaderboard, shortAddress, formatScore);
    assert lines == ([headline] + StandingsTableHead + rows) + (["```"] + MoreLine(|leaderboard|));
  }

  /** `${tournament.leagueCategory || 'Alpha'} #${tournament.weekNumber}`;
      a missing week number prints as "undefined". */
  function LeagueField(t: Tournament): string {
    var week := match t.weekNumber case Some(w) => IntToString(w) case None => "undefined";
    (if t.leagueCategory != "" then t.leagueCategory else "Alpha") + " #" + week
  }

  // ==================== TOURNAMENT RESULTS ====================

  /** The parts of a podium prize line: NFTs only if any (plural above one),
      $CLASH only if any. */
  function AwardParts(prize: PrizeAward, formatClash: int -> string): (r: seq<string>)
    ensures |r| == (if prize.patronNFTs > 0 then 1 else 0) + (if prize.clashTokens > 0 then 1 else 0)
    ensures prize.patronNFTs > 0 ==>
      r[0] == IntToString(prize.patronNFTs) + " Patron NFT" + (if prize.patronNFTs > 1 then "s" else "")
    ensures prize.clashTokens > 0 ==> r[|r| - 1] == formatClash(prize.clashTokens) + " $CLASH"
  {
    (if prize.patronNFTs > 0
     then [IntToString(prize.patronNFTs) + " Patron NFT" + (if prize.patronNFTs > 1 then "s" else "")]
     else [])
    + (if prize.clashTokens > 0 then [formatClash(prize.clashTokens) + " $CLASH"] else [])
  }

  function ResultName(r: TournamentResult, shortAddress: Option<string> -> string): string {
    if Truthy(r.playerName) then r.playerName.value else shortAddress(r.userId)
  }

  /** The lines for one podium result: headline, prize line if a prize was
      awarded, blank line. */
  function PodiumLines(r: TournamentResult, shortAddress: Option<string> -> string,
                       formatScore: int -> string, formatClash: int -> string): (lines: seq<string>)
    ensures |lines| == if r.prizeAwarded.Some? then 3 else 2
    ensures lines[|lines| - 1] == ""
  {
    var head := Branding.GetMedalEmoji(r.finalRank) + " **" + Ordinal(r.finalRank) + " Place: "
                + ResultName(r, shortAddress) + "** — " + formatScore(r.finalScore) + " pts";
    match r.prizeAwarded
    case Some(prize) => [head, "   → 🎁 " + Join(AwardParts(prize, formatClash), " + "), ""]
    case None => [head, ""]
  }

  /** The podium headline names the medal, the ordinal place, the player and
      the score; the prize line, present only with a prize, joins its parts
      with " + ". */
  lemma PodiumLinesContent(r: TournamentResult, shortAddress: Option<string> -> string,
                           formatScore: int -> string, formatClash: int -> string)
    ensures var lines := PodiumLines(r, shortAddress, formatScore, formatClash);
      && lines[0] == Branding.GetMedalEmoji(r.finalRank) + " **" + Ordinal(r.finalRank) + " Place: "
                     + ResultName(r, shortAddress) + "** — " + formatScore(r.finalScore) + " pts"
      && (r.prizeAwarded.Some? ==> lines[1] == "   → 🎁 " + Join(AwardParts(r.prizeAwarded.value, formatClash), " + "))
  {
  }

  function PodiumOf(shortAddress: Option<string> -> string, formatScore: int -> string,
                    formatClash: int -> string): TournamentResult -> seq<string> {
    r => PodiumLines(r, shortAddress, formatScore, formatClash)
  }

  /** The podium block: the lines of each given result, in array order. */
  function PodiumBlock(podium: seq<TournamentResult>, shortAddress: Option<string> -> string,
                       formatScore: int -> string, formatClash: int -> string): seq<string> {
    FlatMap(podium, PodiumOf(shortAddress, formatScore, formatClash))
  }

  /** Podium lines grow with the prizes: two per result plus one per prize. */
  lemma PodiumBlockSize(podium: seq<TournamentResult>, shortAddress: Option<string> -> string,
                        formatScore: int -> string, formatClash: int -> string)
    ensures 2 * |podium| <= |PodiumBlock(podium, shortAddress, formatScore, formatClash)| <= 3 * |podium|
  {
    FlatMapBounds(podium, PodiumOf(shortAddress, formatScore, formatClash), 2, 3);
  }

  /** The results whose final rank is in lo..hi, in array order. */
  function RankTier(results: seq<TournamentResult>, lo: int, hi: int): (r: seq<TournamentResult>)
    ensures forall x :: x in r <==> x in results && lo <= x.finalRank <= hi
    ensures |r| <= |results|
  {
    var p := (r: TournamentResult) => lo <= r.finalRank <= hi;
    FilterMembers(results, p);
    Filter(results, p)
  }

  /** The tier keeps every copy of a result in the rank range and no copy
      of any other. */
  lemma RankTierCounts(results: seq<TournamentResult>, lo: int, hi: int)
    ensures forall x :: multiset(RankTier(results, lo, hi))[x] == if lo <= x.finalRank <= hi then multiset(results)[x] else 0
  {
    FilterMultiset(results, (r: TournamentResult) => lo <= r.finalRank <= hi);
  }

  /** The tier keeps array order: the tier of a concatenation is the tier of
      the first part followed by the tier of the second, and a single
      result forms its own tier exactly when its rank is in range. */
  lemma RankTierOrder(a: seq<TournamentResult>, b: seq<TournamentResult>, x: TournamentResult, lo: int, hi: int)
    ensures RankTier(a + b, lo, hi) == RankTier(a, lo, hi) + RankTier(b, lo, hi)
    ensures RankTier([x], lo, hi) == if lo <= x.finalRank <= hi then [x] else []
  {
    FilterAppend(a, b, (r: TournamentResult) => lo <= r.finalRank <= hi);
    assert [x][..0] == [];
  }

  /** `r.prizeAwarded?.clashTokens || 0` */
  function AwardedClash(r: TournamentResult): int {
    match r.prizeAwarded
    case Some(p) => p.clashTokens
    case None => 0
  }

  function MidTierRow(r: TournamentResult, shortAddress: Option<string> -> string,
                      formatScore: int -> string, formatClash: int -> string): string {
    "   " + IntToString(r.finalRank) + ". " + ResultName(r, shortAddress) + " — " + formatScore(r.finalScore)
      + " pts → " + formatClash(AwardedClash(r)) + " $CLASH"
  }

  function LowTierRow(r: TournamentResult, shortAddress: Option<string> -> string, formatScore: int -> string): string {
    "   " + IntToString(r.finalRank) + ". " + ResultName(r, shortAddress) + " — " + formatScore(r.finalScore)
      + " pts → 3,000 $CLASH"
  }

  /** A titled section: nothing for no rows, else title, rows, blank line. */
  function Section(title: string, rows: seq<string>): (r: seq<string>)
    ensures rows == [] ==> r == []
    ensures rows != [] ==> |r| == |rows| + 2 && r[0] == title && r[1..|r| - 1] == rows && r[|r| - 1] == ""
  {
    if rows == [] then [] else [title] + rows + [""]
  }

  function MidTierRowOf(shortAddress: Option<string> -> string, formatScore: int -> string,
                        formatClash: int -> string): TournamentResult -> string {
    r => MidTierRow(r, shortAddress, formatScore, formatClash)
  }

  function LowTierRowOf(shortAddress: Option<string> -> string, formatScore: int -> string): TournamentResult -> string {
    r => LowTierRow(r, shortAddress, formatScore)
  }

  function MidTierRows(tier: seq<TournamentResult>, shortAddress: Option<string> -> string,
                       formatScore: int -> string, formatClash: int -> string): (r: seq<string>)
    ensures |r| == |tier|
    ensures forall i :: 0 <= i < |tier| ==> r[i] == MidTierRow(tier[i], shortAddress, formatScore, formatClash)
  {
    Map(tier, MidTierRowOf(shortAddress, formatScore, formatClash))
  }

  function LowTierRows(tier: seq<TournamentResult>, shortAddress: Option<string> -> string,
                       formatScore: int -> string): (r: seq<string>)
    ensures |r| == |tier|
    ensures forall i :: 0 <= i < |tier| ==> r[i] == LowTierRow(tier[i], shortAddress, formatScore)
  {
    Map(tier, LowTierRowOf(shortAddress, formatScore))
  }

  /** The 11th-50th summary: a count, not a list. */
  function SummarySection(count: nat): (r: seq<string>)
    ensures count == 0 <==> r == []
    ensures count > 0 ==> r[0] == "**11th-50th Place:** " + NatToString(count) + " players → 1,500 $CLASH each"
  {
    if count > 0 then ["**11th-50th Place:** " + NatToString(count) + " players → 1,500 $CLASH each", ""] else []
  }

  /** The "4th-5th Place" section: each such result with its $CLASH award. */
  function MidTierSection(results: seq<TournamentResult>, shortAddress: Option<string> -> string,
                          formatScore: int -> string, formatClash: int -> string): seq<string> {
    Section("**4th-5th Place:**", MidTierRows(RankTier(results, 4, 5), shortAddress, formatScore, formatClash))
  }

  /** The "6th-10th Place" section: each such result with the fixed award. */
  function LowTierSection(results: seq<TournamentResult>, shortAddress: Option<string> -> string,
                          formatScore: int -> string): seq<string> {
    Section("**6th-10th Place:**", LowTierRows(RankTier(results, 6, 10), shortAddress, formatScore))
  }

  /** The description lines of TournamentResultsEmbed. */
  function ResultsLines(results: seq<TournamentResult>, shortAddress: Option<string> -> string,
                        formatScore: int -> string, formatClash: int -> string): seq<string> {
    var top := if |results| < 3 then |results| else 3;
    PodiumBlock(results[..top], shortAddress, formatScore, formatClash)
      + MidTierSection(results, shortAddress, formatScore, formatClash)
      + LowTierSection(results, shortAddress, formatScore)
      + SummarySection(|RankTier(results, 11, 50)|)
  }

  /** The `lines.push` sequence of TournamentResultsEmbed. */
  method BuildResultsLines(results: seq<TournamentResult>, shortAddress: Option<string> -> string,
                           formatScore: int -> string, formatClash: int -> string)
    returns (lines: seq<string>)
    ensures lines == ResultsLines(results, shortAddress, formatScore, formatClash)
  {
    lines := PodiumPushes(results, shortAddress, formatScore, formatClash);
    lines := PushMidTier(lines, results, shortAddress, formatScore, formatClash);
    lines := PushLowTier(lines, results, shortAddress, formatScore);
    lines := PushSummary(lines, results);
  }

  /** The podium loop: the lines of the first min(3, n) results. */
  method PodiumPushes(results: seq<TournamentResult>, shortAddress: Option<string> -> string,
                      formatScore: int -> string, formatClash: int -> string)
    returns (r: seq<string>)
    ensures var top := if |results| < 3 then |results| else 3;
      r == PodiumBlock(results[..top], shortAddress, formatScore, formatClash)
  {
    var top := if |results| < 3 then |results| else 3;
    r := AppendFlatMapped([], results[..top], PodiumOf(shortAddress, formatScore, formatClash));
  }

  method PushMidTier(lines: seq<string>, results: seq<TournamentResult>, shortAddress: Option<string> -> string,
                     formatScore: int -> string, formatClash: int -> string)
    returns (r: seq<string>)
    ensures r == lines + MidTierSection(results, shortAddress, formatScore, formatClash)
  {
    r := lines;
    var tier2 := RankTier(results, 4, 5);
    if |tier2| > 0 {
      r := r + ["**4th-5th Place:**"];
      r := AppendMapped(r, tier2, MidTierRowOf(shortAddress, formatScore, formatClash));
      r := r + [""];
    }
  }

  method PushLowTier(lines: seq<string>, results: seq<TournamentResult>, shortAddress: Option<string> -> string,
                     formatScore: int -> string)
    returns (r: seq<string>)
    ensures r == lines + LowTierSection(results, shortAddress, formatScore)
  {
    r := lines;
    var tier3 := RankTier(results, 6, 10);
    if |tier3| > 0 {
      r := r + ["**6th-10th Place:**"];
      r := AppendMapped(r, tier3, LowTierRowOf(shortAddress, formatScore));
      r := r + [""];
    }
  }

  method PushSummary(lines: seq<string>, results: seq<TournamentResult>) returns (r: seq<string>)
    ensures r == lines + SummarySection(|RankTier(results, 11, 50)|)
  {
    r := lines;
    var tier4 := RankTier(results, 11, 50);
    if |tier4| > 0 {
      r := r + ["**11th-50th Place:** " + NatToString(|tier4|) + " players → 1,500 $CLASH each"];
      r := r + [""];
    }
  }

  /** Lines a section of n rows takes. */
  function SectionSize(n: nat): nat {
    if n == 0 then 0 else n + 2
  }

  /** The podium block comes first and covers the first min(3, n) results;
      each tier section then takes its rows plus a title and a blank line, and
      the summary two lines when anyone placed 11th-50th. */
  lemma ResultsLinesShape(results: seq<TournamentResult>, shortAddress: Option<string> -> string,
                          formatScore: int -> string, formatClash: int -> string)
    ensures var top := if |results| < 3 then |results| else 3;
            var lines := ResultsLines(results, shortAddress, formatScore, formatClash);
            var podium := PodiumBlock(results[..top], shortAddress, formatScore, formatClash);
      && 2 * top <= |podium| <= 3 * top
      && lines[..|podium|] == podium
      && |lines| == |podium| + SectionSize(|RankTier(results, 4, 5)|) + SectionSize(|RankTier(results, 6, 10)|)
                    + (if |RankTier(results, 11, 50)| > 0 then 2 else 0)
  {
    var top := if |results| < 3 then |results| else 3;
    var podium := PodiumBlock(results[..top], shortAddress, formatScore, formatClash);
    var mid := MidTierSection(results, shortAddress, formatScore, formatClash);
    var low := LowTierSection(results, shortAddress, formatScore);
    var summary := SummarySection(|RankTier(results, 11, 50)|);
    PodiumBlockSize(results[..top], shortAddress, formatScore, formatClash);
    AppendAssociative(podium, mid, low, summary);
    assert |mid| == SectionSize(|RankTier(results, 4, 5)|);
    assert |low| == SectionSize(|RankTier(results, 6, 10)|);
  }

  /** `results.length > 0 ? results[0].totalParticipants : 0` */
  function ParticipantsField(results: seq<TournamentResult>): (r: string)
    ensures results == [] ==> r == "0"
    ensures results != [] ==> r == IntToString(results[0].totalParticipants)
  {
    IntToString(if |results| > 0 then results[0].totalParticipants else 0)
  }

  /** The prize-pool field: token and NFT totals over all prizes. */
  function PoolField(prizes: seq<Prize>, formatClash: int -> string, nftLabel: string): (r: string)
    ensures r == formatClash(Sum(ClashAmounts(prizes))) + " $CLASH + " + IntToString(Sum(NftCounts(prizes))) + nftLabel
  {
    PrizePoolIsSum(prizes);
    var pool := GetTotalPrizePool(prizes);
    formatClash(pool.totalClash) + " $CLASH + " + IntToString(pool.totalNFTs) + nftLabel
  }

  // ==================== PRIZE STRUCTURE ====================

  const MaxPrizeLines: nat := 15

  /** NFT part only if any (plural above one); the $CLASH part always. */
  function PrizeParts(p: Prize, formatClash: int -> string): (r: seq<string>)
    ensures |r| == if p.patronNFTs > 0 then 2 else 1
    ensures r[|r| - 1] == formatClash(p.clashTokens) + " $CLASH"
    ensures p.patronNFTs > 0 ==> r[0] == IntToString(p.patronNFTs) + " NFT" + (if p.patronNFTs > 1 then "s" else "")
  {
    (if p.patronNFTs > 0 then [IntToString(p.patronNFTs) + " NFT" + (if p.patronNFTs > 1 then "s" else "")] else [])
    + [formatClash(p.clashTokens) + " $CLASH"]
  }

  function PrizeLine(p: Prize, formatClash: int -> string): string {
    Branding.GetMedalEmoji(p.position) + " **#" + IntToString(p.position) + "** → " + Join(PrizeParts(p, formatClash), " + ")
  }

  function PrizeLineOf(formatClash: int -> string): Prize -> string {
    p => PrizeLine(p, formatClash)
  }

  function PrizeLines(prizes: seq<Prize>, formatClash: int -> string): (r: seq<string>)
    ensures |r| == |prizes|
    ensures forall i :: 0 <= i < |prizes| ==> r[i] == PrizeLine(prizes[i], formatClash)
  {
    Map(prizes, PrizeLineOf(formatClash))
  }

  /** The summary after the first 15 prizes: present exactly when there are
      more, naming the last prize's position and the 16th prize's amount. */
  function PrizeSummary(prizes: seq<Prize>, formatClash: int -> string): (r: seq<string>)
    ensures r == [] <==> |prizes| <= MaxPrizeLines
    ensures |prizes| > MaxPrizeLines ==>
      r == ["**#16-#" + IntToString(prizes[|prizes| - 1].position) + "** → "
            + formatClash(prizes[MaxPrizeLines].clashTokens) + " $CLASH each"]
  {
    if |prizes| > MaxPrizeLines
    then ["**#16-#" + IntToString(prizes[|prizes| - 1].position) + "** → "
          + formatClash(prizes[MaxPrizeLines].clashTokens) + " $CLASH each"]
    else []
  }

  /** The description lines of PrizesEmbed: a line for each of the first 15
      prizes, then the summary. */
  method BuildPrizesLines(prizes: seq<Prize>, formatClash: int -> string) returns (lines: seq<string>)
    ensures lines == PrizeLines(Take(prizes, MaxPrizeLines), formatClash) + PrizeSummary(prizes, formatClash)
  {
    lines := AppendMapped([], Take(prizes, MaxPrizeLines), PrizeLineOf(formatClash));
    if |prizes| > MaxPrizeLines {
      var remaining := prizes[MaxPrizeLines..];
      var clashPerPlayer := remaining[0].clashTokens;
      lines := lines + ["**#16-#" + IntToString(prizes[|prizes| - 1].position) + "** → "
                        + formatClash(clashPerPlayer) + " $CLASH each"];
    }
  }

  /** At most 15 detailed lines, and one more exactly when there are more
      than 15 prizes. */
  lemma PrizesLineCount(prizes: seq<Prize>, formatClash: int -> string)
    ensures var lines := PrizeLines(Take(prizes, MaxPrizeLines), formatClash) + PrizeSummary(prizes, formatClash);
      && |lines| == (if |prizes| < MaxPrizeLines then |prizes| else MaxPrizeLines)
                    + (if |prizes| > MaxPrizeLines then 1 else 0)
      && (forall i :: 0 <= i < |lines| && i < MaxPrizeLines ==> lines[i] == PrizeLine(prizes[i], formatClash))
  {
  }

  /** The default table lists positions 1-15 and summarises 16-50 at 1,500. */
  lemma DefaultPrizesSummary(formatClash: int -> string)
    ensures var d := DefaultPrizes();
      |d| > MaxPrizeLines && d[|d| - 1].position == 50 && d[MaxPrizeLines].clashTokens == 1500
  {
  }
}
