# crypto-clash-bot core, modelled in Dafny

This project models the logic of the crypto-clash-bot Discord bot, mostly its
weekly trading tournaments:

- how hourly score samples become tournament standings;
- which lifecycle announcements are due on each 15-minute tick, and what each one sends;
- how the pinned standings message is kept current;
- the text of the Discord embeds, the tweets (through the Popching API) and the Telegram messages.

Beside the tournaments it models:

- the trader leaderboard service and its embeds;
- the bot registry (BotManager);
- the brand lookups (medals, asset colours).

MongoDB collections are `seq`s of records in store order. Timestamps are `int`
milliseconds and scores are `int`. Every external step is an injected
outcome, `Outcome<T> = Ok(value) | Throw`. These steps are:

- a store query;
- a Discord channel fetch, send, edit or pin;
- a Popching request;
- a Telegram request;
- a bot login.

Mutable state is modelled with classes:

- the bot registry is a `class Manager` whose `bots` field holds the map in insertion order;
- the module-level `postedResults` set and `pinnedMessageId` of the scheduler are fields of `class Scheduler`, next to the tournament store and a log of the effects performed;
- an EmbedBuilder is a `class Embed`.

Each scheduler method is proved equal to a state-transition function. The
lifecycle properties are lemmas about those functions.

Modules, one per source file, plus four support modules:

| module | source |
|---|---|
| `TournamentReportService` | src/services/TournamentReportService.ts |
| `TournamentSchedule` | src/schedule/tournamentSchedule.ts |
| `TournamentReport` | src/templates/tournamentReport.ts |
| `PopchingService` | src/services/PopchingService.ts |
| `TelegramService` | src/services/TelegramService.ts |
| `BotManager` | src/core/BotManager.ts |
| `LeaderboardService` | src/services/LeaderboardService.ts |
| `LeaderboardTemplate` | src/templates/leaderboard.ts |
| `Branding` | src/constants/branding.ts |
| `Calendar` | the UTC calendar behind `getUTCMonth`/`getUTCDate` |
| `Uri` | ECMAScript `encodeURIComponent` / `decodeURIComponent` (ECMA-262, section 18.2.6) |
| `Wrappers`, `Seqs`, `Text` | Option/Outcome, sequence helpers (filter, stable sort, map), string helpers (padStart/padEnd, decimal rendering, lower-casing) |

JavaScript semantics written out explicitly:

- `%` truncates toward zero (`TournamentReport.JsRem`).
- `Math.round(x)` is `floor(x + 1/2)` (`PopchingService.RoundedDays`).
- Truthiness of strings (`Wrappers.Truthy`: absent or empty is falsy) and the `||` fallbacks.
- Object and Map insertion order.
- `Array.prototype.sort` is stable. It is modelled as a stable insertion sort of indices.

## Model

| member | source | states |
|---|---|---|
| `TournamentReportService.FindActive` | src/services/TournamentReportService.ts:71-77 | getActiveTournament finds the first record with status 'active' in store order, and returns none exactly when no record is active |
| `TournamentReportService.GetUpcomingTournaments` | src/services/TournamentReportService.ts:82-90 | exactly the upcoming records, each as many times as it is stored (the same multiset), in non-decreasing startDate order |
| `TournamentReportService.GetRecentlyFinalized` | src/services/TournamentReportService.ts:105-127 | the loop that counts result rows per ended record returns the two-filter specification `RecentlyFinalized` |
| `TournamentReportService.RecentlyFinalizedMembers` | src/services/TournamentReportService.ts:105-127 | a tournament is returned iff it is stored, has status 'ended', ended no more than 24 hours ago and has at least one result row |
| `TournamentReportService.FinalizationGating` | src/services/TournamentReportService.ts:107-124 | an ended tournament with results that ended 23 hours ago is returned; with no results, or an end 25 hours ago, it is not |
| `TournamentReportService.GetTournamentResults` | src/services/TournamentReportService.ts:209-217 | returns min(|limit|, count) result rows of this tournament, or all of them for limit 0 (a cursor limit of 0 means none and a negative one counts as its absolute value). They are a sub-multiset of the stored rows, in non-decreasing finalRank order, and every row left out ranks no lower than the last one kept |
| `TournamentReportService.ResultsAllKept` | src/services/TournamentReportService.ts:209-217 | with limit 0, or a limit at least the row count, every row of the tournament comes back, as often as it is stored |
| `TournamentReportService.NoSamplesScoreZero` | src/services/TournamentReportService.ts:136-165 | a user without samples has cumulative score 0 |
| `TournamentReportService.LastOfDayExample` | src/services/TournamentReportService.ts:136-159 | samples 10 then 25 on one day and 5 on the next sum to 30: only the last sample of each day counts |
| `TournamentReportService.IsDayLastAppend` | src/services/TournamentReportService.ts:146-151 | a later sample of the same (lower-cased user, UTC day) replaces the previous `$last` and no other |
| `TournamentReportService.DayLastUnique` | src/services/TournamentReportService.ts:146-151 | each (user, day) group has exactly one kept sample |
| `TournamentReportService.AppendSample` | src/services/TournamentReportService.ts:136-159 | appending a sample changes only its user's score. The score grows by the sample's value on a new day, or by the difference from the replaced value on a day already seen |
| `TournamentReportService.LowerIds` | src/services/TournamentReportService.ts:147-158 | the grouped user ids are exactly the lower-cased ids that have samples |
| `TournamentReportService.ScoreGroups` | src/services/TournamentReportService.ts:136-159 | the pipeline yields one group per sampled user, each carrying that user's sum of daily last values |
| `TournamentReportService.CollectScores` | src/services/TournamentReportService.ts:162-165 | the map filled by the `forEach` gives, with the `\|\| 0` default, every user's cumulative score |
| `TournamentReportService.CollectNames` | src/services/TournamentReportService.ts:174-187 | the name map keeps, for each lower-cased id, the last matched player name that is non-empty |
| `TournamentReportService.RankingOrder` | src/services/TournamentReportService.ts:190-194 | the sort yields a sequence of registration indices, one per participant |
| `TournamentReportService.Leaderboard` | src/services/TournamentReportService.ts:132-204 | the specification of getLeaderboard has min(limit, participants) rows, with ranks 1..n in order |
| `TournamentReportService.GetLeaderboard` | src/services/TournamentReportService.ts:132-204 | the imperative getLeaderboard (two maps, the in-place sort, slice and map) returns `Leaderboard` |
| `TournamentReportService.LeaderboardSorted` | src/services/TournamentReportService.ts:190-194 | scores never increase down the table, and equal scores keep registration order |
| `TournamentReportService.LeaderboardRows` | src/services/TournamentReportService.ts:162-203 | every row is a registered participant of this tournament, matched case-insensitively, with its cumulative score (0 without samples) and its pick |
| `TournamentReportService.LeaderboardIsPermutation` | src/services/TournamentReportService.ts:190-203 | no participant appears twice, and with limit at least the participant count every participant appears |
| `TournamentReportService.LeaderboardTruncation` | src/services/TournamentReportService.ts:196 | a participant cut off by the limit scores no more than the last listed row |
| `TournamentReportService.GetPlayerStats` | src/services/TournamentReportService.ts:271-277 | returns an entry iff one of the top 999 rows matches the wallet case-insensitively; the entry returned is the first such row |
| `TournamentReportService.PlayerStatsCaseInsensitive` | src/services/TournamentReportService.ts:271-277 | '0xABC' finds the row of participant '0xabc' |
| `TournamentReportService.GetTournamentDay` | src/services/TournamentReportService.ts:243-249 | the day is in 1..7: 1 during the first 24 hours, 7 from the sixth day on, and otherwise the day whose 24 hours contain now |
| `TournamentReportService.SplitRemaining` | src/services/TournamentReportService.ts:261-262 | whole days and hours (0..23) that fit in the remaining time |
| `TournamentReportService.GetTimeRemaining` | src/services/TournamentReportService.ts:254-266 | 'Ended' iff the end is not after now; otherwise the text ends in 'h' |
| `TournamentReportService.TimeRemainingShape` | src/services/TournamentReportService.ts:261-265 | the "Nd " part appears iff at least a full day remains, and the text ends with the hour count (below 24) and 'h' |
| `TournamentReportService.DefaultPrizes` | src/services/TournamentReportService.ts:282-291 | 50 prizes; prize i is the default for position i + 1 |
| `TournamentReportService.GetDefaultPrizes` | src/services/TournamentReportService.ts:282-291 | the pushes and `for` loops build `DefaultPrizes`, with positions 1..50 ascending |
| `TournamentReportService.PrizePoolAppend` | src/services/TournamentReportService.ts:296-304 | the pool of a concatenation is the sum of the two pools |
| `TournamentReportService.PrizePoolIsSum` | src/services/TournamentReportService.ts:296-304 | the `reduce` totals are the plain sums of the clash column and the NFT column |
| `TournamentReportService.FlatTierPool` | src/services/TournamentReportService.ts:287-289 | k positions paying c tokens and no NFT add k·c tokens |
| `TournamentReportService.DefaultPrizePool` | src/services/TournamentReportService.ts:282-304 | the default table pays 170000 $CLASH and 6 NFTs in total |
| `TournamentReportService.PrizesOrDefault` | src/schedule/tournamentSchedule.ts:264 | a tournament without its own prize table uses the default one |
| `TournamentSchedule.MarkAnnounced` | src/schedule/tournamentSchedule.ts:187-192 | `updateOne` sets the flag on the record with that id and leaves every other record as it was |
| `TournamentSchedule.MarkAnnouncedFlags` | src/schedule/tournamentSchedule.ts:187-192 | a flag write sets its flag, clears no flag and keeps every id |
| `TournamentSchedule.AnnouncementEmits` | src/schedule/tournamentSchedule.ts:157-192 | one announcement step only adds events about its own tournament, and touches neither postedResults nor the pinned id |
| `TournamentSchedule.AnnouncementIsolation` | src/schedule/tournamentSchedule.ts:172-185 | a thrown tweet or Telegram call changes nothing except the logged sink outcome: the flag write and the step's success are the same |
| `TournamentSchedule.AnnouncementFlagWrite` | src/schedule/tournamentSchedule.ts:163-192 | when the participant count, the channel fetch, the send (if the channel exists) and the DB write succeed, the step succeeds with the flag set, whatever the sinks did; a failed step leaves the store unchanged; a thrown channel fetch changes nothing at all |
| `TournamentSchedule.RunAbort` | src/schedule/tournamentSchedule.ts:194-196 | once a step throws, the tournaments after it are not visited in that tick |
| `TournamentSchedule.NewRunQuiet` | src/schedule/tournamentSchedule.ts:161 | a tournament whose creation flag is set gets no event from the loop |
| `TournamentSchedule.NewRunFlags` | src/schedule/tournamentSchedule.ts:187-192 | a creation flag write logged by the loop is reflected in the stored record |
| `TournamentSchedule.CreationAtMostOnce` | src/schedule/tournamentSchedule.ts:150-192 | after a tick that announced a tournament and wrote its flag, the next tick emits nothing about it, whatever the outcomes |
| `TournamentSchedule.NewRunIsolation` | src/schedule/tournamentSchedule.ts:157-192 | two runs of the loop that differ only in tweet and Telegram outcomes reach the same store (hence write the same flags) and the same success, and keep postedResults and the pinned id |
| `TournamentSchedule.AnnouncementFlagEvent` | src/schedule/tournamentSchedule.ts:187-192 | an announcement step that logs the flag write for its tournament leaves that tournament flagged in the store |
| `TournamentSchedule.FindActiveIgnoresFlags` | src/schedule/tournamentSchedule.ts:187-192 | writing an announcement flag does not change which tournament is active |
| `TournamentSchedule.LockAtMostOnce` | src/schedule/tournamentSchedule.ts:199-246 | once a lock check has written the lock flag, the next lock check changes nothing, whatever its outcomes |
| `TournamentSchedule.LockGating` | src/schedule/tournamentSchedule.ts:199-246 | anything happens only with an announce channel, an active tournament, no lock flag and now ≥ lockDate; before the lock date the state is unchanged; when all of that holds and no step throws, the lock post is sent and the flag set |
| `TournamentSchedule.TopPlayersShape` | src/schedule/tournamentSchedule.ts:284-287 | at most three players, in result order; the name falls back from playerName to the first 8 characters of userId to 'Unknown', and the score from finalScore to 0 |
| `TournamentSchedule.ResultsStepEmits` | src/schedule/tournamentSchedule.ts:258-302 | a results step adds only events about its tournament, keeps the store and only adds to postedResults; an id already posted is skipped |
| `TournamentSchedule.ResultsStepPosted` | src/schedule/tournamentSchedule.ts:268-302 | the id joins postedResults exactly when the step gets past both channel posts, after the tweet and Telegram sinks; a thrown sink does not prevent it |
| `TournamentSchedule.ResultsStepSucceeds` | src/schedule/tournamentSchedule.ts:263-302 | for an id not yet posted, the step succeeds, and the id joins postedResults, exactly when the results query succeeds, the results channel fetch succeeds with a send that succeeds if the channel exists, and, with an announce channel configured, the same holds for the announce channel |
| `TournamentSchedule.ResultsStepIsolation` | src/schedule/tournamentSchedule.ts:288-300 | two results steps that differ only in tweet and Telegram outcomes reach the same store, the same postedResults, the same pinned id and the same success |
| `TournamentSchedule.ResultsRunQuiet` | src/schedule/tournamentSchedule.ts:258-260 | an id already posted stays posted and gets no further event during the loop |
| `TournamentSchedule.ResultsAtMostOnce` | src/schedule/tournamentSchedule.ts:252-307 | once a tournament's results are posted, a later check adds no event about it |
| `TournamentSchedule.DailyStandingsPosts` | src/schedule/tournamentSchedule.ts:120-147 | standings are sent once, to the standings channel, exactly when the channel is set, a tournament is active and the fetch and send succeed; nothing else changes |
| `TournamentSchedule.FindBotMessage` | src/schedule/tournamentSchedule.ts:93-95 | the first pinned message written by the bot with at least one embed, or none iff there is no such message |
| `TournamentSchedule.PinnedEditRemembered` | src/schedule/tournamentSchedule.ts:58-86 | no channel or no active tournament: nothing happens; a successful edit of the remembered message ends the update without sending |
| `TournamentSchedule.PinnedFallback` | src/schedule/tournamentSchedule.ts:88-114 | on fallback the first bot message among the pins is edited and adopted; without one a new message is sent, and its id is remembered even when pinning fails |
| `TournamentSchedule.PinnedFailedEditForgets` | src/schedule/tournamentSchedule.ts:84-85 | after a failed edit of the remembered message, with the fallback failing too, the id is forgotten and nothing is emitted |
| `TournamentSchedule.Scheduler.constructor` | src/schedule/tournamentSchedule.ts:21-24 | a fresh process has posted nothing and knows no pinned message |
| `TournamentSchedule.Scheduler.Announce` | src/schedule/tournamentSchedule.ts:163-192 | the announcement body performs `Announcement` on the scheduler's state |
| `TournamentSchedule.Scheduler.CheckForNewTournaments` | src/schedule/tournamentSchedule.ts:149-197 | the loop performs `CheckNew` and is a no-op without an announce channel |
| `TournamentSchedule.Scheduler.CheckForLockedTournaments` | src/schedule/tournamentSchedule.ts:199-250 | the method performs `CheckLocked` |
| `TournamentSchedule.Scheduler.PostResults` | src/schedule/tournamentSchedule.ts:261-302 | one results iteration performs `ResultsStep` |
| `TournamentSchedule.Scheduler.CheckForFinalizedResults` | src/schedule/tournamentSchedule.ts:252-307 | the loop performs `CheckFinalized` |
| `TournamentSchedule.Scheduler.Tick` | src/schedule/tournamentSchedule.ts:34-38 | the 15-minute job runs new, locked and finalized checks in that order, each on the state the previous one left |
| `TournamentSchedule.Scheduler.PostStandings` | src/schedule/tournamentSchedule.ts:120-147 | performs `DailyStandings` and reports whether the body threw |
| `TournamentSchedule.Scheduler.PostDailyStandings` | src/schedule/tournamentSchedule.ts:120-147 | every failure is caught; the state is that of `DailyStandings` |
| `TournamentSchedule.Scheduler.TriggerStandingsPostAsWritten` | src/schedule/tournamentSchedule.ts:312-319 | as written, the trigger answers true whatever happened |
| `TournamentSchedule.Scheduler.TriggerStandingsPost` | src/schedule/tournamentSchedule.ts:312-319 | corrected: the trigger answers false exactly when the standings post failed |
| `TournamentSchedule.Scheduler.UpdatePinnedLeaderboard` | src/schedule/tournamentSchedule.ts:57-118 | the method performs `PinnedUpdate`, including the remembered pinned id |
| `TournamentSchedule.TriggerAfterFailedSend` | src/schedule/tournamentSchedule.ts:139-146 | a standings send that throws leaves the state unchanged and the post reported as failed |
| `TournamentReport.JsRem` | src/templates/tournamentReport.ts:360 | JavaScript's remainder: in [0, b) for a ≥ 0 and in (−b, 0] for a < 0 |
| `TournamentReport.OrdinalIsEnglish` | src/templates/tournamentReport.ts:358-362 | for n ≥ 0 the suffix-array trick gives the English ordinal suffix (th for 11-13 mod 100, else st/nd/rd by the last digit); negative numbers get 'th' |
| `TournamentReport.OrdinalSuffixExamples` | src/templates/tournamentReport.ts:358-362 | 1st 2nd 3rd 4th 11th 12th 13th 21st 22nd 23rd 101st 111th, and −1 gets 'th' |
| `TournamentReport.RankColumnAligned` | src/templates/tournamentReport.ts:59 | the rank is right-aligned in at least two columns: spaces, then its digits |
| `TournamentReport.NameColumnWidth` | src/templates/tournamentReport.ts:60 | the name column is exactly 20 characters: the name cut to 20, then padded with spaces |
| `TournamentReport.ScoreColumnAligned` | src/templates/tournamentReport.ts:61 | the score is right-aligned in at least seven columns |
| `TournamentReport.PickColumnShape` | src/templates/tournamentReport.ts:62-63 | the pick column is empty iff no asset was picked; otherwise it is the arrow, a space and the asset, and ▲ appears only for 'up' |
| `TournamentReport.StandingsRows` | src/templates/tournamentReport.ts:57-66 | one rendered row per entry, in leaderboard order |
| `TournamentReport.MoreLine` | src/templates/tournamentReport.ts:68-72 | the "...and N more" line appears iff there are more than 25 entries, with N = len − 25 |
| `TournamentReport.DailyStandingsLines` | src/templates/tournamentReport.ts:45-72 | the pushes of DailyStandingsEmbed build the headline and table given by `StandingsLines` |
| `TournamentReport.StandingsLinesShape` | src/templates/tournamentReport.ts:46-72 | headline and table head, then rows for the first min(len, 25) entries, the fence, and one more line iff len > 25 |
| `TournamentReport.AwardParts` | src/templates/tournamentReport.ts:140-145 | the podium prize line shows NFTs only if > 0 (plural above one) and $CLASH only if > 0 |
| `TournamentReport.PodiumLines` | src/templates/tournamentReport.ts:133-147 | a podium result takes two lines, or three with a prize; the last line is blank |
| `TournamentReport.PodiumLinesContent` | src/templates/tournamentReport.ts:135-139 | the podium headline is the medal, the ordinal place, the player and the score |
| `TournamentReport.PodiumBlockSize` | src/templates/tournamentReport.ts:133-147 | n podium results take between 2n and 3n lines |
| `TournamentReport.RankTier` | src/templates/tournamentReport.ts:150-177 | a tier holds exactly the results whose finalRank is in the range |
| `TournamentReport.RankTierCounts` | src/templates/tournamentReport.ts:150-177 | the tier holds every copy of an in-range result and no copy of any other |
| `TournamentReport.RankTierOrder` | src/templates/tournamentReport.ts:150-177 | the filter keeps array order: the tier of a + b is the tier of a followed by the tier of b, and a single result is kept iff its rank is in the range |
| `TournamentReport.Section` | src/templates/tournamentReport.ts:151-170 | an empty tier prints nothing; otherwise its title, its rows and a blank line |
| `TournamentReport.MidTierRows` | src/templates/tournamentReport.ts:153-159 | one row per 4th-5th place result, in order |
| `TournamentReport.LowTierRows` | src/templates/tournamentReport.ts:163-169 | one row per 6th-10th place result, in order |
| `TournamentReport.SummarySection` | src/templates/tournamentReport.ts:173-177 | the 11th-50th line is present iff such results exist, and it reports their count |
| `TournamentReport.BuildResultsLines` | src/templates/tournamentReport.ts:117-178 | the pushes of TournamentResultsEmbed build `ResultsLines` |
| `TournamentReport.PodiumPushes` | src/templates/tournamentReport.ts:133-147 | the podium loop pushes the lines of the first min(3, n) results by array position |
| `TournamentReport.PushMidTier` | src/templates/tournamentReport.ts:150-160 | appends the 4th-5th section |
| `TournamentReport.PushLowTier` | src/templates/tournamentReport.ts:161-170 | appends the 6th-10th section |
| `TournamentReport.PushSummary` | src/templates/tournamentReport.ts:173-177 | appends the 11th-50th summary for the count of such results |
| `TournamentReport.ResultsLinesShape` | src/templates/tournamentReport.ts:133-177 | the podium block comes first and covers the first min(3, n) results; each non-empty tier adds its rows plus two lines, and the summary adds two |
| `TournamentReport.ParticipantsField` | src/templates/tournamentReport.ts:190 | the participants field is results[0].totalParticipants, or 0 for no results |
| `TournamentReport.PoolField` | src/templates/tournamentReport.ts:182-200 | the pool field shows the sums of all prizes' tokens and NFTs |
| `TournamentReport.PrizeParts` | src/templates/tournamentReport.ts:303-306 | a prize line shows NFTs only if > 0 (plural above one), then always the $CLASH amount |
| `TournamentReport.PrizeLines` | src/templates/tournamentReport.ts:302-307 | one line per listed prize, in order |
| `TournamentReport.PrizeSummary` | src/templates/tournamentReport.ts:309-313 | the summary line is present iff there are more than 15 prizes, and it uses the last prize's position and the 16th prize's amount |
| `TournamentReport.BuildPrizesLines` | src/templates/tournamentReport.ts:299-313 | the pushes of PrizesEmbed give the lines of the first 15 prizes and the summary |
| `TournamentReport.PrizesLineCount` | src/templates/tournamentReport.ts:302-313 | at most 15 detailed lines, plus one iff there are more than 15 prizes |
| `TournamentReport.DefaultPrizesSummary` | src/templates/tournamentReport.ts:309-313 | the default table is summarised from the 16th prize (1500 $CLASH) up to position 50 |
| `PopchingService.FormatDateOfDate` | src/services/PopchingService.ts:61-64 | formatDate is the UTC month abbreviation, a space and the unpadded UTC day of month |
| `PopchingService.FormatDateExamples` | src/services/PopchingService.ts:61-64 | time 0 is 'Jan 1' and time −1 is 'Dec 31' |
| `PopchingService.RoundedDays` | src/services/PopchingService.ts:70 | Math.round of the day count: the result r satisfies r·day − day/2 ≤ diff < r·day + day/2 |
| `PopchingService.RoundedDaysExamples` | src/services/PopchingService.ts:70 | whole days stay; exactly half a day rounds up; a millisecond short of a whole day rounds to it |
| `PopchingService.RoundedDaysUnique` | src/services/PopchingService.ts:70 | the rounding is the only integer within half a day of the span |
| `PopchingService.WeekNumText` | src/services/PopchingService.ts:71 | a weekNumber that is missing or 0 renders as '?', any other as its decimal text |
| `PopchingService.ParsePairOfParam` | src/services/PopchingService.ts:56 | a `k=encodeURIComponent(v)` field parses back to (k, v) |
| `PopchingService.ParseQueryString` | src/services/PopchingService.ts:54-59 | the query string reads back as every parameter, in insertion order, with its original value |
| `PopchingService.PodiumText` | src/services/PopchingService.ts:128-131 | the podium text is present iff there are at least 3 top players |
| `PopchingService.BuildResultsParams` | src/services/PopchingService.ts:139-147 | the conditional writes of `imageParams` build `ResultsParams` |
| `PopchingService.ResultsParamsSlots` | src/services/PopchingService.ts:145-147 | the card carries s1/s2/s3 label and value exactly for the players that exist |
| `PopchingService.CreatePost` | src/services/PopchingService.ts:11-34 | createPost always sends the create request; it PATCHes only when the post was created and imageUrl is truthy; it returns null iff creation threw, gave no id, or the PATCH threw |
| `PopchingService.PublishPost` | src/services/PopchingService.ts:36-52 | publishPost returns the tweet id when the reply carries one, else null, including on exception |
| `PopchingService.PostFlowOrder` | src/services/PopchingService.ts:96-97 | publish is requested iff createPost returned an id, and only after the create request |
| `PopchingService.CreateAndPublish` | src/services/PopchingService.ts:96-97 | `createPost` then `if (postId) publishPost(postId)` performs the requests of `PostFlow` |
| `PopchingService.TweetNewTournament` | src/services/PopchingService.ts:66-98 | the creation tweet's text and card, from the rounded duration, the week number and the UTC dates |
| `PopchingService.TweetTournamentLocked` | src/services/PopchingService.ts:100-123 | the lock tweet's text and card |
| `PopchingService.TweetTournamentResults` | src/services/PopchingService.ts:125-153 | the results tweet's text and card |
| `Uri.Utf8RoundTrip` | src/services/PopchingService.ts:56 | the UTF-8 encoding used by encodeURIComponent decodes back to the code point |
| `Uri.EscapeAllRoundTrip` | src/services/PopchingService.ts:56 | "%XY" groups read back as the bytes they escape |
| `Uri.DecodeEncode` | src/services/PopchingService.ts:56 | decodeURIComponent undoes encodeURIComponent for every string |
| `Uri.EncodeAlphabet` | src/services/PopchingService.ts:56 | encoded text only holds unreserved characters and '%', so never '&' or '=' |
| `Uri.EncodeIdentity` | src/services/PopchingService.ts:56 | a string is its own encoding iff all its characters are unreserved; otherwise the encoding is longer |
| `Uri.EncodeExamples` | src/services/PopchingService.ts:56 | 'a b' encodes to 'a%20b' |
| `Uri.EncodeNonAscii` | src/services/PopchingService.ts:56 | 'é' encodes to '%C3%A9' |
| `Uri.EncodeSeparators` | src/services/PopchingService.ts:56 | 'a&b=c' encodes to 'a%26b%3Dc' |
| `Calendar.UtcDate` | src/services/PopchingService.ts:63 | the UTC date of a time value is a valid date whose day number is floor(t / 86400000) |
| `Calendar.UtcDateOfDay` | src/services/PopchingService.ts:63 | conversely, every instant of a valid date's day maps to that date |
| `Calendar.YearUnique` | src/services/PopchingService.ts:63 | exactly one year contains a given day |
| `Calendar.MonthUnique` | src/services/PopchingService.ts:63 | exactly one month contains a given day of the year |
| `Calendar.UtcDateExamples` | src/services/PopchingService.ts:63 | time 0 is 1 January 1970; time −1 is 31 December 1969 |
| `TelegramService.EscapeHtmlNoAngles` | src/services/TelegramService.ts:16-21 | escapeHtml output contains no '<' and no '>' |
| `TelegramService.EscapeHtmlPerChar` | src/services/TelegramService.ts:17-20 | replacing '&' first makes the chain a per-character escape, so produced entities are not escaped again |
| `TelegramService.UnescapeEscape` | src/services/TelegramService.ts:17-20 | decoding &lt;, &gt; and &amp; recovers the input |
| `TelegramService.EscapeHtmlIdentity` | src/services/TelegramService.ts:16-21 | escapeHtml leaves a string unchanged iff it has no '&', '<' or '>' |
| `TelegramService.EscapeHtmlAppend` | src/services/TelegramService.ts:16-21 | escaping distributes over concatenation |
| `TelegramService.SendMessage` | src/services/TelegramService.ts:23-53 | false with no token (and no request), false on exception or `ok: false`, true otherwise |
| `TelegramService.DateTextTba` | src/services/TelegramService.ts:66-68 | a missing date renders as 'TBA', a present one through formatDate |
| `TelegramService.TelegramNewTournament` | src/services/TelegramService.ts:63-80 | the creation message with the escaped name and dates; no request when TELEGRAM_CHANNEL_ID is unset |
| `TelegramService.TelegramTournamentLocked` | src/services/TelegramService.ts:82-96 | the lock message; no request when the channel is unset |
| `TelegramService.PodiumLines` | src/services/TelegramService.ts:104-108 | min(3, len) podium lines; line i is built from player i |
| `TelegramService.PodiumReadsBack` | src/services/TelegramService.ts:104-108 | the joined podium splits back into its min(3, len) lines; line i is medal i, the escaped name and the score of player i |
| `TelegramService.TelegramTournamentResults` | src/services/TelegramService.ts:98-119 | the results message with the podium; no request when the channel is unset |
| `BotManager.Find` | src/core/BotManager.ts:28-30 | the position of the bot with that name, none iff no bot has it |
| `BotManager.RegisterThenGet` | src/core/BotManager.ts:22-30 | after registering a new name, getBot finds the new bot under it, and every other name finds what it found before |
| `BotManager.BotsOfTypeExact` | src/core/BotManager.ts:36-42 | getBotsByType returns exactly the bots of that type |
| `BotManager.FirstOfTypeIsFirst` | src/core/BotManager.ts:44-52 | getMainBot and getTournamentBot return the first registered bot of the type, or undefined iff there is none |
| `BotManager.StatusCounts` | src/core/BotManager.ts:107-123 | total is the number of bots, online + offline = total, and offline counts exactly the bots that are not online |
| `BotManager.StartedOnline` | src/core/ManagedBot.ts:50-72 | a successful login brings a bot with a token online; a bot without a token is left as it was |
| `BotManager.Stopped` | src/core/ManagedBot.ts:74-81 | a stopped bot is offline and keeps its name, type and token |
| `BotManager.StartAllCounts` | src/core/BotManager.ts:54-77 | successful + failed is the number of bots, and a bot's record is a success exactly when it has a token and its login succeeds: a tokenless bot is recorded as a failure (skipped), as is a failed login |
| `BotManager.StartedAllKeys` | src/core/BotManager.ts:54-77 | startAll keeps the registry's names, hence its keys |
| `BotManager.Manager.constructor` | src/core/BotManager.ts:5-8 | a new manager has no bots |
| `BotManager.Manager.RegisterBot` | src/core/BotManager.ts:17-26 | a taken name throws and leaves the map unchanged; otherwise the new bot is appended and returned |
| `BotManager.Manager.StartAll` | src/core/BotManager.ts:54-77 | one record per bot, in order; a failed start does not stop later bots; the counts are those of the records |
| `BotManager.Manager.StartBot` | src/core/BotManager.ts:79-85 | an unknown name throws and changes nothing; otherwise only that bot is started |
| `BotManager.Manager.StopAll` | src/core/BotManager.ts:87-97 | every bot is stopped, so none is online |
| `BotManager.Manager.StopBot` | src/core/BotManager.ts:99-105 | an unknown name throws and changes nothing; otherwise only that bot is stopped |
| `BotManager.Process.GetInstance` | src/core/BotManager.ts:10-15 | the first call creates an empty manager; later calls return the same one |
| `BotManager.Process.GetInstanceTwice` | src/core/BotManager.ts:10-15 | two calls give the same instance |
| `LeaderboardService.WinRateBounds` | src/services/LeaderboardService.ts:65 | the win rate is 0 without trades, times the trades it equals wins·100, and it lies in [0, 100] when the wins are among the trades |
| `LeaderboardService.MapToLeaderboardEntriesShape` | src/services/LeaderboardService.ts:58-68 | the mapping keeps length and order, ranks by index + 1, copies the row's figures and computes the win rate |
| `LeaderboardService.MapToLeaderboardEntriesRanks` | src/services/LeaderboardService.ts:58-68 | ranks increase strictly, from 1 to the number of rows |
| `LeaderboardService.QueriesEmpty` | src/services/LeaderboardService.ts:20-56 | with the stub fetch, the top, bottom, daily and weekly queries all return [] |
| `LeaderboardService.MockAddressShape` | src/services/LeaderboardService.ts:74 | the mock address is '0x' and at least 40 decimal digits that read back as the rank |
| `LeaderboardService.MockEntryRanges` | src/services/LeaderboardService.ts:71-81 | without overrides the mock figures lie in the ranges the draws give |
| `LeaderboardService.MockEntryOverrides` | src/services/LeaderboardService.ts:71-81 | the overrides replace exactly the fields they set |
| `LeaderboardService.MockLeaderboardShape` | src/services/LeaderboardService.ts:84-94 | max(count, 0) entries ranked 1..count, with pnl in [10000, 110000) for the top board and in (−110000, −10000] for the bottom one |
| `LeaderboardService.GetMockLeaderboard` | src/services/LeaderboardService.ts:84-94 | the loop builds `MockLeaderboard` |
| `LeaderboardTemplate.Embed.constructor` | src/templates/leaderboard.ts:47 | a new embed has the given colour, no title, no fields and no footer |
| `LeaderboardTemplate.RowFields` | src/templates/leaderboard.ts:66-89 | each row is exactly three inline fields |
| `LeaderboardTemplate.RowFallbacks` | src/templates/leaderboard.ts:66-89 | the short address replaces a missing or empty name; winRate shows 'N/A' when undefined and its value with '%' otherwise; volume shows a zero-width space iff it is 0 or undefined; ranks 1-3 get their own medal |
| `LeaderboardTemplate.RowsFieldsCount` | src/templates/leaderboard.ts:66-89 | n rows add 3n fields |
| `LeaderboardTemplate.AddLeaderboardRow` | src/templates/leaderboard.ts:66-89 | addLeaderboardRow appends the row's fields and changes nothing else of the embed |
| `LeaderboardTemplate.AddRows` | src/templates/leaderboard.ts:35-37 | the `forEach` appends the rows of the entries, in order |
| `LeaderboardTemplate.ChunksCount` | src/templates/leaderboard.ts:45-56 | there are ceil(n / 5) chunks |
| `LeaderboardTemplate.ChunkAt` | src/templates/leaderboard.ts:46 | chunk j is `slice(5j, 5j + 5)` and holds one to five entries |
| `LeaderboardTemplate.ChunksConcat` | src/templates/leaderboard.ts:43-56 | concatenating the chunks gives the remaining entries back, in order |
| `LeaderboardTemplate.ThemeChoice` | src/templates/leaderboard.ts:22-31 | isTop selects the SUCCESS colour, the trophy and the profit header; otherwise DANGER, the skull and the loss header; the two themes differ |
| `LeaderboardTemplate.EmbedsCoverEntries` | src/templates/leaderboard.ts:21-56 | the first embed's five entries followed by the chunks give all entries in order; the embed count is 1 + ceil(max(0, n−5)/5) |
| `LeaderboardTemplate.FirstEmbed` | src/templates/leaderboard.ts:21-37 | the first embed has the title, the three header fields and the rows of the first min(5, n) entries |
| `LeaderboardTemplate.ChunkEmbeds` | src/templates/leaderboard.ts:43-56 | one new untitled embed per chunk, holding that chunk's rows |
| `LeaderboardTemplate.MarkLast` | src/templates/leaderboard.ts:57-61 | the footer goes on the last embed and nothing else of any embed changes |
| `LeaderboardTemplate.LeaderboardEmbed` | src/templates/leaderboard.ts:16-64 | builds distinct new embeds forming a `Board`: 1 + ceil(max(0, n−5)/5) embeds, even for no entries; all in the theme colour; only the last has the footer; the first titled with the icon and the title, holding the header and the first five rows; each later one untitled, holding the rows of its chunk |
| `LeaderboardTemplate.BoardShowsEveryRow` | src/templates/leaderboard.ts:21-64 | below the header, a board's embeds hold the row of every entry exactly once, in entry order |
| `LeaderboardTemplate.TopTradersEmbed` | src/templates/leaderboard.ts:91-93 | the top board for the entries: the trophy title, the SUCCESS colour, the profit header, and LeaderboardEmbed's layout of rows, chunks and footer |
| `LeaderboardTemplate.BottomTradersEmbed` | src/templates/leaderboard.ts:95-97 | the bottom board for the entries: the skull title, the DANGER colour, the loss header, and LeaderboardEmbed's layout of rows, chunks and footer |
| `LeaderboardTemplate.DailyLeaderboardEmbed` | src/templates/leaderboard.ts:99-101 | the daily board for the entries: a top-trader board titled 'Daily Leaderboard - ' and the date, with LeaderboardEmbed's layout of rows, chunks and footer |
| `LeaderboardTemplate.WeeklyLeaderboardEmbed` | src/templates/leaderboard.ts:103-105 | the weekly board for the entries: a top-trader board titled 'Weekly Leaderboard - ' and the week range, with LeaderboardEmbed's layout of rows, chunks and footer |
| `Branding.GetMedalEmoji` | src/constants/branding.ts:54-64 | 🥇, 🥈 and 🥉 exactly for positions 1, 2 and 3; 🏅 for every other number, including 0 and negatives |
| `Branding.GetAssetColor` | src/constants/branding.ts:67-69 | corrected: the table colour for a listed symbol (case-insensitively), else COLORS.PRIMARY |
| `Branding.AssetColorCaseInsensitive` | src/constants/branding.ts:68 | symbols equal up to case get the same colour |
| `Branding.AssetColorTable` | src/constants/branding.ts:19-25 | the five listed assets map to their table colours; an unknown one gets PRIMARY |
| `Branding.AssetColorPrototypeLeak` | src/constants/branding.ts:68 | as written, 'Constructor' yields the Object function and '\_\_proto\_\_' the prototype object, not a colour |
| `Branding.AssetColorAgreesOnStrings` | src/constants/branding.ts:67-69 | where the as-written lookup yields a string, it is the corrected colour |

## Left out

- Discord plumbing is not modelled: clients, channels and EmbedBuilder setters beyond colour, title, fields and footer. Commands, handlers, bot setup, the price and tweet-mirror services, and the MongoDB driver are also left out. src/discord, src/bot.ts, src/app.ts, src/services/db.ts, src/services/PriceService.ts and src/services/TweetMirrorService.ts are not part of this model.
- The timers and cron jobs of `startTournamentSchedule` (src/schedule/tournamentSchedule.ts:26-55) are left out, and so is any interleaving between jobs. The 15-minute job is modelled as `Scheduler.Tick`.
- Floating-point rendering is a function parameter: toFixed, toLocaleString, formatScore, formatClash, formatPnL, formatUSD and shortAddress. So is Telegram's locale date format. Fractional numbers are `real`s, not IEEE doubles.
- `Math.random()` draws are parameters assumed to lie in [0, 1). The mock generator's pnl draws and its per-entry draws are separate sequences, so their interleaving in one random stream is not modelled.
- Store queries the scheduler makes for the standings and the pinned message (leaderboard, day, time) are not modelled as failing; only the participant count and the results query carry injected failures. Failures of getActiveTournament, getUpcomingTournaments and getRecentlyFinalized are not modelled.
- `getTournament` and `isFinalized` (src/services/TournamentReportService.ts:95-100, 232-238) and `BotManager.getClient` (src/core/BotManager.ts:32-34) are single store or map lookups that no modelled code calls. They are left out.
- Mongo `$sort` by hour followed by `$last`: between two samples of the same hour, the one later in store order is taken.
- Scores (`totalScore`, `finalScore`) are integers, so `finalScore || 0` only covers an absent score.
- Dates in TournamentInfo are optional time values. The string form that Telegram's formatDate also accepts is not modelled.
- `updateOne({_id})` is modelled as setting the flag on every record with that id. Ids are assumed unique in practice, but this is not required.
- A bot's client is not modelled as an object, so aliasing between the map's values and other holders is not captured. A failing `destroy()` in stopAll and stopBot is not modelled.
- An override key present with the value `undefined` in createMockEntry is treated like a missing key.
- `encodeURIComponent` on lone surrogates (which throws URIError) is not modelled, because Dafny's `char` holds Unicode scalar values only.
- NameColumn (`TournamentReport.NameColumn`): counts Unicode scalar values, but JavaScript's `slice(0, 20)` and `padEnd(20)` count UTF-16 code units. A character outside the Basic Multilingual Plane, such as an emoji, is one unit here and two there. A name of eleven 🔥 gives eleven 🔥 and nine spaces here; in JavaScript it is cut to ten 🔥 with no padding.
- NameColumnWidth (`TournamentReport.NameColumnWidth`): the width of 20 is in Unicode scalar values, not UTF-16 code units, for the reason given for NameColumn.
- ToLower (`Text.ToLower`): folds only the ASCII letters A-Z. JavaScript's `toLowerCase` applies the full Unicode case mapping. For example, the Kelvin sign U+212A lower-cases to 'k' there and is left unchanged here. The same function lower-cases user ids and wallet addresses for the score grouping, the leaderboard and getPlayerStats (src/services/TournamentReportService.ts:174-200, 276). Those ids are hexadecimal addresses, so only ids with non-ASCII letters would be affected.
- GetAssetColor (`Branding.GetAssetColor`): uses ToLower, so a symbol that matches a table key only under full Unicode folding gets PRIMARY here. For example, "LIN" followed by the Kelvin sign gets PRIMARY here but LINK's colour in JavaScript.
- AssetColorCaseInsensitive (`Branding.AssetColorCaseInsensitive`): "equal up to case" means equal after ASCII folding, for the reason given for ToLower.
- The scheduler's `Env` gives a channel fetch, and likewise a send, one outcome per (channel, tournament id). So two fetches of the same channel for the same tournament in one tick get the same outcome, for example the creation announcement and the lock post of one tournament. Separate outcomes for each call are not modelled.
- Ties in a MongoDB sort (startDate, finalRank) are broken in store order, which MongoDB does not promise.
- Console logging is not modelled, except that the scheduler logs whether each tweet and Telegram sink call threw.

## Findings

| source | as written | input that shows it | evidently intended | confidence | as-written member | corrected member |
|---|---|---|---|---|---|---|
| src/constants/branding.ts:67-69 | `ASSET_COLORS[asset.toLowerCase()] \|\| COLORS.PRIMARY` also finds the properties every object inherits from Object.prototype | `getAssetColor('constructor')` returns the `Object` function, and `'__proto__'` returns the prototype object, instead of a colour string | unknown symbols, including these, get COLORS.PRIMARY | not executed | `Branding.AssetColorPrototypeLeak` | `Branding.GetAssetColor` |
| src/schedule/tournamentSchedule.ts:312-319 | `triggerStandingsPost` awaits `postDailyStandings`, which catches every error itself, so the catch that returns false is dead and the result is always true | an active tournament whose standings send throws: nothing is posted, yet the trigger answers true | false when the post failed | not executed | `TournamentSchedule.Scheduler.TriggerStandingsPostAsWritten` | `TournamentSchedule.Scheduler.TriggerStandingsPost` |
