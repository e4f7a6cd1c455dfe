/** The tweet pipeline of src/services/PopchingService.ts: tweet texts and
    image-card parameters for the three lifecycle events, the card URL, and
    the create-then-publish exchange with the posting service.  Each HTTP
    exchange is an injected outcome, and the requests sent are returned in
    order. */
module PopchingService {
  import opened Wrappers
  import opened Seqs
  import opened Text
  import Calendar
  import Uri
  import opened TournamentReportService

  // ==================== DATES AND NUMBERS ====================

  const MonthNames: seq<string> := ["Jan", "Feb", "Mar", "Apr", "May", "Jun", "Jul", "Aug", "Sep", "Oct", "Nov", "Dec"]

  /** `formatDate(new Date(t))`: UTC month abbreviation and day of month. */
  function FormatDate(t: int): string {
    var d := Calendar.UtcDate(t);
    MonthNames[d.month - 1] + " " + NatToString(d.day)
  }

  /** Any instant of a calendar day prints as that day's month and unpadded
      day number. */
  lemma FormatDateOfDate(d: Calendar.Date, t: int)
    requires Calendar.ValidDate(d) && t / Calendar.MsPerDay == Calendar.DayOfDate(d)
    ensures FormatDate(t) == MonthNames[d.month - 1] + " " + NatToString(d.day)
  {
    Calendar.UtcDateOfDay(d, t);
  }

  lemma FormatDateExamples()
    ensures FormatDate(0) == "Jan 1"
    ensures FormatDate(-1) == "Dec 31"
  {
    Calendar.UtcDateExamples();
    assert NatToString(1) == "1";
    assert NatToString(31) == "31";
  }

  /** `Math.round((end - start) / 86400000)`: the nearest whole number of
      days, halves rounded up. */
  function RoundedDays(diff: int): (r: int)
    ensures r * MsPerDay - MsPerDay / 2 <= diff < r * MsPerDay + MsPerDay / 2
  {
    (2 * diff + MsPerDay) / (2 * MsPerDay)
  }

  /** The rounding is exact on whole days, and the half-way point goes up. */
  lemma RoundedDaysExamples(k: int)
    ensures RoundedDays(k * MsPerDay) == k
    ensures RoundedDays(k * MsPerDay + MsPerDay / 2) == k + 1
    ensures RoundedDays(k * MsPerDay - 1) == k
  {
    RoundedDaysUnique(k * MsPerDay, k);
    RoundedDaysUnique(k * MsPerDay + MsPerDay / 2, k + 1);
    RoundedDaysUnique(k * MsPerDay - 1, k);
  }

  /** The bounds of RoundedDays determine it. */
  lemma RoundedDaysUnique(diff: int, k: int)
    requires k * MsPerDay - MsPerDay / 2 <= diff < k * MsPerDay + MsPerDay / 2
    ensures RoundedDays(diff) == k
  {
  }

  function DurationDays(t: Tournament): int {
    RoundedDays(t.endDate - t.startDate)
  }

  /** `tournament.weekNumber || '?'`: a missing week number and week 0 both
      print as "?". */
  function WeekNumText(weekNumber: Option<int>): (r: string)
    ensures r == "?" <==> weekNumber == None || weekNumber == Some(0)
    ensures r != "?" ==> r == IntToString(weekNumber.value)
  {
    if weekNumber.Some? && weekNumber.value != 0 then
      var w := weekNumber.value;
      assert IntToString(w)[0] != '?' by {
        if w >= 0 {
          assert IntToString(w) == NatToString(w);
        }
      }
      IntToString(w)
    else "?"
  }

  // ==================== CARD URL ====================

  /** `${k}=${encodeURIComponent(v)}`: the key is not encoded. */
  function ParamText(kv: (string, string)): string {
    kv.0 + "=" + Uri.Encode(kv.1)
  }

  /** The query string: the parameters in insertion order, joined by '&'. */
  function QueryString(params: seq<(string, string)>): string {
    Join(Map(params, ParamText), "&")
  }

  function BuildCcCardUrl(params: seq<(string, string)>): string {
    "/api/og/cc-card?" + QueryString(params)
  }

  /** A query-string reader: split on '&', then each field at its '=', and
      decode the value. */
  function ParsePair(field: string): (string, Option<string>) {
    if '=' in field then
      var i := LastIndex(field, '=');
      (field[..i], Uri.Decode(field[i + 1..]))
    else (field, None)
  }

  function ParseQuery(qs: string): seq<(string, Option<string>)> {
    Map(SplitOn(qs, '&'), ParsePair)
  }

  /** A key the card URL can carry unambiguously. */
  predicate PlainKey(k: string) {
    '&' !in k && '=' !in k
  }

  /** One field reads back as its key and decoded value. */
  lemma ParsePairOfParam(kv: (string, string))
    requires PlainKey(kv.0)
    ensures ParsePair(ParamText(kv)) == (kv.0, Some(kv.1))
  {
    var e := Uri.Encode(kv.1);
    var f := ParamText(kv);
    Uri.EncodeAlphabet(kv.1);
    assert '=' !in e by {
      forall j | 0 <= j < |e| ensures e[j] != '=' {
        assert Uri.Unreserved(e[j]) || e[j] == '%';
      }
    }
    assert f[|kv.0|] == '=' && f[..|kv.0|] == kv.0 && f[|kv.0| + 1..] == e;
    Uri.DecodeEncode(kv.1);
  }

  /** A field of a plain key holds no '&'. */
  lemma ParamTextPlain(kv: (string, string))
    requires PlainKey(kv.0)
    ensures '&' !in ParamText(kv)
  {
    var e := Uri.Encode(kv.1);
    Uri.EncodeAlphabet(kv.1);
    var f := ParamText(kv);
    assert f == kv.0 + "=" + e;
    forall j | 0 <= j < |f| ensures f[j] != '&' {
      if j > |kv.0| {
        assert f[j] == e[j - |kv.0| - 1];
      }
    }
  }

  /** Reading the query string back gives every parameter, in order, with its
      original value: the card URL loses nothing as long as the keys are
      plain. */
  lemma ParseQueryString(params: seq<(string, string)>)
    requires |params| >= 1
    requires forall k :: 0 <= k < |params| ==> PlainKey(params[k].0)
    ensures var parsed := ParseQuery(QueryString(params));
      |parsed| == |params| && forall k :: 0 <= k < |params| ==> parsed[k] == (params[k].0, Some(params[k].1))
  {
    var fields := Map(params, ParamText);
    forall k | 0 <= k < |fields| ensures '&' !in fields[k] {
      ParamTextPlain(params[k]);
    }
    SplitJoin(fields, '&');
    forall k | 0 <= k < |params| ensures ParsePair(fields[k]) == (params[k].0, Some(params[k].1)) {
      ParsePairOfParam(params[k]);
    }
  }

  // ==================== TWEETS ====================

  /** A top finisher as the results tweet gets it. */
  datatype TopPlayer = TopPlayer(name: string, score: int)

  function NewTournamentText(days: int, weekNum: string, startText: string, lockText: string): string {
    "🃏 Pick your heroes, choose your strategy, and let the market decide who wins. Best rank after "
      + IntToString(days) + " days, better prizes.\n\n⚔️ Weekly Tournament #" + weekNum + " starts " + startText
      + "\n\n🔒 Lock your cards by " + lockText
      + "\n🏆 Patron NFTs for top 3\n💰 $CLASH for top 50\n\nBuilt on @inkonchain\n\nJoin now 👉 cryptoclash.ink"
  }

  function NewTournamentParams(days: int, weekNum: string, startText: string, endText: string,
                               lockText: string): seq<(string, string)> {
    [("title", "Weekly Tournament #" + weekNum),
     ("subtitle", "LOCK YOUR CARDS BY " + ToUpper(lockText)),
     ("s1l", "STARTS"), ("s1v", startText),
     ("s2l", "ENDS"), ("s2v", endText),
     ("s3l", "DURATION"), ("s3v", IntToString(days) + " Days"),
     ("p1", "Patron NFTs (Top 3)"),
     ("p2", "$CLASH (Top 50)"),
     ("footer", "CRYPTOCLASH.INK")]
  }

  function LockedText(weekNum: string, participantCount: int): string {
    "🔒 Cards are locked for Weekly Tournament #" + weekNum + "!\n\n" + IntToString(participantCount)
      + " players have entered. The battle begins now ⚔️\n\nWho will climb the ranks? Follow the action at cryptoclash.ink"
  }

  function LockedParams(days: int, weekNum: string, participantCount: int): seq<(string, string)> {
    [("title", "Cards Locked! ⚔️"),
     ("subtitle", "THE BATTLE BEGINS"),
     ("s1l", "PLAYERS"), ("s1v", IntToString(participantCount)),
     ("s2l", "TOURNAMENT"), ("s2v", "Week " + weekNum),
     ("s3l", "DURATION"), ("s3v", IntToString(days) + " Days"),
     ("footer", "CRYPTOCLASH.INK")]
  }

  /** The podium paragraph: only with at least three top players. */
  function PodiumText(topPlayers: seq<TopPlayer>): (r: string)
    ensures r == "" <==> |topPlayers| < 3
  {
    if |topPlayers| >= 3
    then "\n\n🥇 " + topPlayers[0].name + "\n🥈 " + topPlayers[1].name + "\n🥉 " + topPlayers[2].name
    else ""
  }

  function ResultsText(weekNum: string, topPlayers: seq<TopPlayer>): string {
    "🏆 Weekly Tournament #" + weekNum + " is over!" + PodiumText(topPlayers)
      + "\n\nCongrats to all winners! Prizes incoming 🎁\n\nNext tournament coming soon. Build your deck 👉 cryptoclash.ink"
  }

  const SlotKeys: seq<(string, string)> := [("s1l", "s1v"), ("s2l", "s2v"), ("s3l", "s3v")]
  const SlotLabels: seq<string> := ["🥇 1ST", "🥈 2ND", "🥉 3RD"]

  /** The label and value fields of podium slot k (0-based). */
  function Slot(k: nat, p: TopPlayer): seq<(string, string)>
    requires k < 3
  {
    [(SlotKeys[k].0, SlotLabels[k]), (SlotKeys[k].1, p.name)]
  }

  /** The slots of the first n top players. */
  function Slots(topPlayers: seq<TopPlayer>, n: nat): seq<(string, string)>
    requires n <= |topPlayers| && n <= 3
  {
    if n == 0 then [] else Slots(topPlayers, n - 1) + Slot(n - 1, topPlayers[n - 1])
  }

  function ResultsParams(weekNum: string, topPlayers: seq<TopPlayer>): seq<(string, string)> {
    [("title", "Tournament #" + weekNum + " Results 🏆"), ("subtitle", "FINAL STANDINGS"), ("footer", "CRYPTOCLASH.INK")]
      + Slots(topPlayers, if |topPlayers| < 3 then |topPlayers| else 3)
  }

  /** The `imageParams` object of the results tweet, built property by
      property as the source does. */
  method BuildResultsParams(weekNum: string, topPlayers: seq<TopPlayer>) returns (imageParams: seq<(string, string)>)
    ensures imageParams == ResultsParams(weekNum, topPlayers)
  {
    imageParams := [("title", "Tournament #" + weekNum + " Results 🏆"), ("subtitle", "FINAL STANDINGS"),
                    ("footer", "CRYPTOCLASH.INK")];
    if |topPlayers| >= 1 {
      imageParams := imageParams + [("s1l", "🥇 1ST"), ("s1v", topPlayers[0].name)];
    }
    if |topPlayers| >= 2 {
      imageParams := imageParams + [("s2l", "🥈 2ND"), ("s2v", topPlayers[1].name)];
    }
    if |topPlayers| >= 3 {
      imageParams := imageParams + [("s3l", "🥉 3RD"), ("s3v", topPlayers[2].name)];
    }
    if |topPlayers| >= 1 {
      assert Slots(topPlayers, 1) == Slot(0, topPlayers[0]);
    }
    if |topPlayers| >= 2 {
      assert Slots(topPlayers, 2) == Slot(0, topPlayers[0]) + Slot(1, topPlayers[1]);
    }
    if |topPlayers| >= 3 {
      assert Slots(topPlayers, 3) == Slot(0, topPlayers[0]) + Slot(1, topPlayers[1]) + Slot(2, topPlayers[2]);
    }
  }

  /** The value of `key` in an object given as its entries. */
  function Lookup(params: seq<(string, string)>, key: string): Option<string> {
    if params == [] then None
    else if params[0].0 == key then Some(params[0].1)
    else Lookup(params[1..], key)
  }

  lemma {:induction false} LookupAppend(a: seq<(string, string)>, b: seq<(string, string)>, key: string)
    ensures Lookup(a + b, key) == if Lookup(a, key).Some? then Lookup(a, key) else Lookup(b, key)
    decreases |a|
  {
    if a == [] {
      assert a + b == b;
    } else if a[0].0 != key {
      assert (a + b)[0] == a[0];
      assert (a + b)[1..] == a[1..] + b;
      LookupAppend(a[1..], b, key);
    }
  }

  lemma {:induction false} LookupAbsent(params: seq<(string, string)>, key: string)
    requires forall i :: 0 <= i < |params| ==> params[i].0 != key
    ensures Lookup(params, key) == None
    decreases |params|
  {
    if params != [] {
      LookupAbsent(params[1..], key);
    }
  }

  lemma LookupPair(x: (string, string), y: (string, string), key: string)
    ensures Lookup([x, y], key) == if x.0 == key then Some(x.1) else if y.0 == key then Some(y.1) else None
  {
    assert [x, y][1..] == [y];
    assert [y][1..] == [];
    assert Lookup([y], key) == if y.0 == key then Some(y.1) else Lookup([], key);
  }

  /** Each slot key names its slot in its second character and its role
      (label or value) in its third. */
  lemma SlotKeyChars(k: nat)
    requires k < 3
    ensures |SlotKeys[k].0| == 3 && SlotKeys[k].0[1] == DigitChar(k + 1) && SlotKeys[k].0[2] == 'l'
    ensures |SlotKeys[k].1| == 3 && SlotKeys[k].1[1] == DigitChar(k + 1) && SlotKeys[k].1[2] == 'v'
  {
  }

  /** Slot k's value field holds the name of top player k exactly when that
      player exists; the other slot keys are absent. */
  lemma {:induction false} SlotsLookup(topPlayers: seq<TopPlayer>, n: nat, k: nat)
    requires n <= |topPlayers| && n <= 3 && k < 3
    ensures Lookup(Slots(topPlayers, n), SlotKeys[k].1) == if k < n then Some(topPlayers[k].name) else None
    ensures Lookup(Slots(topPlayers, n), SlotKeys[k].0) == if k < n then Some(SlotLabels[k]) else None
    decreases n
  {
    if n > 0 {
      var slot := Slot(n - 1, topPlayers[n - 1]);
      SlotsLookup(topPlayers, n - 1, k);
      LookupAppend(Slots(topPlayers, n - 1), slot, SlotKeys[k].1);
      LookupAppend(Slots(topPlayers, n - 1), slot, SlotKeys[k].0);
      LookupPair(slot[0], slot[1], SlotKeys[k].0);
      LookupPair(slot[0], slot[1], SlotKeys[k].1);
      assert slot == [slot[0], slot[1]];
      SlotKeyChars(k);
      SlotKeyChars(n - 1);
      assert SlotKeys[n - 1].0 != SlotKeys[k].1 && SlotKeys[n - 1].1 != SlotKeys[k].0 by {
        assert SlotKeys[n - 1].0[2] != SlotKeys[k].1[2];
      }
      assert k != n - 1 ==> SlotKeys[n - 1].0 != SlotKeys[k].0 && SlotKeys[n - 1].1 != SlotKeys[k].1 by {
        if k != n - 1 {
          assert SlotKeys[n - 1].0[1] != SlotKeys[k].0[1];
        }
      }
      assert Lookup(slot, SlotKeys[k].1) == if k == n - 1 then Some(topPlayers[k].name) else None;
      assert Lookup(slot, SlotKeys[k].0) == if k == n - 1 then Some(SlotLabels[k]) else None;
    }
  }

  /** The card carries s1/s2/s3 exactly for the players that exist. */
  lemma ResultsParamsSlots(weekNum: string, topPlayers: seq<TopPlayer>, k: nat)
    requires k < 3
    ensures var p := ResultsParams(weekNum, topPlayers);
      && Lookup(p, SlotKeys[k].1) == (if k < |topPlayers| then Some(topPlayers[k].name) else None)
      && Lookup(p, SlotKeys[k].0) == (if k < |topPlayers| then Some(SlotLabels[k]) else None)
  {
    var n := if |topPlayers| < 3 then |topPlayers| else 3;
    var base := [("title", "Tournament #" + weekNum + " Results 🏆"), ("subtitle", "FINAL STANDINGS"),
                 ("footer", "CRYPTOCLASH.INK")];
    SlotsLookup(topPlayers, n, k);
    SlotKeyChars(k);
    LookupAbsent(base, SlotKeys[k].0);
    LookupAbsent(base, SlotKeys[k].1);
    LookupAppend(base, Slots(topPlayers, n), SlotKeys[k].1);
    LookupAppend(base, Slots(topPlayers, n), SlotKeys[k].0);
  }

  // ==================== POSTING ====================

  /** The HTTP requests sent to the posting service. */
  datatype Request =
    | CreateRequest(text: string)
    | ImagePatch(postId: string, imageUrl: string)
    | PublishRequest(postId: string)

  /** The publish endpoint's JSON body. */
  datatype PublishReply = PublishReply(tweetId: Option<string>, error: Option<string>)

  /** `${postId}` for a possibly missing id. */
  function IdText(id: Option<string>): string {
    match id
    case Some(s) => s
    case None => "undefined"
  }

  /** createPost.  `created` is what the POST and the read of `data.item._id`
      gave (None: the reply had no id); `patched` is the PATCH outcome. */
  method CreatePost(text: string, imageUrl: Option<string>, created: Outcome<Option<string>>, patched: Outcome<()>)
    returns (postId: Option<string>, requests: seq<Request>)
    ensures |requests| >= 1 && requests[0] == CreateRequest(text)
    ensures |requests| == 2 <==> created.Ok? && Truthy(imageUrl)
    ensures |requests| == 2 ==> requests[1] == ImagePatch(IdText(created.value), imageUrl.value)
    ensures |requests| <= 2
    ensures postId.Some? ==> created == Ok(postId)
    ensures postId == None <==> created.Throw? || created == Ok(None) || (Truthy(imageUrl) && patched.Throw?)
  {
    requests := [CreateRequest(text)];
    match created {
      case Throw =>
        postId := None;
      case Ok(id) =>
        if Truthy(imageUrl) {
          requests := requests + [ImagePatch(IdText(id), imageUrl.value)];
          if patched.Throw? {
            return None, requests;
          }
        }
        postId := id;
    }
  }

  /** publishPost: the tweet id when the reply has a non-empty one, else
      None, also when the call throws. */
  method PublishPost(postId: string, reply: Outcome<PublishReply>) returns (tweetId: Option<string>, requests: seq<Request>)
    ensures requests == [PublishRequest(postId)]
    ensures tweetId.Some? <==> reply.Ok? && Truthy(reply.value.tweetId)
    ensures tweetId.Some? ==> tweetId == reply.value.tweetId
  {
    requests := [PublishRequest(postId)];
    match reply {
      case Throw =>
        tweetId := None;
      case Ok(data) =>
        if Truthy(data.tweetId) {
          tweetId := data.tweetId;
        } else {
          tweetId := None;
        }
    }
  }

  /** The requests of `const postId = await createPost(text, imageUrl); if
      (postId) await publishPost(postId)`. */
  function PostFlow(text: string, imageUrl: string, created: Outcome<Option<string>>, patched: Outcome<()>,
                    published: Outcome<PublishReply>): seq<Request> {
    [CreateRequest(text)]
      + (if created.Ok? && imageUrl != "" then [ImagePatch(IdText(created.value), imageUrl)] else [])
      + (if created.Ok? && Truthy(created.value) && (imageUrl == "" || patched.Ok?)
         then [PublishRequest(created.value.value)] else [])
  }

  /** Publishing is requested exactly when createPost returned a non-empty id,
      and always last; the image patch exactly when the create call succeeded. */
  lemma PostFlowOrder(text: string, imageUrl: string, created: Outcome<Option<string>>, patched: Outcome<()>,
                      published: Outcome<PublishReply>)
    ensures var r := PostFlow(text, imageUrl, created, patched, published);
      && 1 <= |r| <= 3 && r[0] == CreateRequest(text)
      && (r[|r| - 1].PublishRequest? <==> created.Ok? && Truthy(created.value) && (imageUrl == "" || patched.Ok?))
      && (forall i :: 0 <= i < |r| - 1 ==> !r[i].PublishRequest?)
      && (|r| >= 2 && r[1].ImagePatch? <==> created.Ok? && imageUrl != "")
  {
  }

  method CreateAndPublish(text: string, imageUrl: string, created: Outcome<Option<string>>, patched: Outcome<()>,
                          published: Outcome<PublishReply>)
    returns (requests: seq<Request>)
    ensures requests == PostFlow(text, imageUrl, created, patched, published)
  {
    var postId, createRequests := CreatePost(text, Some(imageUrl), created, patched);
    requests := createRequests;
    if Truthy(postId) {
      var tweetId, publishRequests := PublishPost(postId.value, published);
      requests := requests + publishRequests;
    }
  }

  /** tweetNewTournament */
  method TweetNewTournament(t: Tournament, created: Outcome<Option<string>>, patched: Outcome<()>,
                            published: Outcome<PublishReply>)
    returns (requests: seq<Request>)
    ensures var days := DurationDays(t);
            var weekNum := WeekNumText(t.weekNumber);
      requests == PostFlow(NewTournamentText(days, weekNum, FormatDate(t.startDate), FormatDate(t.lockDate)),
                           BuildCcCardUrl(NewTournamentParams(days, weekNum, FormatDate(t.startDate),
                                                              FormatDate(t.endDate), FormatDate(t.lockDate))),
                           created, patched, published)
  {
    var days := DurationDays(t);
    var weekNum := WeekNumText(t.weekNumber);
    var text := NewTournamentText(days, weekNum, FormatDate(t.startDate), FormatDate(t.lockDate));
    var imageUrl := BuildCcCardUrl(NewTournamentParams(days, weekNum, FormatDate(t.startDate), FormatDate(t.endDate),
                                                       FormatDate(t.lockDate)));
    requests := CreateAndPublish(text, imageUrl, created, patched, published);
  }

  /** tweetTournamentLocked */
  method TweetTournamentLocked(t: Tournament, participantCount: int, created: Outcome<Option<string>>,
                               patched: Outcome<()>, published: Outcome<PublishReply>)
    returns (requests: seq<Request>)
    ensures var weekNum := WeekNumText(t.weekNumber);
      requests == PostFlow(LockedText(weekNum, participantCount),
                           BuildCcCardUrl(LockedParams(DurationDays(t), weekNum, participantCount)),
                           created, patched, published)
  {
    var weekNum := WeekNumText(t.weekNumber);
    var days := DurationDays(t);
    var text := LockedText(weekNum, participantCount);
    var imageUrl := BuildCcCardUrl(LockedParams(days, weekNum, participantCount));
    requests := CreateAndPublish(text, imageUrl, created, patched, published);
  }

  /** tweetTournamentResults */
  method TweetTournamentResults(t: Tournament, topPlayers: seq<TopPlayer>, created: Outcome<Option<string>>,
                                patched: Outcome<()>, published: Outcome<PublishReply>)
    returns (requests: seq<Request>)
    ensures var weekNum := WeekNumText(t.weekNumber);
      requests == PostFlow(ResultsText(weekNum, topPlayers), BuildCcCardUrl(ResultsParams(weekNum, topPlayers)),
                           created, patched, published)
  {
    var weekNum := WeekNumText(t.weekNumber);
    var text := ResultsText(weekNum, topPlayers);
    var imageParams := BuildResultsParams(weekNum, topPlayers);
    var imageUrl := BuildCcCardUrl(imageParams);
    requests := CreateAndPublish(text, imageUrl, created, patched, published);
  }
}
