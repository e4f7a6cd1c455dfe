/** The Telegram announcer of src/services/TelegramService.ts: HTML escaping
    of user-supplied names, the three announcement texts with their 'TBA'
    date defaults and medal podium, and the `sendMessage` result logic.  The
    bot token and the channel id are read from the environment at start-up;
    here they are a `Config` value.  The HTTP call is an injected outcome,
    and each operation returns the requests it sends. */
module TelegramService {
  import opened Wrappers
  import opened Seqs
  import opened Text

  // ==================== HTML ESCAPING ====================

  /** `s.replace(/c/g, r)` for a one-character pattern. */
  function ReplaceChar(s: string, c: char, r: string): string {
    if s == [] then []
    else (if s[0] == c then r else [s[0]]) + ReplaceChar(s[1..], c, r)
  }

  /** escapeHtml: '&' first, then '<', then '>'. */
  function EscapeHtml(text: string): string {
    ReplaceChar(ReplaceChar(ReplaceChar(text, '&', "&amp;"), '<', "&lt;"), '>', "&gt;")
  }

  lemma {:induction false} ReplaceAppend(a: string, b: string, c: char, r: string)
    ensures ReplaceChar(a + b, c, r) == ReplaceChar(a, c, r) + ReplaceChar(b, c, r)
    decreases |a|
  {
    if a == [] {
      assert a + b == b;
    } else {
      assert (a + b)[0] == a[0] && (a + b)[1..] == a[1..] + b;
      ReplaceAppend(a[1..], b, c, r);
    }
  }

  /** Replacing a character the string does not hold changes nothing. */
  lemma {:induction false} ReplaceAbsent(s: string, c: char, r: string)
    requires c !in s
    ensures ReplaceChar(s, c, r) == s
    decreases |s|
  {
    if s != [] {
      assert c !in s[1..] by {
        assert forall j :: 0 <= j < |s[1..]| ==> s[1..][j] == s[j + 1];
      }
      ReplaceAbsent(s[1..], c, r);
    }
  }

  /** A character that is neither in the input (other than as the pattern)
      nor in the replacement is not in the output. */
  lemma {:induction false} ReplaceExcludes(s: string, c: char, r: string, d: char)
    requires d !in r && (d == c || d !in s)
    ensures d !in ReplaceChar(s, c, r)
    decreases |s|
  {
    if s != [] {
      assert d == c || d !in s[1..] by {
        assert forall j :: 0 <= j < |s[1..]| ==> s[1..][j] == s[j + 1];
      }
      ReplaceExcludes(s[1..], c, r, d);
    }
  }

  /** The output is never shorter, and strictly longer when the pattern
      occurs and the replacement has more than one character. */
  lemma {:induction false} ReplaceLength(s: string, c: char, r: string)
    requires |r| >= 1
    ensures |ReplaceChar(s, c, r)| >= |s|
    ensures c in s && |r| >= 2 ==> |ReplaceChar(s, c, r)| > |s|
    decreases |s|
  {
    if s != [] {
      assert c in s && s[0] != c ==> c in s[1..] by {
        if c in s && s[0] != c {
          var k :| 0 <= k < |s| && s[k] == c;
          assert s[1..][k - 1] == c;
        }
      }
      ReplaceLength(s[1..], c, r);
    }
  }

  /** Other characters survive a replacement. */
  lemma {:induction false} ReplaceKeeps(s: string, c: char, r: string, d: char)
    requires d != c && d in s
    ensures d in ReplaceChar(s, c, r)
    decreases |s|
  {
    var t := ReplaceChar(s[1..], c, r);
    if s[0] == d {
      assert ReplaceChar(s, c, r)[0] == d;
    } else {
      var k :| 0 <= k < |s| && s[k] == d;
      assert s[1..][k - 1] == d;
      ReplaceKeeps(s[1..], c, r, d);
      var h := if s[0] == c then r else [s[0]];
      var j :| 0 <= j < |t| && t[j] == d;
      assert ReplaceChar(s, c, r) == h + t;
      assert (h + t)[|h| + j] == d;
    }
  }

  /** The per-character reference: each special character becomes its
      entity, every other character stays. */
  function EscapeChar(ch: char): string {
    if ch == '&' then "&amp;"
    else if ch == '<' then "&lt;"
    else if ch == '>' then "&gt;"
    else [ch]
  }

  lemma ReplaceOne(ch: char, c: char, r: string)
    ensures ReplaceChar([ch], c, r) == if ch == c then r else [ch]
  {
    assert [ch][1..] == [];
  }

  lemma EscapeHtmlAppend(a: string, b: string)
    ensures EscapeHtml(a + b) == EscapeHtml(a) + EscapeHtml(b)
  {
    ReplaceAppend(a, b, '&', "&amp;");
    ReplaceAppend(ReplaceChar(a, '&', "&amp;"), ReplaceChar(b, '&', "&amp;"), '<', "&lt;");
    ReplaceAppend(ReplaceChar(ReplaceChar(a, '&', "&amp;"), '<', "&lt;"),
                  ReplaceChar(ReplaceChar(b, '&', "&amp;"), '<', "&lt;"), '>', "&gt;");
  }

  /** Escaping one character yields its entity: the '&' of an entity made by
      the first pass is not escaped again by the later passes. */
  lemma EscapeHtmlOne(ch: char)
    ensures EscapeHtml([ch]) == EscapeChar(ch)
  {
    ReplaceOne(ch, '&', "&amp;");
    var s1 := ReplaceChar([ch], '&', "&amp;");
    if ch == '&' {
      ReplaceAbsent(s1, '<', "&lt;");
      ReplaceAbsent(s1, '>', "&gt;");
    } else {
      ReplaceOne(ch, '<', "&lt;");
      var s2 := ReplaceChar(s1, '<', "&lt;");
      if ch == '<' {
        ReplaceAbsent(s2, '>', "&gt;");
      } else {
        ReplaceOne(ch, '>', "&gt;");
      }
    }
  }

  lemma EscapeHtmlCons(ch: char, t: string)
    ensures EscapeHtml([ch] + t) == EscapeChar(ch) + EscapeHtml(t)
  {
    EscapeHtmlAppend([ch], t);
    EscapeHtmlOne(ch);
  }

  /** The three passes equal the per-character escape. */
  lemma {:induction false} EscapeHtmlPerChar(s: string)
    ensures EscapeHtml(s) == FlatMap(s, EscapeChar)
    decreases |s|
  {
    if s == [] {
      ReplaceAbsent(s, '&', "&amp;");
      ReplaceAbsent(s, '<', "&lt;");
      ReplaceAbsent(s, '>', "&gt;");
    } else {
      var init := s[..|s| - 1];
      var last := s[|s| - 1];
      assert s == init + [last];
      EscapeHtmlAppend(init, [last]);
      EscapeHtmlOne(last);
      EscapeHtmlPerChar(init);
    }
  }

  /** The output holds no '<' and no '>'. */
  lemma EscapeHtmlNoAngles(s: string)
    ensures '<' !in EscapeHtml(s) && '>' !in EscapeHtml(s)
  {
    var s1 := ReplaceChar(s, '&', "&amp;");
    var s2 := ReplaceChar(s1, '<', "&lt;");
    ReplaceExcludes(s1, '<', "&lt;", '<');
    ReplaceExcludes(s2, '>', "&gt;", '<');
    ReplaceExcludes(s2, '>', "&gt;", '>');
  }

  /** A string is left unchanged exactly when it holds none of '&', '<', '>'. */
  lemma EscapeHtmlIdentity(s: string)
    ensures EscapeHtml(s) == s <==> '&' !in s && '<' !in s && '>' !in s
  {
    var s1 := ReplaceChar(s, '&', "&amp;");
    var s2 := ReplaceChar(s1, '<', "&lt;");
    ReplaceLength(s, '&', "&amp;");
    ReplaceLength(s1, '<', "&lt;");
    ReplaceLength(s2, '>', "&gt;");
    if '&' !in s && '<' !in s && '>' !in s {
      ReplaceAbsent(s, '&', "&amp;");
      ReplaceAbsent(s1, '<', "&lt;");
      ReplaceAbsent(s2, '>', "&gt;");
    } else if '&' !in s {
      if '<' in s {
        ReplaceKeeps(s, '&', "&amp;", '<');
      } else {
        ReplaceKeeps(s, '&', "&amp;", '>');
        ReplaceKeeps(s1, '<', "&lt;", '>');
      }
    }
  }

  /** Reads the three entities back; any other character is copied. */
  function UnescapeHtml(s: string): string {
    if s == [] then []
    else if |s| >= 4 && s[..4] == "&lt;" then "<" + UnescapeHtml(s[4..])
    else if |s| >= 4 && s[..4] == "&gt;" then ">" + UnescapeHtml(s[4..])
    else if |s| >= 5 && s[..5] == "&amp;" then "&" + UnescapeHtml(s[5..])
    else [s[0]] + UnescapeHtml(s[1..])
  }

  /** Decoding &lt;, &gt; and &amp; recovers the input. */
  lemma {:induction false} UnescapeEscape(s: string)
    ensures UnescapeHtml(EscapeHtml(s)) == s
    decreases |s|
  {
    if s == [] {
      ReplaceAbsent(s, '&', "&amp;");
      ReplaceAbsent(s, '<', "&lt;");
      ReplaceAbsent(s, '>', "&gt;");
    } else {
      var ch := s[0];
      var t := s[1..];
      assert s == [ch] + t;
      EscapeHtmlCons(ch, t);
      var e := EscapeChar(ch) + EscapeHtml(t);
      UnescapeEscape(t);
      if ch == '&' {
        assert e[..4] == "&amp" && e[..5] == "&amp;" && e[5..] == EscapeHtml(t);
      } else if ch == '<' || ch == '>' {
        assert e[..4] == EscapeChar(ch) && e[4..] == EscapeHtml(t);
      } else {
        assert e[0] == ch && e[1..] == EscapeHtml(t);
      }
    }
  }

  // ==================== SENDING ====================

  /** TELEGRAM_BOT_TOKEN and TELEGRAM_CHANNEL_ID. */
  datatype Config = Config(botToken: Option<string>, channelId: Option<string>)

  /** The POST to `${TELEGRAM_API}/sendMessage` with its JSON body. */
  datatype SendRequest = SendRequest(url: string, chatId: string, text: string, parseMode: string)

  /** The reply body's `ok` flag (a missing flag reads as false). */
  datatype SendReply = SendReply(ok: bool, description: Option<string>)

  function ApiUrl(token: string): string {
    "https://api.telegram.org/bot" + token + "/sendMessage"
  }

  /** The requests one sendMessage call makes: none without a token. */
  function SendRequests(config: Config, chatId: string, text: string, parseMode: string): seq<SendRequest> {
    if Truthy(config.botToken) then [SendRequest(ApiUrl(config.botToken.value), chatId, text, parseMode)] else []
  }

  /** sendMessage: true exactly when a token is configured, the call did not
      throw and the reply says ok. */
  method SendMessage(config: Config, chatId: string, text: string, parseMode: string, reply: Outcome<SendReply>)
    returns (sent: bool, requests: seq<SendRequest>)
    ensures requests == SendRequests(config, chatId, text, parseMode)
    ensures sent <==> Truthy(config.botToken) && reply.Ok? && reply.value.ok
    ensures !Truthy(config.botToken) ==> requests == [] && !sent
  {
    if !Truthy(config.botToken) {
      return false, [];
    }
    requests := [SendRequest(ApiUrl(config.botToken.value), chatId, text, parseMode)];
    match reply {
      case Throw =>
        sent := false;
      case Ok(data) =>
        if !data.ok {
          return false, requests;
        }
        sent := true;
    }
  }

  // ==================== ANNOUNCEMENTS ====================

  /** The tournament fields the announcers read; a date is a time value. */
  datatype TournamentInfo = TournamentInfo(name: string, startDate: Option<int>, endDate: Option<int>,
                                           lockDate: Option<int>)

  /** `date ? formatDate(date) : 'TBA'`; the locale formatter is a parameter. */
  function DateText(date: Option<int>, formatDate: int -> string): string {
    if date.Some? then formatDate(date.value) else "TBA"
  }

  /** As long as the formatter never prints 'TBA' itself, 'TBA' shows exactly
      the missing dates. */
  lemma DateTextTba(date: Option<int>, formatDate: int -> string)
    requires forall t: int :: formatDate(t) != "TBA"
    ensures DateText(date, formatDate) == "TBA" <==> date.None?
    ensures date.Some? ==> DateText(date, formatDate) == formatDate(date.value)
  {
    if date.Some? {
      var v: int := date.value;
      assert formatDate(v) != "TBA";
    }
  }

  const SiteLink: string := "<a href=\"https://www.cryptoclash.ink\">cryptoclash.ink</a>"

  function NewTournamentMessage(name: string, start: string, end: string, lock: string): string {
    "🏆 <b>New Tournament: " + name + "</b>\n\n📅 " + start + " — " + end + "\n🔒 Cards lock: " + lock
      + "\n\n🎁 Patron NFTs for top 3 | $CLASH for top 50\n\nBuild your deck and compete 👉 " + SiteLink
  }

  function LockedMessage(name: string, participants: string, end: string): string {
    "🔒 <b>" + name + " — Cards Locked!</b>\n\n" + participants + " players are in. No more card changes.\n\n⚔️ Battle runs until "
      + end + ". May the best deck win!\n\nCheck standings 👉 " + SiteLink
  }

  function ResultsMessage(name: string, podium: string): string {
    "🏁 <b>" + name + " — Results!</b>\n\n" + podium + "\n\n🎁 Prizes being distributed. GG everyone!\n\nFull results 👉 "
      + SiteLink
  }

  /** What an announcer sends: nothing without a channel, else one message
      to the channel in HTML mode (subject to the token check). */
  function Announce(config: Config, text: string): seq<SendRequest> {
    if Truthy(config.channelId) then SendRequests(config, config.channelId.value, text, "HTML") else []
  }

  /** telegramNewTournament */
  method TelegramNewTournament(config: Config, t: TournamentInfo, formatDate: int -> string, reply: Outcome<SendReply>)
    returns (requests: seq<SendRequest>)
    ensures requests == Announce(config, NewTournamentMessage(EscapeHtml(t.name), DateText(t.startDate, formatDate),
                                                              DateText(t.endDate, formatDate),
                                                              DateText(t.lockDate, formatDate)))
    ensures !Truthy(config.channelId) ==> requests == []
  {
    if !Truthy(config.channelId) {
      return [];
    }
    var start := DateText(t.startDate, formatDate);
    var end := DateText(t.endDate, formatDate);
    var lock := DateText(t.lockDate, formatDate);
    var text := NewTournamentMessage(EscapeHtml(t.name), start, end, lock);
    var ok, sentRequests := SendMessage(config, config.channelId.value, text, "HTML", reply);
    requests := sentRequests;
  }

  /** telegramTournamentLocked */
  method TelegramTournamentLocked(config: Config, t: TournamentInfo, participantCount: int, formatDate: int -> string,
                                  reply: Outcome<SendReply>)
    returns (requests: seq<SendRequest>)
    ensures requests == Announce(config, LockedMessage(EscapeHtml(t.name), IntToString(participantCount),
                                                       DateText(t.endDate, formatDate)))
    ensures !Truthy(config.channelId) ==> requests == []
  {
    if !Truthy(config.channelId) {
      return [];
    }
    var end := DateText(t.endDate, formatDate);
    var text := LockedMessage(EscapeHtml(t.name), IntToString(participantCount), end);
    var ok, sentRequests := SendMessage(config, config.channelId.value, text, "HTML", reply);
    requests := sentRequests;
  }

  /** A top finisher as the results announcement gets it. */
  datatype Player = Player(name: string, score: int)

  const Medals: seq<string> := ["🥇", "🥈", "🥉"]

  /** One podium line; `formatScore` is `toLocaleString`. */
  function PodiumLine(i: nat, p: Player, formatScore: int -> string): string
    requires i < 3
  {
    Medals[i] + " " + EscapeHtml(p.name) + " — " + formatScore(p.score) + " pts"
  }

  function PodiumLineOf(topPlayers: seq<Player>, formatScore: int -> string): nat -> string {
    (i: nat) => if i < 3 && i < |topPlayers| then PodiumLine(i, topPlayers[i], formatScore) else ""
  }

  /** `topPlayers.slice(0, 3).map(...)`: one line per podium player. */
  function PodiumLines(topPlayers: seq<Player>, formatScore: int -> string): (lines: seq<string>)
    ensures |lines| == if |topPlayers| < 3 then |topPlayers| else 3
    ensures forall i :: 0 <= i < |lines| ==> lines[i] == PodiumLine(i, topPlayers[i], formatScore)
  {
    Map(Range(if |topPlayers| < 3 then |topPlayers| else 3), PodiumLineOf(topPlayers, formatScore))
  }

  function Podium(topPlayers: seq<Player>, formatScore: int -> string): string {
    Join(PodiumLines(topPlayers, formatScore), "\n")
  }

  /** With single-line names and scores, the podium reads back as min(3, n)
      lines, line i holding medal i and the escaped name of player i. */
  lemma PodiumReadsBack(topPlayers: seq<Player>, formatScore: int -> string)
    requires |topPlayers| >= 1
    requires forall i :: 0 <= i < |topPlayers| ==> '\n' !in topPlayers[i].name
    requires forall n :: '\n' !in formatScore(n)
    ensures var lines := SplitOn(Podium(topPlayers, formatScore), '\n');
      && |lines| == (if |topPlayers| < 3 then |topPlayers| else 3)
      && forall i :: 0 <= i < |lines| ==>
           lines[i] == Medals[i] + " " + EscapeHtml(topPlayers[i].name) + " — " + formatScore(topPlayers[i].score) + " pts"
  {
    var lines := PodiumLines(topPlayers, formatScore);
    forall i | 0 <= i < |lines| ensures '\n' !in lines[i] {
      var p := topPlayers[i];
      var e := EscapeHtml(p.name);
      assert '\n' !in e by {
        var s1 := ReplaceChar(p.name, '&', "&amp;");
        var s2 := ReplaceChar(s1, '<', "&lt;");
        ReplaceExcludes(p.name, '&', "&amp;", '\n');
        ReplaceExcludes(s1, '<', "&lt;", '\n');
        ReplaceExcludes(s2, '>', "&gt;", '\n');
      }
      var l := lines[i];
      assert l == Medals[i] + " " + e + " — " + formatScore(p.score) + " pts";
      forall j | 0 <= j < |l| ensures l[j] != '\n' {
        var m := |Medals[i] + " " + e + " — "|;
        if j >= m && j < m + |formatScore(p.score)| {
          assert l[j] == formatScore(p.score)[j - m];
        } else if j >= |Medals[i] + " "| && j < |Medals[i] + " " + e| {
          assert l[j] == e[j - |Medals[i] + " "|];
        }
      }
    }
    SplitJoin(lines, '\n');
  }

  /** telegramTournamentResults */
  method TelegramTournamentResults(config: Config, t: TournamentInfo, topPlayers: seq<Player>,
                                   formatScore: int -> string, reply: Outcome<SendReply>)
    returns (requests: seq<SendRequest>)
    ensures requests == Announce(config, ResultsMessage(EscapeHtml(t.name), Podium(topPlayers, formatScore)))
    ensures !Truthy(config.channelId) ==> requests == []
  {
    if !Truthy(config.channelId) {
      return [];
    }
    var podium := Podium(topPlayers, formatScore);
    var text := ResultsMessage(EscapeHtml(t.name), podium);
    var ok, sentRequests := SendMessage(config, config.channelId.value, text, "HTML", reply);
    requests := sentRequests;
  }
}
