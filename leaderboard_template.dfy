/** The trader leaderboard embeds of src/templates/leaderboard.ts: a first
    embed with a three-field header and up to five rows, then one embed per
    further group of five rows, the footer on the last embed only.  Discord's
    EmbedBuilder is a mutable object, modelled as the `Embed` class; number
    formatting (`toLocaleString`, `toFixed`, formatUSD) and `shortAddress`
    are parameters. */
module LeaderboardTemplate {
  import opened Wrappers
  import opened Seqs
  import opened Text
  import Branding

  /** A LeaderboardEntry; JavaScript numbers that may be fractional are reals. */
  datatype LeaderboardEntry = LeaderboardEntry(rank: int, address: string, displayName: Option<string>, pnl: real,
                                               trades: int, winRate: Option<real>, volume: Option<real>)

  datatype Field = Field(name: string, value: string, inline: bool)

  /** The formatters the row builder calls. */
  datatype Formats = Formats(shortAddress: string -> string, formatPnl: real -> string, toFixed1: real -> string,
                             formatUsd: real -> string)

  /** An EmbedBuilder: colour, title, fields and whether FooterWithImage was
      applied (footer text, icon, timestamp and image). */
  class Embed {
    var color: string
    var title: Option<string>
    var fields: seq<Field>
    var footer: bool

    constructor (color: string)
      ensures this.color == color && title == None && fields == [] && !footer
    {
      this.color := color;
      title := None;
      fields := [];
      footer := false;
    }
  }

  // ==================== ROWS ====================

  const ZeroWidthSpace: string := "​"

  /** `entry.displayName || shortAddress(entry.address)` */
  function DisplayName(entry: LeaderboardEntry, fmt: Formats): string {
    if Truthy(entry.displayName) then entry.displayName.value else fmt.shortAddress(entry.address)
  }

  /** `winRate !== undefined ? winRate.toFixed(1) + '%' : 'N/A'` */
  function WinRateText(entry: LeaderboardEntry, fmt: Formats): string {
    if entry.winRate.Some? then fmt.toFixed1(entry.winRate.value) + "%" else "N/A"
  }

  /** `entry.volume ? 'Vol: ' + formatUSD(volume) : '​'`: 0 is falsy. */
  function VolumeText(entry: LeaderboardEntry, fmt: Formats): string {
    if entry.volume.Some? && entry.volume.value != 0.0 then "Vol: " + fmt.formatUsd(entry.volume.value)
    else ZeroWidthSpace
  }

  /** The three inline fields addLeaderboardRow adds for one entry. */
  function RowFields(entry: LeaderboardEntry, fmt: Formats): (r: seq<Field>)
    ensures |r| == 3 && r[0].inline && r[1].inline && r[2].inline
  {
    [Field(Branding.GetMedalEmoji(entry.rank) + " #" + IntToString(entry.rank), "`" + DisplayName(entry, fmt) + "`",
           true),
     Field(Branding.Sword + " " + IntToString(entry.trades) + " trades", "Win: " + WinRateText(entry, fmt), true),
     Field(fmt.formatPnl(entry.pnl), VolumeText(entry, fmt), true)]
  }

  /** The row's fallbacks: the short address for a missing or empty display
      name, 'N/A' for a missing win rate, a zero-width space for a missing or
      zero volume; and the medal of the rank. */
  lemma RowFallbacks(entry: LeaderboardEntry, fmt: Formats)
    ensures var r := RowFields(entry, fmt);
      && (!Truthy(entry.displayName) ==> r[0].value == "`" + fmt.shortAddress(entry.address) + "`")
      && (entry.winRate.None? ==> r[1].value == "Win: N/A")
      && (entry.winRate.Some? ==> r[1].value == "Win: " + fmt.toFixed1(entry.winRate.value) + "%")
      && (entry.volume.None? || entry.volume == Some(0.0) <==> r[2].value == ZeroWidthSpace)
      && (1 <= entry.rank <= 3 <==> r[0].name[..1] != Branding.Medal)
  {
    var r := RowFields(entry, fmt);
    if entry.volume.Some? && entry.volume.value != 0.0 {
      assert r[2].value[0] == 'V';
    }
    var medal := Branding.GetMedalEmoji(entry.rank);
    assert |medal| == 1;
    assert r[0].name[..1] == medal;
  }

  function RowFieldsOf(fmt: Formats): LeaderboardEntry -> seq<Field> {
    entry => RowFields(entry, fmt)
  }

  /** The fields of the rows for `entries`, in order. */
  function RowsFields(entries: seq<LeaderboardEntry>, fmt: Formats): seq<Field> {
    FlatMap(entries, RowFieldsOf(fmt))
  }

  /** Every row adds exactly three fields. */
  lemma RowsFieldsCount(entries: seq<LeaderboardEntry>, fmt: Formats)
    ensures |RowsFields(entries, fmt)| == 3 * |entries|
  {
    FlatMapBounds(entries, RowFieldsOf(fmt), 3, 3);
  }

  /** addLeaderboardRow, with the row's fields given by `rows` (RowFieldsOf
      for the formatters in use). */
  method AddLeaderboardRow(embed: Embed, entry: LeaderboardEntry, rows: LeaderboardEntry -> seq<Field>)
    modifies embed
    ensures embed.fields == old(embed.fields) + rows(entry)
    ensures embed.color == old(embed.color) && embed.title == old(embed.title) && embed.footer == old(embed.footer)
  {
    embed.fields := embed.fields + rows(entry);
  }

  /** `entries.forEach(entry => addLeaderboardRow(embed, entry))` */
  method AddRows(embed: Embed, entries: seq<LeaderboardEntry>, rows: LeaderboardEntry -> seq<Field>)
    modifies embed
    ensures embed.fields == old(embed.fields) + FlatMap(entries, rows)
    ensures embed.color == old(embed.color) && embed.title == old(embed.title) && embed.footer == old(embed.footer)
  {
    var i := 0;
    while i < |entries|
      invariant 0 <= i <= |entries|
      invariant embed.fields == old(embed.fields) + FlatMap(entries[..i], rows)
      invariant embed.color == old(embed.color) && embed.title == old(embed.title)
      invariant embed.footer == old(embed.footer)
    {
      AddLeaderboardRow(embed, entries[i], rows);
      assert entries[..i + 1][..i] == entries[..i];
      i := i + 1;
    }
    assert entries[..i] == entries;
  }

  // ==================== CHUNKS ====================

  /** `remaining.slice(i, i + 5)` for i = 0, 5, 10, ... */
  function Chunks<T>(s: seq<T>): (r: seq<seq<T>>)
    decreases |s|
  {
    if s == [] then [] else [Take(s, 5)] + Chunks(s[|Take(s, 5)|..])
  }

  /** The concatenation of a sequence of sequences. */
  function Concat<T>(ss: seq<seq<T>>): seq<T> {
    if ss == [] then [] else ss[0] + Concat(ss[1..])
  }

  /** There are ceil(n / 5) chunks. */
  lemma {:induction false} ChunksCount<T>(s: seq<T>)
    ensures |Chunks(s)| == (|s| + 4) / 5
    decreases |s|
  {
    if s != [] {
      ChunksCount(s[|Take(s, 5)|..]);
    }
  }

  /** The chunks cover the input in steps of five: the last one starts
      before the end and ends at it. */
  lemma ChunksCountBounds<T>(s: seq<T>)
    ensures 5 * |Chunks(s)| >= |s| && (|Chunks(s)| > 0 ==> 5 * (|Chunks(s)| - 1) < |s|)
  {
    ChunksCount(s);
  }

  /** Chunk j is `s.slice(5j, 5j + 5)`, holding between one and five
      elements. */
  lemma {:induction false} ChunkAt<T>(s: seq<T>, j: nat)
    requires j < |Chunks(s)|
    ensures 5 * j < |s| && Chunks(s)[j] == s[5 * j..if 5 * j + 5 <= |s| then 5 * j + 5 else |s|]
    ensures 1 <= |Chunks(s)[j]| <= 5
    decreases |s|
  {
    var m := |Take(s, 5)|;
    if j > 0 {
      var rest := s[m..];
      assert Chunks(s)[j] == Chunks(rest)[j - 1];
      ChunkAt(rest, j - 1);
      assert m == 5;
    }
  }

  /** Concatenating all chunks gives the input back, in order. */
  lemma {:induction false} ChunksConcat<T>(s: seq<T>)
    ensures Concat(Chunks(s)) == s
    decreases |s|
  {
    if s != [] {
      var m := |Take(s, 5)|;
      ChunksConcat(s[m..]);
      assert Chunks(s)[1..] == Chunks(s[m..]);
      assert s == s[..m] + s[m..];
    }
  }

  // ==================== THE EMBEDS ====================

  /** isTop picks the colour, the title icon and the third header. */
  function ThemeColor(isTop: bool): string {
    if isTop then Branding.Success else Branding.Danger
  }

  function ThemeIcon(isTop: bool): string {
    if isTop then Branding.Trophy else Branding.Skull
  }

  function HeaderFields(isTop: bool): (r: seq<Field>)
    ensures |r| == 3
  {
    [Field("Trader", "─────────", true), Field("Stats", "─────────", true),
     Field(if isTop then "💰 Profit" else "💸 Loss", "─────────", true)]
  }

  /** The top board is green with a trophy and a profit column, the bottom
      board red with a skull and a loss column. */
  lemma ThemeChoice(isTop: bool)
    ensures isTop ==> ThemeColor(isTop) == Branding.Success && ThemeIcon(isTop) == Branding.Trophy
                      && HeaderFields(isTop)[2].name == "💰 Profit"
    ensures !isTop ==> ThemeColor(isTop) == Branding.Danger && ThemeIcon(isTop) == Branding.Skull
                       && HeaderFields(isTop)[2].name == "💸 Loss"
    ensures ThemeColor(true) != ThemeColor(false) && ThemeIcon(true) != ThemeIcon(false)
  {
    assert Branding.Success[1] != Branding.Danger[1];
  }

  /** `entries.slice(5)` */
  function Remaining(entries: seq<LeaderboardEntry>): seq<LeaderboardEntry> {
    entries[|Take(entries, 5)|..]
  }

  /** The first embed holds the first min(5, n) entries, the others the
      chunks of the rest, so that between them they hold every entry once,
      in order; there are 1 + ceil(max(0, n - 5) / 5) embeds. */
  lemma EmbedsCoverEntries(entries: seq<LeaderboardEntry>)
    ensures Take(entries, 5) + Concat(Chunks(Remaining(entries))) == entries
    ensures 1 + |Chunks(Remaining(entries))| == 1 + (if |entries| <= 5 then 0 else (|entries| - 5 + 4) / 5)
  {
    ChunksConcat(Remaining(entries));
    ChunksCount(Remaining(entries));
  }

  /** The first embed: title, header fields and the first five rows. */
  method FirstEmbed(entries: seq<LeaderboardEntry>, title: string, isTop: bool, rows: LeaderboardEntry -> seq<Field>)
    returns (embed: Embed)
    ensures fresh(embed) && embed.color == ThemeColor(isTop) && !embed.footer
    ensures embed.title == Some(ThemeIcon(isTop) + " " + title)
    ensures embed.fields == HeaderFields(isTop) + FlatMap(Take(entries, 5), rows)
  {
    embed := new Embed(ThemeColor(isTop));
    embed.title := Some(ThemeIcon(isTop) + " " + title);
    embed.fields := HeaderFields(isTop);
    AddRows(embed, Take(entries, 5), rows);
  }

  /** `new EmbedBuilder().setColor(color)` with the rows of one chunk. */
  method ChunkEmbed(chunk: seq<LeaderboardEntry>, color: string, rows: LeaderboardEntry -> seq<Field>)
    returns (embed: Embed)
    ensures fresh(embed) && embed.color == color && embed.title == None && !embed.footer
    ensures embed.fields == FlatMap(chunk, rows)
  {
    embed := new Embed(color);
    AddRows(embed, chunk, rows);
  }

  /** Each of `embeds` is untitled, footless, in `color`, and holds the
      rows of the chunk at its position. */
  predicate ChunkRows(embeds: seq<Embed>, chunks: seq<seq<LeaderboardEntry>>, color: string,
                      rows: LeaderboardEntry -> seq<Field>)
    reads embeds
  {
    && |embeds| <= |chunks|
    && forall k :: 0 <= k < |embeds| ==>
         embeds[k].color == color && !embeds[k].footer && embeds[k].title == None
         && embeds[k].fields == FlatMap(chunks[k], rows)
  }

  /** Appending the embed of the next chunk keeps ChunkRows. */
  lemma ChunkRowsSnoc(embeds: seq<Embed>, e: Embed, chunks: seq<seq<LeaderboardEntry>>, color: string,
                      rows: LeaderboardEntry -> seq<Field>)
    requires ChunkRows(embeds, chunks, color, rows) && |embeds| < |chunks|
    requires e.color == color && !e.footer && e.title == None && e.fields == FlatMap(chunks[|embeds|], rows)
    ensures ChunkRows(embeds + [e], chunks, color, rows)
  {
    var es := embeds + [e];
    forall k | 0 <= k < |es|
      ensures es[k].color == color && !es[k].footer && es[k].title == None && es[k].fields == FlatMap(chunks[k], rows)
    {
      if k < |embeds| {
        assert es[k] == embeds[k];
      }
    }
  }

  /** The `i += 5` loop: one untitled embed per chunk of the remaining
      entries. */
  method ChunkEmbeds(remaining: seq<LeaderboardEntry>, color: string, rows: LeaderboardEntry -> seq<Field>) returns (embeds: seq<Embed>)
    ensures |embeds| == |Chunks(remaining)|
    ensures forall j, k :: 0 <= j < k < |embeds| ==> embeds[j] != embeds[k]
    ensures forall k :: 0 <= k < |embeds| ==> fresh(embeds[k]) && embeds[k].color == color && !embeds[k].footer
    ensures forall k :: 0 <= k < |embeds| ==>
      embeds[k].title == None && embeds[k].fields == FlatMap(Chunks(remaining)[k], rows)
  {
    ghost var chunks := Chunks(remaining);
    ChunksCountBounds(remaining);
    embeds := [];
    var i := 0;
    while i < |remaining|
      invariant i == 5 * |embeds| && |embeds| <= |chunks|
      invariant |embeds| < |chunks| <==> i < |remaining|
      invariant forall j, k :: 0 <= j < k < |embeds| ==> embeds[j] != embeds[k]
      invariant forall k :: 0 <= k < |embeds| ==> fresh(embeds[k])
      invariant ChunkRows(embeds, chunks, color, rows)
    {
      var chunk := remaining[i..if i + 5 <= |remaining| then i + 5 else |remaining|];
      ChunkAt(remaining, |embeds|);
      var chunkEmbed := ChunkEmbed(chunk, color, rows);
      ChunkRowsSnoc(embeds, chunkEmbed, chunks, color, rows);
      embeds := embeds + [chunkEmbed];
      i := i + 5;
    }
  }

  /** The board LeaderboardEmbed builds for `entries`: one embed more than
      there are chunks of the entries after the fifth, all in the theme
      colour, only the last one with the footer, the first one titled and
      holding the header and the first five rows, each later one untitled
      and holding the rows of its chunk. */
  predicate Board(embeds: seq<Embed>, entries: seq<LeaderboardEntry>, title: string, isTop: bool,
                  rows: LeaderboardEntry -> seq<Field>)
    reads embeds
  {
    && |embeds| == 1 + |Chunks(Remaining(entries))|
    && (forall k :: 0 <= k < |embeds| ==> embeds[k].color == ThemeColor(isTop))
    && (forall k :: 0 <= k < |embeds| ==> (embeds[k].footer <==> k == |embeds| - 1))
    && embeds[0].title == Some(ThemeIcon(isTop) + " " + title)
    && embeds[0].fields == HeaderFields(isTop) + FlatMap(Take(entries, 5), rows)
    && (forall k :: 1 <= k < |embeds| ==>
          embeds[k].title == None && embeds[k].fields == FlatMap(Chunks(Remaining(entries))[k - 1], rows))
  }

  /** The fields of `es`, one embed after the other. */
  function FieldsOf(es: seq<Embed>): seq<Field>
    reads es
  {
    if es == [] then [] else es[0].fields + FieldsOf(es[1..])
  }

  /** Embeds holding the rows of successive chunks hold, between them, the
      rows of the chunks' concatenation. */
  lemma {:induction false} FieldsOfChunks(es: seq<Embed>, cs: seq<seq<LeaderboardEntry>>, rows: LeaderboardEntry -> seq<Field>)
    requires |es| == |cs| && forall k :: 0 <= k < |es| ==> es[k].fields == FlatMap(cs[k], rows)
    ensures FieldsOf(es) == FlatMap(Concat(cs), rows)
  {
    if es != [] {
      FieldsOfChunks(es[1..], cs[1..], rows);
      FlatMapAppend(cs[0], Concat(cs[1..]), rows);
    }
  }

  /** Below the header, a board shows the row of every entry exactly once,
      in the order of `entries`. */
  lemma BoardShowsEveryRow(embeds: seq<Embed>, entries: seq<LeaderboardEntry>, title: string, isTop: bool,
                           rows: LeaderboardEntry -> seq<Field>)
    requires Board(embeds, entries, title, isTop, rows)
    ensures embeds[0].fields[3..] + FieldsOf(embeds[1..]) == FlatMap(entries, rows)
  {
    var cs := Chunks(Remaining(entries));
    FieldsOfChunks(embeds[1..], cs, rows);
    EmbedsCoverEntries(entries);
    FlatMapAppend(Take(entries, 5), Concat(cs), rows);
  }

  /** Puts the footer on the last of `embeds`, which are distinct. */
  method MarkLast(embeds: seq<Embed>)
    requires |embeds| > 0 && forall j, k :: 0 <= j < k < |embeds| ==> embeds[j] != embeds[k]
    modifies embeds[|embeds| - 1]
    ensures forall k :: 0 <= k < |embeds| - 1 ==>
      embeds[k].footer == old(embeds[k].footer) && embeds[k].fields == old(embeds[k].fields)
      && embeds[k].title == old(embeds[k].title) && embeds[k].color == old(embeds[k].color)
    ensures embeds[|embeds| - 1].footer
    ensures embeds[|embeds| - 1].fields == old(embeds[|embeds| - 1].fields)
    ensures embeds[|embeds| - 1].title == old(embeds[|embeds| - 1].title)
    ensures embeds[|embeds| - 1].color == old(embeds[|embeds| - 1].color)
  {
    var last := embeds[|embeds| - 1];
    last.footer := true;
  }

  /** LeaderboardEmbed; `rows` renders one entry (RowFieldsOf the
      formatters). */
  method LeaderboardEmbed(entries: seq<LeaderboardEntry>, title: string, isTop: bool, rows: LeaderboardEntry -> seq<Field>)
    returns (embeds: seq<Embed>)
    ensures forall j, k :: 0 <= j < k < |embeds| ==> embeds[j] != embeds[k]
    ensures forall k :: 0 <= k < |embeds| ==> fresh(embeds[k])
    ensures Board(embeds, entries, title, isTop, rows)
  {
    var embed := FirstEmbed(entries, title, isTop, rows);
    var rest := ChunkEmbeds(Remaining(entries), ThemeColor(isTop), rows);
    embeds := [embed] + rest;
    assert forall k :: 1 <= k < |embeds| ==> embeds[k] == rest[k - 1];
    MarkLast(embeds);
  }

  /** TopTradersEmbed */
  method TopTradersEmbed(entries: seq<LeaderboardEntry>, fmt: Formats) returns (embeds: seq<Embed>)
    ensures Board(embeds, entries, "Top Traders - Leaderboard", true, RowFieldsOf(fmt))
    ensures embeds[0].title == Some(Branding.Trophy + " " + "Top Traders - Leaderboard")
    ensures forall k :: 0 <= k < |embeds| ==> embeds[k].color == Branding.Success
    ensures embeds[0].fields == HeaderFields(true) + RowsFields(Take(entries, 5), fmt)
  {
    embeds := LeaderboardEmbed(entries, "Top Traders - Leaderboard", true, RowFieldsOf(fmt));
  }

  /** BottomTradersEmbed */
  method BottomTradersEmbed(entries: seq<LeaderboardEntry>, fmt: Formats) returns (embeds: seq<Embed>)
    ensures Board(embeds, entries, "Bottom Traders - Rekt Board", false, RowFieldsOf(fmt))
    ensures embeds[0].title == Some(Branding.Skull + " " + "Bottom Traders - Rekt Board")
    ensures forall k :: 0 <= k < |embeds| ==> embeds[k].color == Branding.Danger
    ensures embeds[0].fields == HeaderFields(false) + RowsFields(Take(entries, 5), fmt)
  {
    embeds := LeaderboardEmbed(entries, "Bottom Traders - Rekt Board", false, RowFieldsOf(fmt));
  }

  /** DailyLeaderboardEmbed */
  method DailyLeaderboardEmbed(entries: seq<LeaderboardEntry>, date: string, fmt: Formats) returns (embeds: seq<Embed>)
    ensures Board(embeds, entries, "Daily Leaderboard - " + date, true, RowFieldsOf(fmt))
    ensures embeds[0].title == Some(Branding.Trophy + " " + ("Daily Leaderboard - " + date))
    ensures forall k :: 0 <= k < |embeds| ==> embeds[k].color == Branding.Success
    ensures embeds[0].fields == HeaderFields(true) + RowsFields(Take(entries, 5), fmt)
  {
    embeds := LeaderboardEmbed(entries, "Daily Leaderboard - " + date, true, RowFieldsOf(fmt));
  }

  /** WeeklyLeaderboardEmbed */
  method WeeklyLeaderboardEmbed(entries: seq<LeaderboardEntry>, weekRange: string, fmt: Formats)
    returns (embeds: seq<Embed>)
    ensures Board(embeds, entries, "Weekly Leaderboard - " + weekRange, true, RowFieldsOf(fmt))
    ensures embeds[0].title == Some(Branding.Trophy + " " + ("Weekly Leaderboard - " + weekRange))
    ensures forall k :: 0 <= k < |embeds| ==> embeds[k].color == Branding.Success
    ensures embeds[0].fields == HeaderFields(true) + RowsFields(Take(entries, 5), fmt)
  {
    embeds := LeaderboardEmbed(entries, "Weekly Leaderboard - " + weekRange, true, RowFieldsOf(fmt));
  }
}
