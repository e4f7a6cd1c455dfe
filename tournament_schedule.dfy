/** The tournament lifecycle jobs of src/schedule/tournamentSchedule.ts: the
    creation, lock and results announcements, the daily standings post and
    the pinned standings message.  The module-level `postedResults` set and
    `pinnedMessageId` are fields of a `Scheduler`, the tournaments collection
    with its two announcement flags is the `store` field, and every external
    step (a channel fetch or send, a tweet, a Telegram message, a flag write,
    a pinned-message fetch, edit or pin) is an injected `Outcome` in an `Env`.
    What the jobs do to the outside is recorded, in order, in `events`. */
module TournamentSchedule {
  import opened Wrappers
  import opened Text
  import opened TournamentReportService
  import PopchingService

  // ==================== DATA ====================

  /** The three configured channels. */
  datatype Channel = StandingsChannel | ResultsChannel | AnnounceChannel

  /** Which lifecycle event a step belongs to. */
  datatype Kind = Creation | Lock | Result

  /** The two guarded sinks: the tweet through Popching and Telegram. */
  datatype Sink = Popching | TelegramSink

  /** What a chat message shows: the inputs of the embed builder it uses. */
  datatype Post =
    | StandingsPost(day: int, leaderboard: seq<LeaderboardEntry>, participantCount: nat)
    | CreatedPost(participantCount: nat)
    | LockedPost(participantCount: nat)
    | ResultsPost(results: seq<TournamentResult>, prizes: seq<Prize>)
    | FinalizedPost

  /** One observable effect; each names the tournament it is about. */
  datatype Event =
    | Sent(channel: Channel, tid: string, post: Post)
    | SinkCall(sink: Sink, kind: Kind, tid: string, podium: seq<PopchingService.TopPlayer>, failed: bool)
    | FlagSet(kind: Kind, tid: string)
    | PinnedEdited(tid: string, messageId: string, post: Post)
    | PinnedSent(tid: string, messageId: string, post: Post)
    | PinRequested(tid: string, messageId: string, failed: bool)

  /** A message as `channel.messages.fetchPinned()` returns it. */
  datatype PinnedMessage = PinnedMessage(id: string, authorId: string, embedCount: nat)

  /** The channel ids read from the environment. */
  datatype Config = Config(standings: Option<string>, results: Option<string>, announce: Option<string>)

  /** The outcomes of the external steps of one run of the jobs. */
  datatype Env = Env(
    now: int,
    db: Outcome<()>,
    storeRead: (Kind, string) -> Outcome<()>,
    fetch: (Channel, string) -> Outcome<bool>,
    send: (Channel, string) -> Outcome<()>,
    tweet: (Kind, string) -> Outcome<()>,
    telegram: (Kind, string) -> Outcome<()>,
    update: (Kind, string) -> Outcome<()>,
    editRemembered: Outcome<()>,
    pins: Outcome<seq<PinnedMessage>>,
    botUserId: Option<string>,
    editAdopted: Outcome<()>,
    newMessage: Outcome<string>,
    pin: Outcome<()>)

  /** The scheduler's state as a value. */
  datatype Sched = Sched(store: Store, postedResults: set<string>, pinned: Option<string>, events: seq<Event>)

  function WithEvent(s: Sched, e: Event): Sched {
    s.(events := s.events + [e])
  }

  // ==================== EVENT TRACES ====================

  /** `b` is `a` followed by new events. */
  predicate Extends(a: seq<Event>, b: seq<Event>) {
    |a| <= |b| && b[..|a|] == a
  }

  /** Every event added after `a` is about tournament `tid`. */
  predicate OnlyFor(a: seq<Event>, b: seq<Event>, tid: string) {
    Extends(a, b) && forall i :: |a| <= i < |b| ==> b[i].tid == tid
  }

  /** No event added after `a` is about tournament `tid`. */
  predicate QuietFor(a: seq<Event>, b: seq<Event>, tid: string) {
    Extends(a, b) && forall i :: |a| <= i < |b| ==> b[i].tid != tid
  }

  lemma QuietThenOther(a: seq<Event>, b: seq<Event>, c: seq<Event>, tid: string, other: string)
    requires QuietFor(a, b, tid) && OnlyFor(b, c, other) && other != tid
    ensures QuietFor(a, c, tid)
  {
    assert c[..|a|] == c[..|b|][..|a|];
    forall i | |a| <= i < |c| ensures c[i].tid != tid {
      if i < |b| {
        assert c[i] == c[..|b|][i];
      }
    }
  }

  // ==================== FLAGS ====================

  function Flag(t: Tournament, kind: Kind): bool {
    match kind
    case Creation => t.announcedCreation
    case Lock => t.announcedLock
    case Result => false
  }

  function SetFlag(t: Tournament, kind: Kind): Tournament {
    match kind
    case Creation => t.(announcedCreation := true)
    case Lock => t.(announcedLock := true)
    case Result => t
  }

  /** `updateOne({_id: tid}, {$set: {flag: true}})` */
  function MarkAnnounced(ts: seq<Tournament>, tid: string, kind: Kind): (r: seq<Tournament>)
    ensures |r| == |ts|
    ensures forall i :: 0 <= i < |ts| ==> r[i] == if ts[i].id == tid then SetFlag(ts[i], kind) else ts[i]
  {
    seq(|ts|, i requires 0 <= i < |ts| => if ts[i].id == tid then SetFlag(ts[i], kind) else ts[i])
  }

  /** Every record with id `tid` carries the flag. */
  predicate Flagged(ts: seq<Tournament>, tid: string, kind: Kind) {
    forall i :: 0 <= i < |ts| && ts[i].id == tid ==> Flag(ts[i], kind)
  }

  /** A flag write sets the flag on its record and clears none. */
  lemma MarkAnnouncedFlags(ts: seq<Tournament>, tid: string, kind: Kind, u: string, k: Kind)
    requires kind != Result
    ensures Flagged(MarkAnnounced(ts, tid, kind), tid, kind)
    ensures Flagged(ts, u, k) ==> Flagged(MarkAnnounced(ts, tid, kind), u, k)
    ensures forall i :: 0 <= i < |ts| ==> MarkAnnounced(ts, tid, kind)[i].id == ts[i].id
  {
  }

  // ==================== ONE ANNOUNCEMENT ====================

  /** `client.channels.fetch(id)`, then `channel.send(...)` when a channel
      came back; neither is guarded, so a throw ends the step. */
  function ChannelPost(s: Sched, channel: Channel, tid: string, post: Post, env: Env): (Sched, bool) {
    match env.fetch(channel, tid)
    case Throw => (s, false)
    case Ok(found) =>
      if !found then (s, true)
      else if env.send(channel, tid).Throw? then (s, false)
      else (WithEvent(s, Sent(channel, tid, post)), true)
  }

  /** The tweet and the Telegram message, each in its own try/catch: a throw
      is logged and the step goes on. */
  function SinkCalls(s: Sched, kind: Kind, tid: string, podium: seq<PopchingService.TopPlayer>, env: Env): Sched {
    var s1 := WithEvent(s, SinkCall(Popching, kind, tid, podium, env.tweet(kind, tid).Throw?));
    WithEvent(s1, SinkCall(TelegramSink, kind, tid, podium, env.telegram(kind, tid).Throw?))
  }

  /** A chat post adds at most its own Sent event and changes nothing else. */
  lemma ChannelPostEmits(s: Sched, channel: Channel, tid: string, post: Post, env: Env)
    ensures var r := ChannelPost(s, channel, tid, post, env).0;
      && OnlyFor(s.events, r.events, tid)
      && r.store == s.store && r.postedResults == s.postedResults && r.pinned == s.pinned
  {
  }

  /** The sink calls add their two events and change nothing else. */
  lemma SinkCallsEmits(s: Sched, kind: Kind, tid: string, podium: seq<PopchingService.TopPlayer>, env: Env)
    ensures var r := SinkCalls(s, kind, tid, podium, env);
      && OnlyFor(s.events, r.events, tid) && |r.events| == |s.events| + 2
      && r.events[|r.events| - 2].SinkCall? && r.events[|r.events| - 2].sink == Popching
      && r.events[|r.events| - 1].SinkCall? && r.events[|r.events| - 1].sink == TelegramSink
      && r.store == s.store && r.postedResults == s.postedResults && r.pinned == s.pinned
  {
  }

  lemma OnlyForTrans(a: seq<Event>, b: seq<Event>, c: seq<Event>, tid: string)
    requires OnlyFor(a, b, tid) && OnlyFor(b, c, tid)
    ensures OnlyFor(a, c, tid)
  {
    assert c[..|a|] == c[..|b|][..|a|];
    forall i | |a| <= i < |c| ensures c[i].tid == tid {
      if i < |b| {
        assert c[i] == c[..|b|][i];
      }
    }
  }

  /** The body shared by the creation and the lock announcements: the
      participant count, the chat post, the two sinks, then the flag write.
      The result says whether the step ran to the end without a throw. */
  function Announcement(s: Sched, t: Tournament, kind: Kind, env: Env): (Sched, bool) {
    if env.storeRead(kind, t.id).Throw? then (s, false)
    else
      var count := GetParticipantCount(s.store, t.id);
      var post := if kind == Creation then CreatedPost(count) else LockedPost(count);
      var posted := ChannelPost(s, AnnounceChannel, t.id, post, env);
      if !posted.1 then posted
      else
        var s2 := SinkCalls(posted.0, kind, t.id, [], env);
        if env.update(kind, t.id).Throw? then (s2, false)
        else
          var s3 := s2.(store := s2.store.(tournaments := MarkAnnounced(s2.store.tournaments, t.id, kind)));
          (WithEvent(s3, FlagSet(kind, t.id)), true)
  }

  /** A step adds only events about its own tournament and changes nothing
      but the store's flags. */
  lemma AnnouncementEmits(s: Sched, t: Tournament, kind: Kind, env: Env)
    ensures var r := Announcement(s, t, kind, env).0;
      OnlyFor(s.events, r.events, t.id) && r.postedResults == s.postedResults && r.pinned == s.pinned
  {
    if env.storeRead(kind, t.id).Ok? {
      var count := GetParticipantCount(s.store, t.id);
      var post := if kind == Creation then CreatedPost(count) else LockedPost(count);
      var posted := ChannelPost(s, AnnounceChannel, t.id, post, env);
      ChannelPostEmits(s, AnnounceChannel, t.id, post, env);
      if posted.1 {
        var s2 := SinkCalls(posted.0, kind, t.id, [], env);
        SinkCallsEmits(posted.0, kind, t.id, [], env);
        OnlyForTrans(s.events, posted.0.events, s2.events, t.id);
        if env.update(kind, t.id).Ok? {
          var s3 := s2.(store := s2.store.(tournaments := MarkAnnounced(s2.store.tournaments, t.id, kind)));
          OnlyForTrans(s.events, s2.events, WithEvent(s3, FlagSet(kind, t.id)).events, t.id);
        }
      }
    }
  }

  /** The tweet and Telegram outcomes change nothing but the logged sink
      events: the store, the other state and whether the step finished are
      the same for any sink outcomes. */
  lemma AnnouncementIsolation(s: Sched, s': Sched, t: Tournament, kind: Kind, env: Env,
                              tweet: (Kind, string) -> Outcome<()>, telegram: (Kind, string) -> Outcome<()>)
    requires s.store == s'.store && s.postedResults == s'.postedResults && s.pinned == s'.pinned
    ensures var a := Announcement(s, t, kind, env);
            var b := Announcement(s', t, kind, env.(tweet := tweet, telegram := telegram));
      a.1 == b.1 && a.0.store == b.0.store && a.0.postedResults == b.0.postedResults && a.0.pinned == b.0.pinned
  {
    var env' := env.(tweet := tweet, telegram := telegram);
    if env.storeRead(kind, t.id).Ok? {
      var count := GetParticipantCount(s.store, t.id);
      var post := if kind == Creation then CreatedPost(count) else LockedPost(count);
      var p := ChannelPost(s, AnnounceChannel, t.id, post, env);
      var q := ChannelPost(s', AnnounceChannel, t.id, post, env');
      ChannelPostEmits(s, AnnounceChannel, t.id, post, env);
      ChannelPostEmits(s', AnnounceChannel, t.id, post, env');
      assert p.1 == q.1;
      if p.1 {
        SinkCallsEmits(p.0, kind, t.id, [], env);
        SinkCallsEmits(q.0, kind, t.id, [], env');
      }
    }
  }

  /** When the count, the chat fetch and send and the flag write succeed, the
      flag is set whatever the tweet and Telegram calls did; when one of the
      unguarded steps throws, no flag is written. */
  lemma AnnouncementFlagWrite(s: Sched, t: Tournament, kind: Kind, env: Env)
    requires kind != Result
    ensures var r := Announcement(s, t, kind, env);
      && (env.storeRead(kind, t.id).Ok? && env.fetch(AnnounceChannel, t.id).Ok?
          && (env.fetch(AnnounceChannel, t.id).value ==> env.send(AnnounceChannel, t.id).Ok?)
          && env.update(kind, t.id).Ok?
          ==> r.1 && Flagged(r.0.store.tournaments, t.id, kind))
      && (!r.1 ==> r.0.store == s.store)
      && (env.fetch(AnnounceChannel, t.id).Throw? ==> r == (s, false))
  {
    MarkAnnouncedFlags(s.store.tournaments, t.id, kind, t.id, kind);
  }

  // ==================== RUNS OVER TOURNAMENTS ====================

  /** A `for` loop over `ts` whose body may throw: the step's result says
      whether it finished; a throw leaves the loop (to the job's outer
      catch) with the state it had reached. */
  function Run(s: Sched, ts: seq<Tournament>, step: (Sched, Tournament) -> (Sched, bool)): (Sched, bool)
    decreases |ts|
  {
    if ts == [] then (s, true)
    else
      var p := Run(s, ts[..|ts| - 1], step);
      if p.1 then step(p.0, ts[|ts| - 1]) else p
  }

  /** Once a step throws, the tournaments after it are not visited. */
  lemma {:induction false} RunAbort(s: Sched, ts: seq<Tournament>, step: (Sched, Tournament) -> (Sched, bool), k: nat)
    requires k <= |ts| && !Run(s, ts[..k], step).1
    ensures Run(s, ts, step) == Run(s, ts[..k], step)
    decreases |ts| - k
  {
    if k < |ts| {
      var init := ts[..|ts| - 1];
      assert init[..k] == ts[..k];
      RunAbort(s, init, step, k);
    } else {
      assert ts[..k] == ts;
    }
  }

  /** Visiting one more tournament applies the step unless the loop has
      already stopped. */
  lemma RunNext(s: Sched, ts: seq<Tournament>, step: (Sched, Tournament) -> (Sched, bool), i: nat)
    requires i < |ts|
    ensures var p := Run(s, ts[..i], step); Run(s, ts[..i + 1], step) == if p.1 then step(p.0, ts[i]) else p
  {
    assert ts[..i + 1][..i] == ts[..i];
  }

  // ==================== NEW TOURNAMENTS ====================

  /** One iteration of checkForNewTournaments: a record whose
      announcedCreation flag is set is skipped. */
  function NewStep(s: Sched, t: Tournament, env: Env): (Sched, bool) {
    if t.announcedCreation then (s, true) else Announcement(s, t, Creation, env)
  }

  function NewStepOf(env: Env): (Sched, Tournament) -> (Sched, bool) {
    (s, t) => NewStep(s, t, env)
  }

  /** checkForNewTournaments: nothing without an announce channel or when
      the database is unreachable; otherwise the loop over the upcoming
      tournaments as they were read at the start. */
  function CheckNew(s: Sched, config: Config, env: Env): Sched {
    if !Truthy(config.announce) || env.db.Throw? then s
    else Run(s, GetUpcomingTournaments(s.store.tournaments), NewStepOf(env)).0
  }

  /** A loop over records that all carry the creation flag when their id is
      `tid` adds no event about `tid`. */
  lemma {:induction false} NewRunQuiet(s: Sched, ts: seq<Tournament>, env: Env, tid: string)
    requires forall i :: 0 <= i < |ts| && ts[i].id == tid ==> ts[i].announcedCreation
    ensures QuietFor(s.events, Run(s, ts, NewStepOf(env)).0.events, tid)
    decreases |ts|
  {
    if ts != [] {
      var init := ts[..|ts| - 1];
      var last := ts[|ts| - 1];
      NewRunQuiet(s, init, env, tid);
      var p := Run(s, init, NewStepOf(env));
      if p.1 && !last.announcedCreation {
        AnnouncementEmits(p.0, last, Creation, env);
        QuietThenOther(s.events, p.0.events, Run(s, ts, NewStepOf(env)).0.events, tid, last.id);
      }
    }
  }

  /** A creation flag write logged during the loop is reflected in the
      store at its end. */
  lemma {:induction false} NewRunFlags(s: Sched, ts: seq<Tournament>, env: Env, tid: string)
    ensures var r := Run(s, ts, NewStepOf(env)).0;
      && Extends(s.events, r.events)
      && (Flagged(s.store.tournaments, tid, Creation) ==> Flagged(r.store.tournaments, tid, Creation))
      && (FlagSet(Creation, tid) in r.events && FlagSet(Creation, tid) !in s.events
          ==> Flagged(r.store.tournaments, tid, Creation))
    decreases |ts|
  {
    if ts != [] {
      var init := ts[..|ts| - 1];
      var last := ts[|ts| - 1];
      NewRunFlags(s, init, env, tid);
      var p := Run(s, init, NewStepOf(env));
      var r := Run(s, ts, NewStepOf(env)).0;
      if p.1 && !last.announcedCreation {
        AnnouncementEmits(p.0, last, Creation, env);
        MarkAnnouncedFlags(p.0.store.tournaments, last.id, Creation, tid, Creation);
        assert r.events[..|s.events|] == r.events[..|p.0.events|][..|s.events|];
        if FlagSet(Creation, tid) in r.events && FlagSet(Creation, tid) !in s.events
           && FlagSet(Creation, tid) !in p.0.events {
          var i :| 0 <= i < |r.events| && r.events[i] == FlagSet(Creation, tid);
          assert r.events[..|p.0.events|] == p.0.events;
          assert tid == last.id;
        }
      }
    }
  }

  /** At most once: a tournament whose creation flag was written in one run
      of checkForNewTournaments gets no event at all in the next run,
      whatever the outcomes of that run. */
  lemma CreationAtMostOnce(s: Sched, config: Config, env: Env, env2: Env, tid: string)
    requires FlagSet(Creation, tid) !in s.events
    ensures var s1 := CheckNew(s, config, env);
      FlagSet(Creation, tid) in s1.events ==> QuietFor(s1.events, CheckNew(s1, config, env2).events, tid)
  {
    var s1 := CheckNew(s, config, env);
    if FlagSet(Creation, tid) in s1.events {
      assert Truthy(config.announce) && env.db.Ok?;
      NewRunFlags(s, GetUpcomingTournaments(s.store.tournaments), env, tid);
      if Truthy(config.announce) && env2.db.Ok? {
        var ups := GetUpcomingTournaments(s1.store.tournaments);
        forall i | 0 <= i < |ups| && ups[i].id == tid ensures ups[i].announcedCreation {
          assert ups[i] in s1.store.tournaments;
        }
        NewRunQuiet(s1, ups, env2, tid);
      }
    }
  }

  /** The loop finishes each step before the next, and the tweet and
      Telegram outcomes do not change which flags are written. */
  lemma {:induction false} NewRunIsolation(s: Sched, ts: seq<Tournament>, env: Env,
                                           tweet: (Kind, string) -> Outcome<()>,
                                           telegram: (Kind, string) -> Outcome<()>)
    ensures var a := Run(s, ts, NewStepOf(env));
            var b := Run(s, ts, NewStepOf(env.(tweet := tweet, telegram := telegram)));
      a.1 == b.1 && a.0.store == b.0.store && a.0.postedResults == b.0.postedResults && a.0.pinned == b.0.pinned
    decreases |ts|
  {
    if ts != [] {
      var init := ts[..|ts| - 1];
      NewRunIsolation(s, init, env, tweet, telegram);
      var a := Run(s, init, NewStepOf(env));
      var b := Run(s, init, NewStepOf(env.(tweet := tweet, telegram := telegram)));
      if a.1 {
        AnnouncementIsolation(a.0, b.0, ts[|ts| - 1], Creation, env, tweet, telegram);
      }
    }
  }

  // ==================== LOCKED TOURNAMENT ====================

  /** checkForLockedTournaments: only the active tournament, only while its
      announcedLock flag is unset, and only once the lock date is reached. */
  function CheckLocked(s: Sched, config: Config, env: Env): Sched {
    if !Truthy(config.announce) || env.db.Throw? then s
    else
      match GetActiveTournament(s.store.tournaments)
      case None => s
      case Some(t) =>
        if t.announcedLock || env.now < t.lockDate then s
        else Announcement(s, t, Lock, env).0
  }

  /** Anything happens only with an announce channel, an active tournament
      whose lock was not announced and a current time at or past its lock
      date; with all of those and no throw, the lock post and flag follow. */
  lemma LockGating(s: Sched, config: Config, env: Env)
    ensures var r := CheckLocked(s, config, env);
            var active := GetActiveTournament(s.store.tournaments);
      && (r != s ==> Truthy(config.announce) && env.db.Ok? && active.Some?
                     && !active.value.announcedLock && env.now >= active.value.lockDate)
      && (active.Some? && env.now < active.value.lockDate ==> r == s)
      && (Truthy(config.announce) && env.db.Ok? && active.Some? && !active.value.announcedLock
          && env.now >= active.value.lockDate
          && env.storeRead(Lock, active.value.id).Ok? && env.fetch(AnnounceChannel, active.value.id) == Ok(true)
          && env.send(AnnounceChannel, active.value.id).Ok? && env.update(Lock, active.value.id).Ok?
          ==> Flagged(r.store.tournaments, active.value.id, Lock)
              && Sent(AnnounceChannel, active.value.id,
                      LockedPost(GetParticipantCount(s.store, active.value.id))) in r.events)
  {
    var active := GetActiveTournament(s.store.tournaments);
    if active.Some? {
      var t := active.value;
      MarkAnnouncedFlags(s.store.tournaments, t.id, Lock, t.id, Lock);
      if Truthy(config.announce) && env.db.Ok? && !t.announcedLock && env.now >= t.lockDate
         && env.storeRead(Lock, t.id).Ok? && env.fetch(AnnounceChannel, t.id) == Ok(true)
         && env.send(AnnounceChannel, t.id).Ok? && env.update(Lock, t.id).Ok? {
        var r := CheckLocked(s, config, env);
        var post := LockedPost(GetParticipantCount(s.store, t.id));
        var e := Sent(AnnounceChannel, t.id, post);
        assert ChannelPost(s, AnnounceChannel, t.id, post, env).0.events == s.events + [e];
        assert r.events[|s.events|] == e;
      }
    }
  }

  /** A flag write logged by an announcement is reflected in the store. */
  lemma AnnouncementFlagEvent(s: Sched, t: Tournament, kind: Kind, env: Env)
    requires kind != Result && FlagSet(kind, t.id) !in s.events
    ensures var r := Announcement(s, t, kind, env).0;
      FlagSet(kind, t.id) in r.events ==> Flagged(r.store.tournaments, t.id, kind)
  {
    MarkAnnouncedFlags(s.store.tournaments, t.id, kind, t.id, kind);
  }

  /** The flags do not move the active tournament: `findOne` looks at the
      status only. */
  lemma FindActiveIgnoresFlags(ts: seq<Tournament>, tid: string, kind: Kind)
    ensures FindActive(MarkAnnounced(ts, tid, kind)) == FindActive(ts)
  {
    var ms := MarkAnnounced(ts, tid, kind);
    assert forall i :: 0 <= i < |ts| ==> ms[i].status == ts[i].status;
  }

  /** At most once: when a run of checkForLockedTournaments logs the lock
      flag write for a tournament, the next run does nothing at all,
      whatever its outcomes and its clock. */
  lemma LockAtMostOnce(s: Sched, config: Config, env: Env, env2: Env, tid: string)
    requires FlagSet(Lock, tid) !in s.events
    ensures var s1 := CheckLocked(s, config, env);
      FlagSet(Lock, tid) in s1.events ==> CheckLocked(s1, config, env2) == s1
  {
    var s1 := CheckLocked(s, config, env);
    if FlagSet(Lock, tid) in s1.events {
      LockGating(s, config, env);
      var ts := s.store.tournaments;
      var k := FindActive(ts).value;
      var t := ts[k];
      assert s1 == Announcement(s, t, Lock, env).0;
      AnnouncementEmits(s, t, Lock, env);
      var i :| 0 <= i < |s1.events| && s1.events[i] == FlagSet(Lock, tid);
      assert tid == t.id;
      AnnouncementFlagEvent(s, t, Lock, env);
      AnnouncementFlagWrite(s, t, Lock, env);
      var ts1 := s1.store.tournaments;
      assert ts1 == MarkAnnounced(ts, t.id, Lock);
      FindActiveIgnoresFlags(ts, t.id, Lock);
      assert ts1[k].id == t.id;
    }
  }

  // ==================== FINALIZED RESULTS ====================

  /** `{name: r.playerName || r.userId?.slice(0, 8) || 'Unknown',
      score: r.finalScore || 0}` (a number score of 0 is already 0). */
  function TopPlayerOf(r: TournamentResult): PopchingService.TopPlayer {
    var short := if r.userId.Some? then Take(r.userId.value, 8) else "";
    var name := if Truthy(r.playerName) then r.playerName.value else if short != "" then short else "Unknown";
    PopchingService.TopPlayer(name, r.finalScore)
  }

  /** `results.slice(0, 3).map(...)` */
  function TopPlayers(results: seq<TournamentResult>): seq<PopchingService.TopPlayer> {
    seq(if |results| < 3 then |results| else 3, i requires 0 <= i < |results| && i < 3 => TopPlayerOf(results[i]))
  }

  /** At most three players, in result order; the name falls back from the
      player name to the first eight characters of the user id to 'Unknown',
      so it is never empty. */
  lemma TopPlayersShape(results: seq<TournamentResult>)
    ensures var p := TopPlayers(results);
      && |p| == (if |results| < 3 then |results| else 3)
      && forall i :: 0 <= i < |p| ==>
        && p[i].score == results[i].finalScore
        && p[i].name != ""
        && (Truthy(results[i].playerName) ==> p[i].name == results[i].playerName.value)
        && (!Truthy(results[i].playerName) && results[i].userId.Some? && results[i].userId.value != ""
            ==> p[i].name == results[i].userId.value[..if |results[i].userId.value| < 8 then |results[i].userId.value| else 8])
        && (!Truthy(results[i].playerName) && (results[i].userId.None? || results[i].userId.value == "")
            ==> p[i].name == "Unknown")
  {
  }

  /** One iteration of checkForFinalizedResults. */
  function ResultsStep(s: Sched, t: Tournament, config: Config, env: Env): (Sched, bool) {
    if t.id in s.postedResults then (s, true)
    else if env.storeRead(Result, t.id).Throw? then (s, false)
    else
      var results := GetTournamentResults(s.store, t.id, 50);
      var r1 := ChannelPost(s, ResultsChannel, t.id, ResultsPost(results, PrizesOrDefault(t)), env);
      if !r1.1 then r1
      else
        var r2 := if Truthy(config.announce) then ChannelPost(r1.0, AnnounceChannel, t.id, FinalizedPost, env) else r1;
        if !r2.1 then r2
        else
          var s3 := SinkCalls(r2.0, Result, t.id, TopPlayers(results), env);
          (s3.(postedResults := s3.postedResults + {t.id}), true)
  }

  function ResultsStepOf(config: Config, env: Env): (Sched, Tournament) -> (Sched, bool) {
    (s, t) => ResultsStep(s, t, config, env)
  }

  /** checkForFinalizedResults: nothing without a results channel; otherwise
      the loop over the recently finalized tournaments. */
  function CheckFinalized(s: Sched, config: Config, env: Env): Sched {
    if !Truthy(config.results) then s
    else Run(s, RecentlyFinalized(s.store, env.now), ResultsStepOf(config, env)).0
  }

  /** A results step adds only events about its tournament, leaves the
      store alone and only ever adds to postedResults; an id already posted
      is skipped. */
  lemma ResultsStepEmits(s: Sched, t: Tournament, config: Config, env: Env)
    ensures var r := ResultsStep(s, t, config, env);
      && OnlyFor(s.events, r.0.events, t.id) && s.postedResults <= r.0.postedResults && r.0.store == s.store
      && (t.id in s.postedResults ==> r == (s, true))
  {
    if t.id !in s.postedResults && env.storeRead(Result, t.id).Ok? {
      var results := GetTournamentResults(s.store, t.id, 50);
      var r1 := ChannelPost(s, ResultsChannel, t.id, ResultsPost(results, PrizesOrDefault(t)), env);
      ChannelPostEmits(s, ResultsChannel, t.id, ResultsPost(results, PrizesOrDefault(t)), env);
      if r1.1 {
        var r2 := if Truthy(config.announce) then ChannelPost(r1.0, AnnounceChannel, t.id, FinalizedPost, env) else r1;
        ChannelPostEmits(r1.0, AnnounceChannel, t.id, FinalizedPost, env);
        OnlyForTrans(s.events, r1.0.events, r2.0.events, t.id);
        if r2.1 {
          SinkCallsEmits(r2.0, Result, t.id, TopPlayers(results), env);
          OnlyForTrans(s.events, r2.0.events, SinkCalls(r2.0, Result, t.id, TopPlayers(results), env).events, t.id);
        }
      }
    }
  }

  /** The id is added exactly when the step reaches its end, after both
      sinks were called; a step that throws leaves postedResults alone. */
  lemma ResultsStepPosted(s: Sched, t: Tournament, config: Config, env: Env)
    requires t.id !in s.postedResults
    ensures var r := ResultsStep(s, t, config, env);
      && (r.1 ==>
            && r.0.postedResults == s.postedResults + {t.id}
            && |r.0.events| >= 2
            && r.0.events[|r.0.events| - 2].SinkCall? && r.0.events[|r.0.events| - 2].sink == Popching
            && r.0.events[|r.0.events| - 1].SinkCall? && r.0.events[|r.0.events| - 1].sink == TelegramSink)
      && (!r.1 ==> r.0.postedResults == s.postedResults)
  {
    if env.storeRead(Result, t.id).Ok? {
      var results := GetTournamentResults(s.store, t.id, 50);
      var r1 := ChannelPost(s, ResultsChannel, t.id, ResultsPost(results, PrizesOrDefault(t)), env);
      ChannelPostEmits(s, ResultsChannel, t.id, ResultsPost(results, PrizesOrDefault(t)), env);
      if r1.1 {
        var r2 := if Truthy(config.announce) then ChannelPost(r1.0, AnnounceChannel, t.id, FinalizedPost, env) else r1;
        ChannelPostEmits(r1.0, AnnounceChannel, t.id, FinalizedPost, env);
        if r2.1 {
          SinkCallsEmits(r2.0, Result, t.id, TopPlayers(results), env);
        }
      }
    }
  }

  /** The chat fetch does not throw, and when it finds the channel the send
      does not throw either. */
  predicate PostGoesThrough(env: Env, channel: Channel, tid: string) {
    env.fetch(channel, tid).Ok? && (env.fetch(channel, tid).value ==> env.send(channel, tid).Ok?)
  }

  /** A tournament not yet posted is marked posted exactly when the step
      finishes, and it finishes exactly when the results read and the
      results post go through and, with an announce channel configured,
      the announce post too; the tweet and Telegram outcomes play no part. */
  lemma ResultsStepSucceeds(s: Sched, t: Tournament, config: Config, env: Env)
    requires t.id !in s.postedResults
    ensures var r := ResultsStep(s, t, config, env);
      && (r.1 <==> t.id in r.0.postedResults)
      && (r.1 <==> env.storeRead(Result, t.id).Ok? && PostGoesThrough(env, ResultsChannel, t.id)
                   && (Truthy(config.announce) ==> PostGoesThrough(env, AnnounceChannel, t.id)))
  {
  }

  /** The tweet and Telegram outcomes change nothing but the logged sink
      events: whether the step finishes, the store, postedResults and the
      pinned id are the same for any sink outcomes. */
  lemma ResultsStepIsolation(s: Sched, s': Sched, t: Tournament, config: Config, env: Env,
                             tweet: (Kind, string) -> Outcome<()>, telegram: (Kind, string) -> Outcome<()>)
    requires s.store == s'.store && s.postedResults == s'.postedResults && s.pinned == s'.pinned
    ensures var a := ResultsStep(s, t, config, env);
            var b := ResultsStep(s', t, config, env.(tweet := tweet, telegram := telegram));
      a.1 == b.1 && a.0.store == b.0.store && a.0.postedResults == b.0.postedResults && a.0.pinned == b.0.pinned
  {
    var env' := env.(tweet := tweet, telegram := telegram);
    if t.id !in s.postedResults && env.storeRead(Result, t.id).Ok? {
      var results := GetTournamentResults(s.store, t.id, 50);
      var post := ResultsPost(results, PrizesOrDefault(t));
      var p1 := ChannelPost(s, ResultsChannel, t.id, post, env);
      var q1 := ChannelPost(s', ResultsChannel, t.id, post, env');
      ChannelPostEmits(s, ResultsChannel, t.id, post, env);
      ChannelPostEmits(s', ResultsChannel, t.id, post, env');
      assert p1.1 == q1.1;
      if p1.1 {
        var p2 := if Truthy(config.announce) then ChannelPost(p1.0, AnnounceChannel, t.id, FinalizedPost, env) else p1;
        var q2 := if Truthy(config.announce) then ChannelPost(q1.0, AnnounceChannel, t.id, FinalizedPost, env') else q1;
        ChannelPostEmits(p1.0, AnnounceChannel, t.id, FinalizedPost, env);
        ChannelPostEmits(q1.0, AnnounceChannel, t.id, FinalizedPost, env');
        assert p2.1 == q2.1;
        if p2.1 {
          SinkCallsEmits(p2.0, Result, t.id, TopPlayers(results), env);
          SinkCallsEmits(q2.0, Result, t.id, TopPlayers(results), env');
        }
      }
    }
  }

  /** A posted id stays posted through the loop, and the loop adds no event
      about it. */
  lemma {:induction false} ResultsRunQuiet(s: Sched, ts: seq<Tournament>, config: Config, env: Env, tid: string)
    requires tid in s.postedResults
    ensures var r := Run(s, ts, ResultsStepOf(config, env)).0;
      QuietFor(s.events, r.events, tid) && tid in r.postedResults
    decreases |ts|
  {
    if ts != [] {
      var init := ts[..|ts| - 1];
      var last := ts[|ts| - 1];
      ResultsRunQuiet(s, init, config, env, tid);
      var p := Run(s, init, ResultsStepOf(config, env));
      if p.1 {
        ResultsStepEmits(p.0, last, config, env);
        if last.id != tid {
          QuietThenOther(s.events, p.0.events, Run(s, ts, ResultsStepOf(config, env)).0.events, tid, last.id);
        }
      }
    }
  }

  /** Results are posted at most once per process: once an id is in
      postedResults, later runs add no event about it and keep it there. */
  lemma ResultsAtMostOnce(s: Sched, config: Config, env: Env, tid: string)
    requires tid in s.postedResults
    ensures var r := CheckFinalized(s, config, env);
      QuietFor(s.events, r.events, tid) && tid in r.postedResults
  {
    if Truthy(config.results) {
      ResultsRunQuiet(s, RecentlyFinalized(s.store, env.now), config, env, tid);
    }
  }

  // ==================== STANDINGS ====================

  /** What the standings embeds are built from: the day, the top 25 and the
      participant count of the active tournament. */
  function StandingsOf(s: Sched, t: Tournament, env: Env): Post {
    StandingsPost(GetTournamentDay(t.startDate, env.now), Leaderboard(s.store, t.id, 25),
                  GetParticipantCount(s.store, t.id))
  }

  /** The body of postDailyStandings; the flag says whether the channel
      fetch or send threw (the job's catch logs it and returns). */
  function DailyStandings(s: Sched, config: Config, env: Env): (Sched, bool) {
    if !Truthy(config.standings) then (s, false)
    else
      match GetActiveTournament(s.store.tournaments)
      case None => (s, false)
      case Some(t) =>
        var posted := ChannelPost(s, StandingsChannel, t.id, StandingsOf(s, t, env), env);
        (posted.0, !posted.1)
  }

  /** The standings are sent once, to the standings channel, exactly when the
      channel is set, a tournament is active and the fetch and send succeed. */
  lemma DailyStandingsPosts(s: Sched, config: Config, env: Env)
    ensures var r := DailyStandings(s, config, env);
            var active := GetActiveTournament(s.store.tournaments);
      && (r.0 != s <==> Truthy(config.standings) && active.Some?
                        && env.fetch(StandingsChannel, active.value.id) == Ok(true)
                        && env.send(StandingsChannel, active.value.id).Ok?)
      && (r.0 != s ==> r.0 == WithEvent(s, Sent(StandingsChannel, active.value.id, StandingsOf(s, active.value, env))))
      && (r.1 ==> r.0 == s)
  {
    var r := DailyStandings(s, config, env);
    if r.0 != s {
      assert Truthy(config.standings);
    }
    if Truthy(config.standings) {
      var active := GetActiveTournament(s.store.tournaments);
      if active.Some? && env.fetch(StandingsChannel, active.value.id) == Ok(true)
         && env.send(StandingsChannel, active.value.id).Ok? {
        assert |r.0.events| == |s.events| + 1;
      }
    }
  }

  // ==================== PINNED STANDINGS ====================

  /** `m.author.id === client.user?.id && m.embeds.length > 0` */
  predicate IsBotMessage(m: PinnedMessage, botUserId: Option<string>) {
    botUserId.Some? && m.authorId == botUserId.value && m.embedCount > 0
  }

  /** `pinnedMessages.find(...)`: the first pinned message of the bot. */
  function FindBotMessage(ms: seq<PinnedMessage>, botUserId: Option<string>): (r: Option<nat>)
    ensures r.Some? ==> r.value < |ms| && IsBotMessage(ms[r.value], botUserId)
    ensures r.Some? ==> forall j :: 0 <= j < r.value ==> !IsBotMessage(ms[j], botUserId)
    ensures r.None? ==> forall j :: 0 <= j < |ms| ==> !IsBotMessage(ms[j], botUserId)
  {
    if ms == [] then None
    else if IsBotMessage(ms[0], botUserId) then Some(0)
    else
      match FindBotMessage(ms[1..], botUserId)
      case None => None
      case Some(k) => Some(k + 1)
  }

  /** The fallback search among the pinned messages: the first bot message is
      remembered, then edited; the result says whether the edit succeeded
      (a failed fetch or edit is caught and a new message follows). */
  function AdoptPinned(s: Sched, tid: string, post: Post, env: Env): (Sched, bool) {
    match env.pins
    case Throw => (s, false)
    case Ok(ms) =>
      match FindBotMessage(ms, env.botUserId)
      case None => (s, false)
      case Some(i) =>
        var s1 := s.(pinned := Some(ms[i].id));
        if env.editAdopted.Ok? then (WithEvent(s1, PinnedEdited(tid, ms[i].id, post)), true) else (s1, false)
  }

  /** Sends a new message and remembers its id whether or not pinning it
      works; a failed send goes to the job's catch. */
  function SendPinned(s: Sched, tid: string, post: Post, env: Env): Sched {
    match env.newMessage
    case Throw => s
    case Ok(id) =>
      var s1 := WithEvent(WithEvent(s, PinnedSent(tid, id, post)), PinRequested(tid, id, env.pin.Throw?));
      s1.(pinned := Some(id))
  }

  /** updatePinnedLeaderboard */
  function PinnedUpdate(s: Sched, config: Config, env: Env): Sched {
    if !Truthy(config.standings) then s
    else
      match GetActiveTournament(s.store.tournaments)
      case None => s
      case Some(t) =>
        var post := StandingsOf(s, t, env);
        match env.fetch(StandingsChannel, t.id)
        case Throw => s
        case Ok(found) =>
          if !found then s
          else if Truthy(s.pinned) && env.editRemembered.Ok? then WithEvent(s, PinnedEdited(t.id, s.pinned.value, post))
          else
            var s1 := if Truthy(s.pinned) then s.(pinned := None) else s;
            var adopted := AdoptPinned(s1, t.id, post, env);
            if adopted.1 then adopted.0 else SendPinned(adopted.0, t.id, post, env)
  }

  /** No channel or no active tournament: nothing happens.  A successful
      edit of the remembered message keeps its id and sends nothing. */
  lemma PinnedEditRemembered(s: Sched, config: Config, env: Env)
    ensures var r := PinnedUpdate(s, config, env);
            var active := GetActiveTournament(s.store.tournaments);
      && (!Truthy(config.standings) || active.None? ==> r == s)
      && (Truthy(config.standings) && active.Some? && env.fetch(StandingsChannel, active.value.id) == Ok(true)
          && Truthy(s.pinned) && env.editRemembered.Ok?
          ==> r.pinned == s.pinned && r.events == s.events + [PinnedEdited(active.value.id, s.pinned.value,
                                                                           StandingsOf(s, active.value, env))])
  {
  }

  /** When the remembered message cannot be edited (or none is remembered),
      the first pinned bot message with an embed is adopted if its edit
      succeeds; otherwise a new message is sent and its id remembered even if
      pinning fails. */
  lemma PinnedFallback(s: Sched, config: Config, env: Env)
    requires Truthy(config.standings) && GetActiveTournament(s.store.tournaments).Some?
    requires env.fetch(StandingsChannel, GetActiveTournament(s.store.tournaments).value.id) == Ok(true)
    requires !Truthy(s.pinned) || env.editRemembered.Throw?
    ensures var r := PinnedUpdate(s, config, env);
            var t := GetActiveTournament(s.store.tournaments).value;
            var post := StandingsOf(s, t, env);
      && (env.pins.Ok? && FindBotMessage(env.pins.value, env.botUserId).Some? && env.editAdopted.Ok?
          ==> var m := env.pins.value[FindBotMessage(env.pins.value, env.botUserId).value];
              r.pinned == Some(m.id) && r.events == s.events + [PinnedEdited(t.id, m.id, post)])
      && (!(env.pins.Ok? && FindBotMessage(env.pins.value, env.botUserId).Some? && env.editAdopted.Ok?)
          && env.newMessage.Ok?
          ==> r.pinned == Some(env.newMessage.value)
              && r.events[|r.events| - 2..] == [PinnedSent(t.id, env.newMessage.value, post),
                                               PinRequested(t.id, env.newMessage.value, env.pin.Throw?)])
      && (env.newMessage.Ok? ==> r.pinned.Some?)
  {
  }

  /** After a failed edit of the remembered message, the old id survives only
      if it is found again among the pins or is the new message's id. */
  lemma PinnedFailedEditForgets(s: Sched, config: Config, env: Env)
    requires Truthy(config.standings) && GetActiveTournament(s.store.tournaments).Some?
    requires env.fetch(StandingsChannel, GetActiveTournament(s.store.tournaments).value.id) == Ok(true)
    requires Truthy(s.pinned) && env.editRemembered.Throw?
    requires env.pins.Throw? && env.newMessage.Throw?
    ensures PinnedUpdate(s, config, env).pinned == None
    ensures PinnedUpdate(s, config, env).events == s.events
  {
  }

  // ==================== THE SCHEDULER ====================

  class Scheduler {
    const config: Config
    var store: Store
    var postedResults: set<string>
    var pinnedMessageId: Option<string>
    var events: seq<Event>

    function State(): Sched
      reads this
    {
      Sched(store, postedResults, pinnedMessageId, events)
    }

    /** A fresh process: nothing posted and no pinned message known. */
    constructor(config: Config, store: Store)
      ensures this.config == config && State() == Sched(store, {}, None, [])
    {
      this.config := config;
      this.store := store;
      postedResults := {};
      pinnedMessageId := None;
      events := [];
    }

    method Emit(e: Event)
      modifies this
      ensures State() == WithEvent(old(State()), e)
    {
      events := events + [e];
    }

    method PostToChannel(channel: Channel, tid: string, post: Post, env: Env) returns (ok: bool)
      modifies this
      ensures (State(), ok) == ChannelPost(old(State()), channel, tid, post, env)
    {
      var fetched := env.fetch(channel, tid);
      if fetched.Throw? {
        return false;
      }
      if fetched.value {
        if env.send(channel, tid).Throw? {
          return false;
        }
        Emit(Sent(channel, tid, post));
      }
      ok := true;
    }

    method CallSinks(kind: Kind, tid: string, podium: seq<PopchingService.TopPlayer>, env: Env)
      modifies this
      ensures State() == SinkCalls(old(State()), kind, tid, podium, env)
    {
      Emit(SinkCall(Popching, kind, tid, podium, env.tweet(kind, tid).Throw?));
      Emit(SinkCall(TelegramSink, kind, tid, podium, env.telegram(kind, tid).Throw?));
    }

    method Announce(t: Tournament, kind: Kind, env: Env) returns (ok: bool)
      modifies this
      ensures (State(), ok) == Announcement(old(State()), t, kind, env)
    {
      if env.storeRead(kind, t.id).Throw? {
        return false;
      }
      var count := GetParticipantCount(store, t.id);
      var post := if kind == Creation then CreatedPost(count) else LockedPost(count);
      ok := PostToChannel(AnnounceChannel, t.id, post, env);
      if !ok {
        return;
      }
      CallSinks(kind, t.id, [], env);
      if env.update(kind, t.id).Throw? {
        return false;
      }
      store := store.(tournaments := MarkAnnounced(store.tournaments, t.id, kind));
      Emit(FlagSet(kind, t.id));
    }

    /** checkForNewTournaments */
    method CheckForNewTournaments(env: Env)
      modifies this
      ensures State() == CheckNew(old(State()), config, env)
      ensures !Truthy(config.announce) ==> State() == old(State())
    {
      if !Truthy(config.announce) || env.db.Throw? {
        return;
      }
      var tournaments := GetUpcomingTournaments(store.tournaments);
      ghost var s0 := State();
      ghost var step := NewStepOf(env);
      var i := 0;
      while i < |tournaments|
        invariant 0 <= i <= |tournaments|
        invariant Run(s0, tournaments[..i], step) == (State(), true)
      {
        var t := tournaments[i];
        ghost var before := State();
        RunNext(s0, tournaments, step, i);
        var ok := true;
        if !t.announcedCreation {
          ok := Announce(t, Creation, env);
        }
        assert (State(), ok) == NewStep(before, t, env) == step(before, t);
        if !ok {
          RunAbort(s0, tournaments, step, i + 1);
          return;
        }
        i := i + 1;
      }
      assert tournaments[..i] == tournaments;
    }

    /** checkForLockedTournaments */
    method CheckForLockedTournaments(env: Env)
      modifies this
      ensures State() == CheckLocked(old(State()), config, env)
    {
      if !Truthy(config.announce) || env.db.Throw? {
        return;
      }
      var active := GetActiveTournament(store.tournaments);
      if active.None? {
        return;
      }
      var t := active.value;
      if t.announcedLock || env.now < t.lockDate {
        return;
      }
      var ok := Announce(t, Lock, env);
    }

    /** The body of one iteration of checkForFinalizedResults. */
    method PostResults(t: Tournament, env: Env) returns (ok: bool)
      requires t.id !in postedResults
      modifies this
      ensures (State(), ok) == ResultsStep(old(State()), t, config, env)
    {
      if env.storeRead(Result, t.id).Throw? {
        return false;
      }
      var results := GetTournamentResults(store, t.id, 50);
      var prizes := PrizesOrDefault(t);
      ok := PostToChannel(ResultsChannel, t.id, ResultsPost(results, prizes), env);
      if !ok {
        return;
      }
      if Truthy(config.announce) {
        ok := PostToChannel(AnnounceChannel, t.id, FinalizedPost, env);
        if !ok {
          return;
        }
      }
      CallSinks(Result, t.id, TopPlayers(results), env);
      postedResults := postedResults + {t.id};
    }

    /** checkForFinalizedResults */
    method CheckForFinalizedResults(env: Env)
      modifies this
      ensures State() == CheckFinalized(old(State()), config, env)
    {
      if !Truthy(config.results) {
        return;
      }
      var finalized := RecentlyFinalized(store, env.now);
      ghost var s0 := State();
      ghost var step := ResultsStepOf(config, env);
      var i := 0;
      while i < |finalized|
        invariant 0 <= i <= |finalized|
        invariant Run(s0, finalized[..i], step) == (State(), true)
      {
        var t := finalized[i];
        ghost var before := State();
        RunNext(s0, finalized, step, i);
        var ok := true;
        if t.id !in postedResults {
          ok := PostResults(t, env);
        }
        assert (State(), ok) == ResultsStep(before, t, config, env) == step(before, t);
        if !ok {
          RunAbort(s0, finalized, step, i + 1);
          return;
        }
        i := i + 1;
      }
      assert finalized[..i] == finalized;
    }

    /** The 15-minute job: the three checks in order, each on the state the
      previous one left. */
    method Tick(env: Env)
      modifies this
      ensures State() == CheckFinalized(CheckLocked(CheckNew(old(State()), config, env), config, env), config, env)
    {
      CheckForNewTournaments(env);
      CheckForLockedTournaments(env);
      CheckForFinalizedResults(env);
    }

    /** The body of postDailyStandings, reporting whether it threw. */
    method PostStandings(env: Env) returns (threw: bool)
      modifies this
      ensures (State(), threw) == DailyStandings(old(State()), config, env)
    {
      if !Truthy(config.standings) {
        return false;
      }
      var active := GetActiveTournament(store.tournaments);
      if active.None? {
        return false;
      }
      var t := active.value;
      var ok := PostToChannel(StandingsChannel, t.id, StandingsOf(State(), t, env), env);
      threw := !ok;
    }

    /** postDailyStandings: every failure is caught and logged. */
    method PostDailyStandings(env: Env)
      modifies this
      ensures State() == DailyStandings(old(State()), config, env).0
    {
      var threw := PostStandings(env);
    }

    /** triggerStandingsPost as written: postDailyStandings never throws, so
      the catch that returns false cannot run and the answer is always
      true. */
    method TriggerStandingsPostAsWritten(env: Env) returns (ok: bool)
      modifies this
      ensures State() == DailyStandings(old(State()), config, env).0
      ensures ok
    {
      PostDailyStandings(env);
      ok := true;
    }

    /** triggerStandingsPost as intended: false exactly when the post failed
      with an error. */
    method TriggerStandingsPost(env: Env) returns (ok: bool)
      modifies this
      ensures (State(), !ok) == DailyStandings(old(State()), config, env)
    {
      var threw := PostStandings(env);
      ok := !threw;
    }

    /** updatePinnedLeaderboard */
    method UpdatePinnedLeaderboard(env: Env)
      modifies this
      ensures State() == PinnedUpdate(old(State()), config, env)
    {
      if !Truthy(config.standings) {
        return;
      }
      var active := GetActiveTournament(store.tournaments);
      if active.None? {
        return;
      }
      var t := active.value;
      var post := StandingsOf(State(), t, env);
      var fetched := env.fetch(StandingsChannel, t.id);
      if fetched.Throw? || !fetched.value {
        return;
      }
      if Truthy(pinnedMessageId) {
        if env.editRemembered.Ok? {
          Emit(PinnedEdited(t.id, pinnedMessageId.value, post));
          return;
        }
        pinnedMessageId := None;
      }
      if env.pins.Ok? {
        var found := FindBotMessage(env.pins.value, env.botUserId);
        if found.Some? {
          var m := env.pins.value[found.value];
          pinnedMessageId := Some(m.id);
          if env.editAdopted.Ok? {
            Emit(PinnedEdited(t.id, m.id, post));
            return;
          }
        }
      }
      if env.newMessage.Throw? {
        return;
      }
      var id := env.newMessage.value;
      Emit(PinnedSent(t.id, id, post));
      Emit(PinRequested(t.id, id, env.pin.Throw?));
      pinnedMessageId := Some(id);
    }
  }

  // ==================== FINDING ====================

  /** A standings post whose send throws: the post fails, yet
      TriggerStandingsPostAsWritten answers true for it (its ensures says so
      for every input), while TriggerStandingsPost answers false. */
  lemma TriggerAfterFailedSend(s: Sched, config: Config, env: Env)
    requires Truthy(config.standings) && GetActiveTournament(s.store.tournaments).Some?
    requires env.fetch(StandingsChannel, GetActiveTournament(s.store.tournaments).value.id) == Ok(true)
    requires env.send(StandingsChannel, GetActiveTournament(s.store.tournaments).value.id).Throw?
    ensures DailyStandings(s, config, env) == (s, true)
  {
  }
}
