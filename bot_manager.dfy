/** The bot registry of src/core/BotManager.ts: a name-keyed map of managed
    Discord bots kept in registration order, with duplicate rejection, type
    filters, start/stop and a status summary.  A managed bot is a record of
    its name, type, token and connection state; logging in is an injected
    outcome. */
module BotManager {
  import opened Wrappers
  import opened Seqs

  datatype BotType = Price | Main | Tournament

  datatype BotConfig = BotConfig(name: string, token: string, botType: BotType)

  /** A ManagedBot: `hasClient` is `client !== null`, `ready` is `isReady`. */
  datatype ManagedBot = ManagedBot(name: string, botType: BotType, token: string, hasClient: bool, ready: bool)

  function NewBot(config: BotConfig): ManagedBot {
    ManagedBot(config.name, config.botType, config.token, false, false)
  }

  /** `Boolean(this.token)` */
  predicate HasToken(b: ManagedBot) {
    b.token != ""
  }

  /** `this.isReady && this.client !== null` */
  predicate IsOnline(b: ManagedBot) {
    b.ready && b.hasClient
  }

  /** The map's keys are distinct. */
  predicate UniqueNames(bots: seq<ManagedBot>) {
    forall i, j :: 0 <= i < j < |bots| ==> bots[i].name != bots[j].name
  }

  /** The position of the bot called `name`, the first one if several. */
  function Find(bots: seq<ManagedBot>, name: string): (r: Option<nat>)
    ensures r.Some? ==> r.value < |bots| && bots[r.value].name == name
    ensures r.Some? ==> forall j :: 0 <= j < r.value ==> bots[j].name != name
    ensures r.None? <==> forall i :: 0 <= i < |bots| ==> bots[i].name != name
  {
    if bots == [] then None
    else if bots[0].name == name then Some(0)
    else match Find(bots[1..], name)
      case None => None
      case Some(k) => Some(k + 1)
  }

  /** `this.bots.get(name)` */
  function BotNamed(bots: seq<ManagedBot>, name: string): Option<ManagedBot> {
    match Find(bots, name)
    case None => None
    case Some(i) => Some(bots[i])
  }

  /** After registering a new name, getBot finds the new bot under it and
      every other name finds what it found before. */
  lemma RegisterThenGet(bots: seq<ManagedBot>, config: BotConfig, name: string)
    requires Find(bots, config.name).None?
    ensures BotNamed(bots + [NewBot(config)], config.name) == Some(NewBot(config))
    ensures name != config.name ==> BotNamed(bots + [NewBot(config)], name) == BotNamed(bots, name)
  {
    var bots' := bots + [NewBot(config)];
    assert forall i :: 0 <= i < |bots| ==> bots'[i] == bots[i];
    assert bots'[|bots|] == NewBot(config);
  }

  /** `Array.from(this.bots.values()).filter(bot => bot.type === type)` */
  function BotsOfType(bots: seq<ManagedBot>, t: BotType): seq<ManagedBot> {
    Filter(bots, (b: ManagedBot) => b.botType == t)
  }

  /** getBotsByType returns exactly the bots of that type (in registration
      order, as Filter keeps order). */
  lemma BotsOfTypeExact(bots: seq<ManagedBot>, t: BotType)
    ensures forall b :: b in BotsOfType(bots, t) <==> b in bots && b.botType == t
  {
    FilterMembers(bots, (b: ManagedBot) => b.botType == t);
  }

  /** `bots.length > 0 ? bots[0] : undefined` over the bots of a type. */
  function FirstOfType(bots: seq<ManagedBot>, t: BotType): Option<ManagedBot> {
    var r := BotsOfType(bots, t);
    if |r| > 0 then Some(r[0]) else None
  }

  /** getMainBot / getTournamentBot: the first registered bot of the type,
      or undefined when there is none. */
  lemma FirstOfTypeIsFirst(bots: seq<ManagedBot>, t: BotType)
    ensures FirstOfType(bots, t).None? <==> forall i :: 0 <= i < |bots| ==> bots[i].botType != t
    ensures FirstOfType(bots, t).Some? ==>
      exists k :: 0 <= k < |bots| && FirstOfType(bots, t) == Some(bots[k]) && bots[k].botType == t
                  && forall j :: 0 <= j < k ==> bots[j].botType != t
  {
    var p := (b: ManagedBot) => b.botType == t;
    if k :| 0 <= k < |bots| && bots[k].botType == t {
      var k0 := FirstIndex(bots, t, 0, k);
      FilterFirst(bots, p, k0);
    } else {
      FilterNone(bots, p);
    }
  }

  /** The least index of a bot of type t, searching upwards from i, given
      that index k holds one. */
  function FirstIndex(bots: seq<ManagedBot>, t: BotType, i: nat, k: nat): (r: nat)
    requires i <= k < |bots| && bots[k].botType == t
    requires forall j :: 0 <= j < i ==> bots[j].botType != t
    ensures r <= k && bots[r].botType == t && forall j :: 0 <= j < r ==> bots[j].botType != t
    decreases k - i
  {
    if bots[i].botType == t then i else FirstIndex(bots, t, i + 1, k)
  }

  /** What `{ total, online, offline }` reports. */
  datatype Status = Status(total: int, online: int, offline: int)

  function StatusOf(bots: seq<ManagedBot>): Status {
    var online := Filter(bots, IsOnline);
    Status(|bots|, |online|, |bots| - |online|)
  }

  /** total is the number of bots and online + offline = total; offline
      counts exactly the bots that are not online. */
  lemma StatusCounts(bots: seq<ManagedBot>)
    ensures var s := StatusOf(bots);
      && s.total == |bots| && s.online + s.offline == s.total && 0 <= s.online <= s.total
      && s.offline == |Filter(bots, (b: ManagedBot) => !IsOnline(b))|
  {
    FilterPartition(bots, IsOnline, (b: ManagedBot) => !IsOnline(b));
  }

  /** `bot.start()`: without a token it resolves and changes nothing;
      otherwise it creates the client and, once logged in, is ready. */
  function Started(b: ManagedBot, login: Outcome<()>): ManagedBot {
    if !HasToken(b) then b
    else b.(hasClient := true, ready := b.ready || login.Ok?)
  }

  /** `bot.start()` rejects only when there is a token and the login fails. */
  predicate StartRejects(b: ManagedBot, login: Outcome<()>) {
    HasToken(b) && login.Throw?
  }

  /** A login that goes through brings a bot with a token online. */
  lemma StartedOnline(b: ManagedBot, login: Outcome<()>)
    ensures HasToken(b) && login.Ok? ==> IsOnline(Started(b, login))
    ensures !HasToken(b) ==> Started(b, login) == b
    ensures Started(b, login).name == b.name && Started(b, login).botType == b.botType
  {
  }

  /** `bot.stop()`: destroys the client, if any, and clears the ready flag. */
  function Stopped(b: ManagedBot): (r: ManagedBot)
    ensures !IsOnline(r) && r.name == b.name && r.botType == b.botType && r.token == b.token
  {
    if b.hasClient then b.(hasClient := false, ready := false) else b
  }

  /** One entry of startAll's `results`. */
  datatype StartRecord = StartRecord(name: string, success: bool)

  /** startAll's records: every bot gets one, in order; skipped (tokenless)
      and failed bots are recorded as unsuccessful. */
  function StartRecords(bots: seq<ManagedBot>, logins: seq<Outcome<()>>): (r: seq<StartRecord>)
    requires |logins| == |bots|
  {
    seq(|bots|, i requires 0 <= i < |bots| => StartRecord(bots[i].name, HasToken(bots[i]) && logins[i].Ok?))
  }

  /** The bots after startAll: each bot with a token has been started with
      its own login outcome, whatever happened to the others. */
  function StartedAll(bots: seq<ManagedBot>, logins: seq<Outcome<()>>): (r: seq<ManagedBot>)
    requires |logins| == |bots|
  {
    seq(|bots|, i requires 0 <= i < |bots| => if HasToken(bots[i]) then Started(bots[i], logins[i]) else bots[i])
  }

  predicate Succeeded(r: StartRecord) {
    r.success
  }

  /** successful + failed is the number of bots; a bot counts as successful
      exactly when it has a token and its login went through. */
  lemma StartAllCounts(bots: seq<ManagedBot>, logins: seq<Outcome<()>>)
    requires |logins| == |bots|
    ensures var records := StartRecords(bots, logins);
      && |records| == |bots|
      && |Filter(records, Succeeded)| + |Filter(records, (r: StartRecord) => !r.success)| == |bots|
      && forall i :: 0 <= i < |bots| ==>
           (records[i].name == bots[i].name && (records[i].success <==> HasToken(bots[i]) && logins[i].Ok?))
  {
    FilterPartition(StartRecords(bots, logins), Succeeded, (r: StartRecord) => !r.success);
  }

  /** StartAll keeps the names and types, hence the registry's keys. */
  lemma StartedAllKeys(bots: seq<ManagedBot>, logins: seq<Outcome<()>>)
    requires |logins| == |bots| && UniqueNames(bots)
    ensures var r := StartedAll(bots, logins);
      |r| == |bots| && UniqueNames(r) && forall i :: 0 <= i < |r| ==> r[i].name == bots[i].name && r[i].botType == bots[i].botType
  {
    var r := StartedAll(bots, logins);
    forall i | 0 <= i < |r| ensures r[i].name == bots[i].name && r[i].botType == bots[i].botType {
      StartedOnline(bots[i], logins[i]);
    }
  }

  class Manager {
    /** `this.bots`, in insertion order. */
    var bots: seq<ManagedBot>

    predicate Valid()
      reads this
    {
      UniqueNames(bots)
    }

    constructor ()
      ensures Valid() && bots == []
    {
      bots := [];
    }

    /** registerBot: throws on a taken name and leaves the map unchanged;
        otherwise appends the new bot and returns it. */
    method RegisterBot(config: BotConfig) returns (r: Outcome<ManagedBot>)
      requires Valid()
      modifies this
      ensures Valid()
      ensures Find(old(bots), config.name).Some? ==> r.Throw? && bots == old(bots)
      ensures Find(old(bots), config.name).None? ==> r == Ok(NewBot(config)) && bots == old(bots) + [NewBot(config)]
    {
      if Find(bots, config.name).Some? {
        return Throw;
      }
      var bot := NewBot(config);
      bots := bots + [bot];
      return Ok(bot);
    }

    function GetBot(name: string): Option<ManagedBot>
      reads this
    {
      BotNamed(bots, name)
    }

    function GetBotsByType(t: BotType): seq<ManagedBot>
      reads this
    {
      BotsOfType(bots, t)
    }

    function GetPriceBots(): seq<ManagedBot>
      reads this
    {
      GetBotsByType(Price)
    }

    function GetMainBot(): Option<ManagedBot>
      reads this
    {
      FirstOfType(bots, Main)
    }

    function GetTournamentBot(): Option<ManagedBot>
      reads this
    {
      FirstOfType(bots, Tournament)
    }

    function GetAllBots(): seq<ManagedBot>
      reads this
    {
      bots
    }

    function GetOnlineBots(): seq<ManagedBot>
      reads this
    {
      Filter(bots, IsOnline)
    }

    function GetStatus(): Status
      reads this
    {
      StatusOf(bots)
    }

    /** startAll: one record per bot, in order; the loop goes on past a
        skipped or failed bot. */
    method StartAll(logins: seq<Outcome<()>>) returns (records: seq<StartRecord>, successful: nat, failed: nat)
      requires Valid() && |logins| == |bots|
      modifies this
      ensures Valid()
      ensures records == StartRecords(old(bots), logins)
      ensures bots == StartedAll(old(bots), logins)
      ensures successful == |Filter(records, Succeeded)| && failed == |Filter(records, (r: StartRecord) => !r.success)|
    {
      ghost var initial := bots;
      records := [];
      var i := 0;
      while i < |bots|
        invariant |bots| == |initial| && 0 <= i <= |bots|
        invariant |records| == i
        invariant forall k :: 0 <= k < i ==> records[k] == StartRecords(initial, logins)[k]
        invariant forall k :: 0 <= k < i ==> bots[k] == StartedAll(initial, logins)[k]
        invariant forall k :: i <= k < |bots| ==> bots[k] == initial[k]
      {
        var bot := bots[i];
        if !HasToken(bot) {
          records := records + [StartRecord(bot.name, false)];
        } else {
          bots := bots[i := Started(bot, logins[i])];
          records := records + [StartRecord(bot.name, logins[i].Ok?)];
        }
        i := i + 1;
      }
      StartedAllKeys(initial, logins);
      successful := |Filter(records, Succeeded)|;
      failed := |Filter(records, (r: StartRecord) => !r.success)|;
    }

    /** startBot: throws for an unknown name; otherwise starts that bot. */
    method StartBot(name: string, login: Outcome<()>) returns (r: Outcome<()>)
      requires Valid()
      modifies this
      ensures Valid()
      ensures Find(old(bots), name).None? ==> r.Throw? && bots == old(bots)
      ensures Find(old(bots), name).Some? ==>
        var i := Find(old(bots), name).value;
        && bots == old(bots)[i := Started(old(bots)[i], login)]
        && (r.Throw? <==> StartRejects(old(bots)[i], login))
    {
      match Find(bots, name)
      case None =>
        r := Throw;
      case Some(i) =>
        var bot := bots[i];
        bots := bots[i := Started(bot, login)];
        r := if StartRejects(bot, login) then Throw else Ok(());
    }

    /** stopAll: every bot stopped, so none is online. */
    method StopAll()
      requires Valid()
      modifies this
      ensures Valid()
      ensures |bots| == |old(bots)| && forall k :: 0 <= k < |bots| ==> bots[k] == Stopped(old(bots)[k])
      ensures GetOnlineBots() == []
    {
      ghost var initial := bots;
      var i := 0;
      while i < |bots|
        invariant |bots| == |initial| && 0 <= i <= |bots|
        invariant forall k :: 0 <= k < i ==> bots[k] == Stopped(initial[k])
        invariant forall k :: i <= k < |bots| ==> bots[k] == initial[k]
      {
        bots := bots[i := Stopped(bots[i])];
        i := i + 1;
      }
      FilterNone(bots, IsOnline);
    }

    /** stopBot: throws for an unknown name; otherwise stops that bot. */
    method StopBot(name: string) returns (r: Outcome<()>)
      requires Valid()
      modifies this
      ensures Valid()
      ensures Find(old(bots), name).None? ==> r.Throw? && bots == old(bots)
      ensures Find(old(bots), name).Some? ==>
        var i := Find(old(bots), name).value;
        r.Ok? && bots == old(bots)[i := Stopped(old(bots)[i])]
    {
      match Find(bots, name)
      case None =>
        r := Throw;
      case Some(i) =>
        bots := bots[i := Stopped(bots[i])];
        r := Ok(());
    }
  }

  /** The process-wide `BotManager.instance`. */
  class Process {
    var instance: Manager?

    constructor ()
      ensures instance == null
    {
      instance := null;
    }

    /** getInstance: creates the manager on first use, then always returns it. */
    method GetInstance() returns (m: Manager)
      modifies this
      ensures instance == m
      ensures old(instance) != null ==> m == old(instance)
      ensures old(instance) == null ==> fresh(m) && m.bots == []
    {
      if instance == null {
        instance := new Manager();
      }
      m := instance;
    }

    /** Two calls give the same manager. */
    method GetInstanceTwice() returns (a: Manager, b: Manager)
      modifies this
      ensures a == b && instance == a
    {
      a := GetInstance();
      b := GetInstance();
    }
  }
}
