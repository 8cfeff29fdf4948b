/** The persistent game state as one value: currency, generators, owned
    upgrades, achievements, explored planets, prestige, the stats record and
    the daily challenge with its progress record. */
module State {
  import opened Content
  import opened Economy

  /** The `stats` record. Times are milliseconds since the epoch. */
  datatype Stats = Stats(
    totalClicks: nat,
    totalEarned: real,
    totalSpent: real,
    startTime: int,
    lastSave: int,
    sessionStart: int,
    totalPurchases: nat,
    sessionEarned: real,
    sessionClicks: nat)

  /** The `challengeProgress` map. A key the map lacks reads as 0 (or as
      false for `completed`), which is how every reader of the map treats it. */
  datatype Progress = Progress(clicks: nat, earn: real, purchases: nat, completed: bool)

  /** The issued daily challenge: a catalog entry stamped with the date
      string of the day it was issued. */
  datatype DailyChallenge = DailyChallenge(challenge: Challenge, startDate: string)

  datatype GameData = GameData(
    currency: real,
    generators: seq<Generator>,
    upgrades: seq<Upgrade>,
    achievements: seq<string>,
    explored: seq<string>,
    prestigeLevel: nat,
    prestigePoints: nat,
    buyQuantity: nat,
    stats: Stats,
    dailyChallenge: Option<DailyChallenge>,
    progress: Progress)

  function NoProgress(): Progress {
    Progress(0, 0.0, 0, false)
  }

  function FreshStats(now: int): Stats {
    Stats(0, 0.0, 0.0, now, now, now, 0, 0.0, 0)
  }

  /** The state a new game starts in, before a daily challenge is issued. */
  function FreshGame(now: int): GameData {
    GameData(0.0, FreshGenerators(), [], [], [], 0, 0, 1, FreshStats(now), None, NoProgress())
  }

  /** The catalog challenge at the chosen index, stamped with today's date. */
  function Issue(pick: nat, today: string): DailyChallenge
    requires pick < |DailyChallenges()|
  {
    DailyChallenge(DailyChallenges()[pick], today)
  }

  /** The value of the counter a challenge kind is measured on. */
  function ProgressOf(p: Progress, kind: CounterKind): real {
    match kind
    case Clicks => p.clicks as real
    case Earn => p.earn
    case Purchases => p.purchases as real
  }

  /** Passive income per second of a state. */
  function Cps(d: GameData): real {
    Production(d.generators, d.upgrades, d.explored, d.prestigeLevel)
  }

  /** Energy per click in a state. */
  function Power(d: GameData): real {
    ClickPower(d.upgrades, d.prestigeLevel)
  }

  /** The invariant every operation keeps: no negative currency or totals,
      catalog-like generators and upgrades, owned lists without duplicates
      and a daily challenge whose reward is not negative. */
  predicate WellFormed(d: GameData) {
    && d.currency >= 0.0
    && GeneratorsOk(d.generators)
    && UpgradesOk(d.upgrades)
    && Distinct(UpgradeIds(d.upgrades))
    && Distinct(d.explored)
    && Distinct(d.achievements)
    && d.stats.totalEarned >= 0.0
    && d.stats.totalSpent >= 0.0
    && d.stats.sessionEarned >= 0.0
    && d.progress.earn >= 0.0
    && (d.dailyChallenge.Some? ==> d.dailyChallenge.value.challenge.reward >= 0.0)
  }

  lemma FreshGameWellFormed(now: int)
    ensures WellFormed(FreshGame(now))
  {
    CatalogsWellFormed();
    assert forall g :: g in BaseGenerators() ==> GeneratorOk(g);
    var gens := FreshGenerators();
    assert forall j :: 0 <= j < |gens| ==> gens[j] in BaseGenerators();
  }

  /** In a well-formed state production is non-negative and a click is
      worth at least 1. */
  lemma WellFormedRates(d: GameData)
    requires WellFormed(d)
    ensures Cps(d) >= 0.0 && Power(d) >= 1.0
  {
    ProductionNonNegative(d.generators, d.upgrades, d.explored, d.prestigeLevel);
    ClickPowerAtLeastOne(d.upgrades, d.prestigeLevel);
  }

  lemma DistinctAppend<T>(s: seq<T>, x: T)
    requires Distinct(s) && x !in s
    ensures Distinct(s + [x])
  {
  }
}
