/** The game's content tables: generators, upgrades, planets, achievements,
    prestige thresholds and daily challenges, with the value types that
    describe them. Display-only attributes (names, icons, descriptions) are
    not modelled. */
module Content {

  datatype Option<+T> = None | Some(value: T) {
    function GetOr(default: T): T {
      match this
      case Some(v) => v
      case None => default
    }
  }

  /** A generator kind together with the number the player owns. */
  datatype Generator = Generator(id: string, baseCost: real, cps: real, qty: nat)

  /** What an upgrade does once owned: the `type` tag of an upgrade and the
      fields that belong to it. */
  datatype Effect =
    | ClickMultiplier(value: real)
    | GeneratorMultiplier(generator: string, value: real)
    | GlobalMultiplier(value: real)
    | AutoClick

  datatype Upgrade = Upgrade(id: string, cost: real, effect: Effect)

  datatype Planet = Planet(id: string, cost: real, bonus: real)

  /** The predicate of an achievement, one constructor per shape of check. */
  datatype Rule =
    | ClicksAtLeast(clicks: nat)
    | CurrencyAtLeast(amount: real)
    | CpsAtLeast(rate: real)
    | AnyGeneratorAtLeast(count: nat)
    | TotalEarnedAtLeast(earned: real)
    | PlaytimeAtLeast(ms: int)
    | ExploredAtLeast(planets: nat)

  datatype Achievement = Achievement(id: string, rule: Rule, reward: real)

  /** The counter a daily challenge is measured on. */
  datatype CounterKind = Clicks | Earn | Purchases

  datatype Challenge = Challenge(id: string, target: real, kind: CounterKind, reward: real)

  function BaseGenerators(): seq<Generator> {
    [ Generator("solar", 15.0, 0.1, 0),
      Generator("satellite", 100.0, 1.0, 0),
      Generator("miner", 550.0, 5.0, 0),
      Generator("moonbase", 3000.0, 25.0, 0),
      Generator("forge", 15000.0, 120.0, 0),
      Generator("wormhole", 95000.0, 800.0, 0),
      Generator("dyson", 1000000.0, 5000.0, 0),
      Generator("quasar", 10000000.0, 50000.0, 0),
      Generator("universe", 100000000.0, 500000.0, 0) ]
  }

  function BaseUpgrades(): seq<Upgrade> {
    [ Upgrade("click_2x", 500.0, ClickMultiplier(2.0)),
      Upgrade("solar_2x", 1000.0, GeneratorMultiplier("solar", 2.0)),
      Upgrade("click_5x", 5000.0, ClickMultiplier(5.0)),
      Upgrade("global_15", 25000.0, GlobalMultiplier(1.15)),
      Upgrade("satellite_3x", 50000.0, GeneratorMultiplier("satellite", 3.0)),
      Upgrade("click_10x", 100000.0, ClickMultiplier(10.0)),
      Upgrade("global_25", 500000.0, GlobalMultiplier(1.25)),
      Upgrade("auto_clicker", 1000000.0, AutoClick) ]
  }

  function Achievements(): seq<Achievement> {
    [ Achievement("a_first_click", ClicksAtLeast(1), 10.0),
      Achievement("a_100_clicks", ClicksAtLeast(100), 100.0),
      Achievement("a_1k_clicks", ClicksAtLeast(1000), 1000.0),
      Achievement("a_1k", CurrencyAtLeast(1000.0), 100.0),
      Achievement("a_100k", CurrencyAtLeast(100000.0), 10000.0),
      Achievement("a_1m", CurrencyAtLeast(1000000.0), 100000.0),
      Achievement("a_cps_50", CpsAtLeast(50.0), 500.0),
      Achievement("a_cps_1k", CpsAtLeast(1000.0), 5000.0),
      Achievement("a_cps_100k", CpsAtLeast(100000.0), 500000.0),
      Achievement("a_gen10", AnyGeneratorAtLeast(10), 1000.0),
      Achievement("a_gen100", AnyGeneratorAtLeast(100), 50000.0),
      Achievement("a_total_1m", TotalEarnedAtLeast(1000000.0), 100000.0),
      Achievement("a_playtime_1h", PlaytimeAtLeast(3600000), 10000.0),
      Achievement("a_all_planets", ExploredAtLeast(5), 1000000.0) ]
  }

  function Planets(): seq<Planet> {
    [ Planet("moon", 5000.0, 0.1),
      Planet("mars", 50000.0, 0.25),
      Planet("jupiter", 250000.0, 0.5),
      Planet("saturn", 1000000.0, 1.0),
      Planet("alpha", 10000000.0, 2.0) ]
  }

  function PrestigeThresholds(): seq<real> {
    [1000000.0, 10000000.0, 100000000.0, 1000000000.0]
  }

  function DailyChallenges(): seq<Challenge> {
    [ Challenge("click_challenge", 500.0, Clicks, 50000.0),
      Challenge("earn_challenge", 100000.0, Earn, 100000.0),
      Challenge("buy_challenge", 20.0, Purchases, 75000.0) ]
  }

  /** The generator list of a new game (and of a game just after prestige). */
  function FreshGenerators(): (r: seq<Generator>)
    ensures |r| == |BaseGenerators()|
    ensures forall j :: 0 <= j < |r| ==> r[j] == BaseGenerators()[j].(qty := 0)
  {
    BaseGenerators()
  }

  /** The first planet of the table with the given id, if any. */
  function FindPlanet(planets: seq<Planet>, id: string): (r: Option<Planet>)
    ensures r.Some? <==> exists j :: 0 <= j < |planets| && planets[j].id == id
    ensures r.Some? ==> r.value in planets && r.value.id == id
  {
    if planets == [] then None
    else if planets[0].id == id then Some(planets[0])
    else FindPlanet(planets[1..], id)
  }

  /** No element occurs twice. */
  predicate Distinct<T(==)>(s: seq<T>) {
    forall i, j :: 0 <= i < j < |s| ==> s[i] != s[j]
  }

  /** The ids of a list of upgrades, in order. Upgrades and achievements are
      different record types, so each list has its own id projection. */
  function UpgradeIds(ups: seq<Upgrade>): (r: seq<string>)
    ensures |r| == |ups| && forall k :: 0 <= k < |ups| ==> r[k] == ups[k].id
  {
    seq(|ups|, k requires 0 <= k < |ups| => ups[k].id)
  }

  /** The ids of a list of achievements, in order. */
  function AchievementIds(cat: seq<Achievement>): (r: seq<string>)
    ensures |r| == |cat| && forall k :: 0 <= k < |cat| ==> r[k] == cat[k].id
  {
    seq(|cat|, k requires 0 <= k < |cat| => cat[k].id)
  }

  /** The factor an upgrade contributes to whichever product it joins
      (an auto-clicker joins none; it is counted instead). */
  function EffectValue(e: Effect): real {
    match e
    case ClickMultiplier(v) => v
    case GeneratorMultiplier(_, v) => v
    case GlobalMultiplier(v) => v
    case AutoClick => 1.0
  }

  /** An upgrade the model's invariants can rely on: a non-negative price
      and a multiplier of at least 1, as every catalog entry has. */
  predicate UpgradeOk(u: Upgrade) {
    u.cost >= 0.0 && EffectValue(u.effect) >= 1.0
  }

  predicate GeneratorOk(g: Generator) {
    g.baseCost > 0.0 && g.cps >= 0.0
  }

  lemma CatalogsWellFormed()
    ensures forall u :: u in BaseUpgrades() ==> UpgradeOk(u)
    ensures forall g :: g in BaseGenerators() ==> GeneratorOk(g)
    ensures forall p :: p in Planets() ==> p.cost >= 0.0 && p.bonus >= 0.0
    ensures forall a :: a in Achievements() ==> a.reward >= 0.0
    ensures forall c :: c in DailyChallenges() ==> c.reward >= 0.0
  {
  }

  lemma AchievementIdsDistinct()
    ensures Distinct(AchievementIds(Achievements()))
  {
  }
}
