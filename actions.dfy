/** The effect of each player action and of the game loop on the game
    state, as functions from the old state to the new one. The class in
    `Engine` performs these updates field by field; the lemmas here are what
    the game promises about them. */
module Actions {
  import opened Content
  import opened Economy
  import opened State
  import opened Rewards
  import opened SaveCodec

  // ---------------- the 100 ms tick ----------------

  /** Passive income of one tick: a tenth of a second of production, and
      nothing unless that is positive. */
  function PassiveGain(d: GameData): (g: real)
    ensures g >= 0.0
    ensures g > 0.0 <==> Cps(d) > 0.0
    ensures g > 0.0 ==> g * 10.0 == Cps(d)
  {
    var gained := Cps(d) / 10.0;
    if gained > 0.0 then gained else 0.0
  }

  /** What the auto-clickers earn in one tick: one click per owned
      auto-clicker. */
  function AutoGain(d: GameData): real {
    Power(d) * AutoClickCount(d.upgrades) as real
  }

  /** Crediting `amount` earned by `clicks` clicks (none for passive
      income): currency and the three earnings counters rise by `amount`,
      the three click counters by `clicks`. */
  function Earn(d: GameData, amount: real, clicks: nat): (r: GameData)
    ensures r.currency - d.currency == amount
    ensures r.stats.totalEarned - d.stats.totalEarned == amount
    ensures r.stats.sessionEarned - d.stats.sessionEarned == amount
    ensures r.progress.earn - d.progress.earn == amount
    ensures r.stats.totalClicks == d.stats.totalClicks + clicks
    ensures r.stats.sessionClicks == d.stats.sessionClicks + clicks
    ensures r.progress.clicks == d.progress.clicks + clicks
    // nothing else changes
    ensures r == d.(currency := r.currency, stats := r.stats, progress := r.progress)
    ensures r.stats == d.stats.(totalClicks := r.stats.totalClicks, totalEarned := r.stats.totalEarned,
                                sessionClicks := r.stats.sessionClicks, sessionEarned := r.stats.sessionEarned)
    ensures r.progress == d.progress.(clicks := r.progress.clicks, earn := r.progress.earn)
  {
    d.(currency := d.currency + amount,
       stats := d.stats.(totalClicks := d.stats.totalClicks + clicks,
                         totalEarned := d.stats.totalEarned + amount,
                         sessionClicks := d.stats.sessionClicks + clicks,
                         sessionEarned := d.stats.sessionEarned + amount),
       progress := d.progress.(clicks := d.progress.clicks + clicks, earn := d.progress.earn + amount))
  }

  lemma EarnKeepsWellFormed(d: GameData, amount: real, clicks: nat)
    requires WellFormed(d) && amount >= 0.0
    ensures WellFormed(Earn(d, amount, clicks))
  {
  }

  /** One tick: the passive gain, then the auto-clickers' clicks. */
  function Tick(d: GameData): GameData {
    Earn(Earn(d, PassiveGain(d), 0), AutoGain(d), AutoClickCount(d.upgrades))
  }

  /** The accounting of a tick. */
  lemma TickAccounting(d: GameData)
    // the rise in currency is exactly the rise in every earnings counter
    ensures Tick(d).currency - d.currency == Tick(d).stats.totalEarned - d.stats.totalEarned
    ensures Tick(d).currency - d.currency == Tick(d).stats.sessionEarned - d.stats.sessionEarned
    ensures Tick(d).currency - d.currency == Tick(d).progress.earn - d.progress.earn
    ensures Tick(d).currency == d.currency + PassiveGain(d) + AutoGain(d)
    // one click per auto-clicker, on all three click counters
    ensures Tick(d).stats.totalClicks == d.stats.totalClicks + AutoClickCount(d.upgrades)
    ensures Tick(d).stats.sessionClicks == d.stats.sessionClicks + AutoClickCount(d.upgrades)
    ensures Tick(d).progress.clicks == d.progress.clicks + AutoClickCount(d.upgrades)
    // nothing else changes
    ensures Tick(d) == d.(currency := Tick(d).currency, stats := Tick(d).stats, progress := Tick(d).progress)
  {
  }

  /** A tick never lowers currency and keeps the state well-formed. */
  lemma TickKeepsWellFormed(d: GameData)
    requires WellFormed(d)
    ensures WellFormed(Tick(d)) && Tick(d).currency >= d.currency
  {
    WellFormedRates(d);
    AutoGainNonNegative(d);
  }

  lemma AutoGainNonNegative(d: GameData)
    requires WellFormed(d)
    ensures AutoGain(d) >= 0.0
  {
    WellFormedRates(d);
    assert Power(d) * AutoClickCount(d.upgrades) as real >= 0.0;
  }

  /** A game that owns nothing and no auto-clicker does not change on a tick. */
  lemma IdleTick(d: GameData)
    requires forall j :: 0 <= j < |d.generators| ==> d.generators[j].qty == 0
    requires forall k :: 0 <= k < |d.upgrades| ==> d.upgrades[k].effect != AutoClick
    ensures Tick(d) == d
  {
    ProductionIdle(d.generators, d.upgrades, d.explored, d.prestigeLevel);
    assert AutoClickCount(d.upgrades) == 0;
  }

  /** With upgrades `auto_clicker` only, one tick of a game with nothing else
      is one click's worth. */
  lemma AutoClickerTick(d: GameData)
    requires d.upgrades == [BaseUpgrades()[7]] && d.prestigeLevel == 0
    requires forall j :: 0 <= j < |d.generators| ==> d.generators[j].qty == 0
    ensures Tick(d).currency == d.currency + 1.0
    ensures Tick(d).stats.totalClicks == d.stats.totalClicks + 1
  {
    ProductionIdle(d.generators, d.upgrades, d.explored, d.prestigeLevel);
    assert d.upgrades[0].effect == AutoClick;
    assert AutoClickCount(d.upgrades[..0]) == 0;
    assert AutoClickCount(d.upgrades) == 1;
    assert ClickProduct(d.upgrades[..0]) == 1.0;
    assert ClickProduct(d.upgrades) == 1.0;
  }

  // ---------------- a click ----------------

  /** A click earns the click power, as one click. */
  function Click(d: GameData): (r: GameData)
    ensures r.currency == d.currency + Power(d)
    ensures r == Earn(d, Power(d), 1)
  {
    Earn(d, Power(d), 1)
  }

  lemma ClickKeepsWellFormed(d: GameData)
    requires WellFormed(d)
    ensures WellFormed(Click(d)) && Click(d).currency >= d.currency + 1.0
  {
    WellFormedRates(d);
  }

  /** The first click of a new game is worth exactly 1. */
  lemma FirstClick(now: int)
    ensures Click(FreshGame(now)).currency == 1.0
    ensures Click(FreshGame(now)).stats.totalClicks == 1
  {
    ClickPowerAtLeastOne([], 0);
  }

  // ---------------- buying generators ----------------

  /** The generator list with `q` more units of the entry whose id matches. */
  function AddUnits(gens: seq<Generator>, id: string, q: nat): (r: seq<Generator>)
    ensures |r| == |gens|
    ensures forall j :: 0 <= j < |gens| ==>
              r[j] == if gens[j].id == id then gens[j].(qty := gens[j].qty + q) else gens[j]
  {
    seq(|gens|, j requires 0 <= j < |gens| => if gens[j].id == id then gens[j].(qty := gens[j].qty + q) else gens[j])
  }

  /** The price of the current buy quantity of generator `i`. */
  function GeneratorPrice(d: GameData, i: nat): real
    requires i < |d.generators|
  {
    BatchCost(d.generators[i].baseCost, d.generators[i].qty, d.buyQuantity)
  }

  function BuyGenerator(d: GameData, i: nat): (r: GameData)
    requires i < |d.generators|
    ensures d.currency < GeneratorPrice(d, i) ==> r == d
    ensures d.currency >= GeneratorPrice(d, i) ==>
              && r.currency == d.currency - GeneratorPrice(d, i) >= 0.0
              && r.generators == AddUnits(d.generators, d.generators[i].id, d.buyQuantity)
              && r.stats == d.stats.(totalSpent := d.stats.totalSpent + GeneratorPrice(d, i),
                                     totalPurchases := d.stats.totalPurchases + d.buyQuantity)
              && r.progress == d.progress.(purchases := d.progress.purchases + d.buyQuantity)
              && r == d.(currency := r.currency, generators := r.generators, stats := r.stats, progress := r.progress)
  {
    var cost := GeneratorPrice(d, i);
    var q := d.buyQuantity;
    if d.currency >= cost then
      d.(currency := d.currency - cost,
         generators := AddUnits(d.generators, d.generators[i].id, q),
         stats := d.stats.(totalSpent := d.stats.totalSpent + cost, totalPurchases := d.stats.totalPurchases + q),
         progress := d.progress.(purchases := d.progress.purchases + q))
    else d
  }

  /** A purchase keeps the state well-formed, and never lowers production. */
  lemma BuyGeneratorKeepsWellFormed(d: GameData, i: nat)
    requires WellFormed(d) && i < |d.generators|
    ensures WellFormed(BuyGenerator(d, i))
    ensures Cps(BuyGenerator(d, i)) >= Cps(d)
  {
    var g := d.generators[i];
    BatchCostNonNegative(g.baseCost, g.qty, d.buyQuantity);
    var r := BuyGenerator(d, i);
    if d.currency >= GeneratorPrice(d, i) {
      forall j | 0 <= j < |r.generators| ensures GeneratorOk(r.generators[j]) {
        assert GeneratorOk(d.generators[j]);
      }
      ProductionMonotone(d.generators, r.generators, d.upgrades, d.explored, d.prestigeLevel);
    }
  }

  /** Buying one solar panel with exactly 15 in a new game spends it all;
      a second purchase is then out of reach and changes nothing. */
  lemma FirstSolarPanel(now: int)
    ensures var d := FreshGame(now).(currency := 15.0);
            var r := BuyGenerator(d, 0);
            && r.currency == 0.0
            && r.generators[0].qty == 1
            && r.stats.totalSpent == 15.0
            && r.progress.purchases == 1
            && BuyGenerator(r, 0) == r
  {
    var d := FreshGame(now).(currency := 15.0);
    assert GeneratorPrice(d, 0) == 15.0 by {
      assert BatchCost(15.0, 0, 1) == BatchCost(15.0, 0, 0) + NextCost(15.0, 0);
    }
    var r := BuyGenerator(d, 0);
    assert r.generators[0] == d.generators[0].(qty := 1);
    assert GeneratorPrice(r, 0) == NextCost(15.0, 1) by {
      assert BatchCost(15.0, 1, 1) == BatchCost(15.0, 1, 0) + NextCost(15.0, 1);
    }
    NextCostIncreasing(15.0, 0);
  }

  // ---------------- upgrades and planets ----------------

  predicate OwnsUpgrade(d: GameData, id: string) {
    id in UpgradeIds(d.upgrades)
  }

  function BuyUpgrade(d: GameData, u: Upgrade): (r: GameData)
    ensures d.currency < u.cost || OwnsUpgrade(d, u.id) ==> r == d
    ensures d.currency >= u.cost && !OwnsUpgrade(d, u.id) ==>
              && r.currency == d.currency - u.cost >= 0.0
              && r.upgrades == d.upgrades + [u]
              && r.stats == d.stats.(totalSpent := d.stats.totalSpent + u.cost)
              && r == d.(currency := r.currency, upgrades := r.upgrades, stats := r.stats)
  {
    if d.currency >= u.cost && !OwnsUpgrade(d, u.id) then
      d.(currency := d.currency - u.cost, upgrades := d.upgrades + [u],
         stats := d.stats.(totalSpent := d.stats.totalSpent + u.cost))
    else d
  }

  /** Buying an upgrade keeps ids unique, so a second purchase of the same
      upgrade is a no-op. */
  lemma BuyUpgradeOnce(d: GameData, u: Upgrade)
    requires WellFormed(d) && UpgradeOk(u)
    ensures WellFormed(BuyUpgrade(d, u))
    ensures OwnsUpgrade(BuyUpgrade(d, u), u.id) <==> d.currency >= u.cost || OwnsUpgrade(d, u.id)
    ensures BuyUpgrade(BuyUpgrade(d, u), u) == BuyUpgrade(d, u) || !OwnsUpgrade(BuyUpgrade(d, u), u.id)
  {
    var r := BuyUpgrade(d, u);
    if d.currency >= u.cost && !OwnsUpgrade(d, u.id) {
      assert UpgradeIds(r.upgrades) == UpgradeIds(d.upgrades) + [u.id];
      DistinctAppend(UpgradeIds(d.upgrades), u.id);
      assert u.id == UpgradeIds(r.upgrades)[|d.upgrades|];
      forall k | 0 <= k < |r.upgrades| ensures UpgradeOk(r.upgrades[k]) {
        if k < |d.upgrades| { assert r.upgrades[k] == d.upgrades[k]; }
      }
    }
  }

  function Explore(d: GameData, p: Planet): (r: GameData)
    ensures d.currency < p.cost || p.id in d.explored ==> r == d
    ensures d.currency >= p.cost && p.id !in d.explored ==>
              && r.currency == d.currency - p.cost >= 0.0
              && r.explored == d.explored + [p.id]
              && r.stats == d.stats.(totalSpent := d.stats.totalSpent + p.cost)
              && r == d.(currency := r.currency, explored := r.explored, stats := r.stats)
  {
    if d.currency >= p.cost && p.id !in d.explored then
      d.(currency := d.currency - p.cost, explored := d.explored + [p.id],
         stats := d.stats.(totalSpent := d.stats.totalSpent + p.cost))
    else d
  }

  /** Exploring keeps the explored list duplicate-free, a second
      exploration of a planet is a no-op, and a new catalog planet adds its
      bonus to the multiplier sum. */
  lemma ExploreOnce(d: GameData, p: Planet)
    requires WellFormed(d) && p in Planets()
    ensures WellFormed(Explore(d, p))
    ensures p.id in Explore(d, p).explored <==> d.currency >= p.cost || p.id in d.explored
    ensures p.id in Explore(d, p).explored ==> Explore(Explore(d, p), p) == Explore(d, p)
    ensures d.currency >= p.cost && p.id !in d.explored ==>
              MultiplierSum(d.upgrades, Explore(d, p).explored) == MultiplierSum(d.upgrades, d.explored) + p.bonus
  {
    CatalogsWellFormed();
    if d.currency >= p.cost && p.id !in d.explored {
      DistinctAppend(d.explored, p.id);
      ExploreAddsBonus(d.upgrades, d.explored, p);
    }
  }

  // ---------------- prestige ----------------

  function Prestige(d: GameData, now: int): (r: GameData)
    ensures !CanPrestige(d.stats.totalEarned, d.prestigeLevel) ==> r == d
    ensures CanPrestige(d.stats.totalEarned, d.prestigeLevel) ==>
              && r.currency == 0.0
              && r.generators == FreshGenerators()
              && r.upgrades == [] && r.explored == []
              && r.prestigeLevel == d.prestigeLevel + 1
              && r.prestigePoints >= d.prestigePoints + 1
              && r.prestigePoints == d.prestigePoints + PrestigeGain(d.stats.totalEarned)
              && r.stats == d.stats.(totalEarned := 0.0, totalSpent := 0.0, totalPurchases := 0,
                                     sessionStart := now, sessionEarned := 0.0, sessionClicks := 0)
              && r.achievements == d.achievements
              && r.buyQuantity == d.buyQuantity
              && r.dailyChallenge == d.dailyChallenge && r.progress == d.progress
  {
    if CanPrestige(d.stats.totalEarned, d.prestigeLevel) then
      PrestigeGainPositive(d.stats.totalEarned, d.prestigeLevel);
      d.(currency := 0.0, generators := FreshGenerators(), upgrades := [], explored := [],
         prestigeLevel := d.prestigeLevel + 1,
         prestigePoints := d.prestigePoints + PrestigeGain(d.stats.totalEarned),
         stats := d.stats.(totalEarned := 0.0, totalSpent := 0.0, totalPurchases := 0,
                           sessionStart := now, sessionEarned := 0.0, sessionClicks := 0))
    else d
  }

  /** After a prestige the economy restarts: nothing is produced, a click is
      worth the new level's bonus alone, and the state is well-formed. */
  lemma PrestigeRestarts(d: GameData, now: int)
    requires WellFormed(d) && CanPrestige(d.stats.totalEarned, d.prestigeLevel)
    ensures WellFormed(Prestige(d, now))
    ensures Cps(Prestige(d, now)) == 0.0
    ensures Power(Prestige(d, now)) == 1.0 + (d.prestigeLevel + 1) as real * 0.05
    ensures !CanPrestige(Prestige(d, now).stats.totalEarned, Prestige(d, now).prestigeLevel)
  {
    var r := Prestige(d, now);
    FreshGameWellFormed(now);
    assert FreshGame(now).generators == r.generators;
    ProductionIdle(r.generators, [], [], r.prestigeLevel);
    var t := PrestigeThreshold(r.prestigeLevel);
  }

  /** Reaching a million lifetime energy at level 0 is enough for the first
      prestige, and it yields one point. */
  lemma FirstPrestige(d: GameData, now: int)
    requires d.prestigeLevel == 0 && d.stats.totalEarned == 1000000.0
    ensures Prestige(d, now).prestigeLevel == 1
    ensures Prestige(d, now).prestigePoints == d.prestigePoints + 1
  {
    assert CanPrestige(d.stats.totalEarned, 0);
    assert PrestigeGain(1000000.0) == 1 by {
      var k := PrestigeGain(1000000.0);
      assert (k * k) as real <= 1.0 < ((k + 1) * (k + 1)) as real;
    }
  }

  // ---------------- offline credit ----------------

  /** Claiming a pending credit adds it to currency and lifetime earnings. */
  function Claim(d: GameData, credit: Option<OfflineCredit>): (r: GameData)
    ensures credit.None? ==> r == d
    ensures credit.Some? ==>
              && r.currency == d.currency + credit.value.earnings
              && r.stats == d.stats.(totalEarned := d.stats.totalEarned + credit.value.earnings)
              && r == d.(currency := r.currency, stats := r.stats)
  {
    match credit
    case None => d
    case Some(c) => d.(currency := d.currency + c.earnings,
                       stats := d.stats.(totalEarned := d.stats.totalEarned + c.earnings))
  }

  lemma ClaimKeepsWellFormed(d: GameData, credit: Option<OfflineCredit>)
    requires WellFormed(d) && (credit.Some? ==> credit.value.earnings > 0.0)
    ensures WellFormed(Claim(d, credit))
    ensures Claim(d, credit).currency - d.currency == Claim(d, credit).stats.totalEarned - d.stats.totalEarned
  {
  }

  // ---------------- reward checks ----------------

  /** The unlock pass over the achievement catalog, against a snapshot of
      the state as it was before the pass. */
  function Unlocked(d: GameData, now: int): seq<Achievement> {
    NewlyUnlocked(Achievements(), d.achievements, SnapshotOf(d, now))
  }

  function CheckAchievements(d: GameData, now: int): (r: GameData)
    ensures r.achievements == d.achievements + AchievementIds(Unlocked(d, now))
    ensures r.currency == d.currency + RewardTotal(Unlocked(d, now))
    ensures r == d.(currency := r.currency, achievements := r.achievements)
  {
    var unlocked := Unlocked(d, now);
    d.(currency := d.currency + RewardTotal(unlocked), achievements := d.achievements + AchievementIds(unlocked))
  }

  /** The unlock pass only appends, never repeats an id and never lowers
      currency. A second pass over the same snapshot unlocks nothing, and
      an id the pass has made owned is never unlocked again, whatever the
      state it is next run on. */
  lemma CheckAchievementsOnce(d: GameData, now: int)
    requires WellFormed(d)
    ensures WellFormed(CheckAchievements(d, now))
    ensures CheckAchievements(d, now).currency >= d.currency
    ensures d.achievements <= CheckAchievements(d, now).achievements
    ensures forall a :: a !in NewlyUnlocked(Achievements(), CheckAchievements(d, now).achievements, SnapshotOf(d, now))
    ensures forall a, e: GameData, later: int :: a in Unlocked(e, later) && CheckAchievements(d, now).achievements <= e.achievements
              ==> a.id !in CheckAchievements(d, now).achievements
  {
    var unlocked := Unlocked(d, now);
    AchievementIdsDistinct();
    UnlockKeepsDistinct(Achievements(), d.achievements, SnapshotOf(d, now));
    CatalogsWellFormed();
    UnlockedExactly(Achievements(), d.achievements, SnapshotOf(d, now));
    RewardTotalNonNegative(unlocked);
    UnlockIdempotent(Achievements(), d.achievements, SnapshotOf(d, now));
    var owned := CheckAchievements(d, now).achievements;
    forall a, e: GameData, later: int | a in Unlocked(e, later) && owned <= e.achievements
      ensures a.id !in owned
    {
      UnlockedExactly(Achievements(), e.achievements, SnapshotOf(e, later));
      forall x | x in owned ensures x in e.achievements {
        var k :| 0 <= k < |owned| && owned[k] == x;
        assert e.achievements[k] == x;
      }
    }
  }

  /** The first click of a new game unlocks "First Spark" and nothing else. */
  lemma FirstClickUnlocks(now: int)
    ensures forall a :: a in Unlocked(Click(FreshGame(now)), now) <==> a == Achievements()[0]
  {
    ClickPowerAtLeastOne([], 0);
    ProductionIdle(FreshGenerators(), [], [], 0);
    var s := SnapshotOf(Click(FreshGame(now)), now);
    OnlyFirstSparkHolds(s);
    OnlyFirstUnlocks(Achievements(), s);
  }

  /** The challenge check credits the reward and sets `completed` when the
      challenge is due; otherwise it changes nothing. */
  function CheckChallenge(d: GameData): (r: GameData)
    ensures !ChallengeDue(r.dailyChallenge, r.progress)
    ensures !ChallengeDue(d.dailyChallenge, d.progress) ==> r == d
    ensures ChallengeDue(d.dailyChallenge, d.progress) ==>
              r == d.(currency := d.currency + d.dailyChallenge.value.challenge.reward,
                      progress := d.progress.(completed := true))
  {
    if ChallengeDue(d.dailyChallenge, d.progress) then
      d.(currency := d.currency + d.dailyChallenge.value.challenge.reward,
         progress := d.progress.(completed := true))
    else d
  }

  /** Once a due challenge has paid out, the next click or tick does not
      make it due again, and checking after that click changes nothing. */
  lemma ChallengePaysOnce(d: GameData)
    requires ChallengeDue(d.dailyChallenge, d.progress)
    ensures var r := CheckChallenge(d);
            && !ChallengeDue(Click(r).dailyChallenge, Click(r).progress)
            && !ChallengeDue(Tick(r).dailyChallenge, Tick(r).progress)
            && CheckChallenge(Click(r)) == Click(r)
  {
  }

  /** No action but rotating in a new day's challenge clears `completed`, so
      a paid challenge stays paid through any clicking, earning, buying,
      exploring, unlocking, claiming or prestige. */
  lemma CompletedStays(d: GameData, amount: real, clicks: nat, i: nat, u: Upgrade, p: Planet,
                       credit: Option<OfflineCredit>, now: int)
    requires d.progress.completed
    ensures Earn(d, amount, clicks).progress.completed
    ensures Tick(d).progress.completed && Click(d).progress.completed
    ensures i < |d.generators| ==> BuyGenerator(d, i).progress.completed
    ensures BuyUpgrade(d, u).progress.completed
    ensures Explore(d, p).progress.completed && Prestige(d, now).progress.completed
    ensures Claim(d, credit).progress.completed && CheckAchievements(d, now).progress.completed
    ensures CheckChallenge(d) == d
  {
  }

  /** A well-formed state stays well-formed through the challenge check,
      since the issued challenge's reward is not negative. */
  lemma CheckChallengeKeepsWellFormed(d: GameData)
    requires WellFormed(d)
    ensures WellFormed(CheckChallenge(d))
    ensures CheckChallenge(d).currency >= d.currency
  {
  }

  /** Five hundred clicks complete the click challenge. */
  lemma ClickChallengeDue(d: GameData)
    requires d.dailyChallenge.Some? && d.dailyChallenge.value.challenge == DailyChallenges()[0]
    requires d.progress == NoProgress().(clicks := 500)
    ensures CheckChallenge(d).currency == d.currency + 50000.0
    ensures CheckChallenge(d).progress.completed
  {
  }
}
