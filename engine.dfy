/** The game component's state as an object whose fields the actions
    update in place. Each handler and effect gives the new state of the
    matching function of `Actions` applied to the old state and keeps
    `Valid()` (`BuyUpgrade` for catalog upgrades, `ExplorePlanet` for table
    planets). The load steps and `Save` follow `SaveCodec`, and the unlock
    loop follows `Rewards`; these internal steps state no invariant. */
module Engine {
  import opened Content
  import opened Economy
  import opened State
  import opened Rewards
  import opened SaveCodec
  import Actions

  class Game {
    var currency: real
    var generators: seq<Generator>
    var upgrades: seq<Upgrade>
    var achievements: seq<string>
    var explored: seq<string>
    var prestigeLevel: nat
    var prestigePoints: nat
    var buyQuantity: nat
    var stats: Stats
    var dailyChallenge: Option<DailyChallenge>
    var progress: Progress
    var offlineProgress: Option<OfflineCredit>

    /** The saved part of the state as one value. */
    function Data(): GameData
      reads this
    {
      GameData(currency, generators, upgrades, achievements, explored, prestigeLevel, prestigePoints,
               buyQuantity, stats, dailyChallenge, progress)
    }

    predicate Valid()
      reads this
    {
      WellFormed(Data()) && (offlineProgress.Some? ==> offlineProgress.value.earnings > 0.0)
    }

    /** Mounting the component at `now` on day `today`: the initial state,
        then the load effect over whatever storage holds. `pick` is the
        random challenge index. */
    constructor Load(stored: StoredSave, now: int, today: string, pick: nat)
      requires pick < |DailyChallenges()|
      ensures Data() == Decode(stored, now, today, pick).data
      ensures offlineProgress == Decode(stored, now, today, pick).offline
      ensures (stored.Readable? ==> SaveOk(stored.record)) ==> Valid()
    {
      currency := 0.0;
      generators := FreshGenerators();
      upgrades := [];
      achievements := [];
      explored := [];
      prestigeLevel := 0;
      prestigePoints := 0;
      buyQuantity := 1;
      stats := FreshStats(now);
      dailyChallenge := None;
      progress := NoProgress();
      offlineProgress := None;
      new;
      match stored {
        case NoSave =>
          dailyChallenge := Some(Issue(pick, today));
        case Unreadable =>
        case Readable(s) =>
          RestoreFrom(s, now);
          OfferOfflineCredit(s, now);
          RotateChallenge(today, pick);
      }
      if stored.Readable? ==> SaveOk(stored.record) {
        DecodeWellFormed(stored, now, today, pick);
      }
    }

    /** The `??` back-fill of every field from a parsed save. */
    method RestoreFrom(s: SaveRecord, now: int)
      modifies this
      ensures Data() == Restore(s, now)
      ensures offlineProgress == old(offlineProgress)
    {
      currency := s.currency.GetOr(0.0);
      generators := s.generators.GetOr(FreshGenerators());
      upgrades := s.upgrades.GetOr([]);
      achievements := s.achievements.GetOr([]);
      explored := s.explored.GetOr([]);
      prestigeLevel := s.prestigeLevel.GetOr(0);
      prestigePoints := s.prestigePoints.GetOr(0);
      buyQuantity := s.buyQuantity.GetOr(1);
      dailyChallenge := s.dailyChallenge;
      progress := s.challengeProgress.GetOr(NoProgress());
      stats := RestoreStats(s.stats, now);
    }

    /** The offline block of the load effect: a credit is offered only for
        a recorded, non-zero last save more than a minute ago, and only when
        it is positive; otherwise the pending credit is left as it was. */
    method OfferOfflineCredit(s: SaveRecord, now: int)
      modifies this`offlineProgress
      ensures Offline(s, now).Some? ==> offlineProgress == Offline(s, now)
      ensures Offline(s, now).None? ==> offlineProgress == old(offlineProgress)
    {
      if s.stats.Some? && s.stats.value.lastSave.Some? && s.stats.value.lastSave.value != 0 {
        var offlineTime := now - s.stats.value.lastSave.value;
        if offlineTime > 60000 {
          var cps := CalculateCps(s.generators.GetOr([]), s.upgrades.GetOr([]), s.explored.GetOr([]),
                                  s.prestigeLevel.GetOr(0));
          var earnings := OfflineEarnings(cps, offlineTime);
          if earnings > 0.0 {
            offlineProgress := Some(OfflineCredit(offlineTime, earnings));
          }
        }
      }
    }

    /** A new challenge, with progress cleared, unless the loaded one is
        today's. */
    method RotateChallenge(today: string, pick: nat)
      requires pick < |DailyChallenges()|
      modifies this
      ensures Data() == Rotate(old(Data()), today, pick)
      ensures offlineProgress == old(offlineProgress)
    {
      if dailyChallenge.None? || dailyChallenge.value.startDate != today {
        dailyChallenge := Some(Issue(pick, today));
        progress := NoProgress();
      }
    }

    /** `saveGame` at time `now`. */
    method Save(now: int) returns (payload: SaveRecord)
      ensures payload == Encode(Data(), now)
    {
      payload := Encode(Data(), now);
    }

    /** Credits `amount` earned by `clicks` clicks to currency, the stats
        record and the challenge progress, as the game loop and a click do. */
    method Credit(amount: real, clicks: nat)
      modifies this
      ensures Data() == Actions.Earn(old(Data()), amount, clicks)
      ensures offlineProgress == old(offlineProgress)
      ensures old(Valid()) && amount >= 0.0 ==> Valid()
    {
      ghost var d0 := Data();
      currency := currency + amount;
      stats := stats.(totalClicks := stats.totalClicks + clicks,
                      totalEarned := stats.totalEarned + amount,
                      sessionClicks := stats.sessionClicks + clicks,
                      sessionEarned := stats.sessionEarned + amount);
      progress := progress.(clicks := progress.clicks + clicks, earn := progress.earn + amount);
      if WellFormed(d0) && amount >= 0.0 {
        Actions.EarnKeepsWellFormed(d0, amount, clicks);
      }
    }

    /** The first block of the game loop: a tenth of a second of
        production, credited only when positive. */
    method PassiveIncome()
      modifies this
      ensures Data() == Actions.Earn(old(Data()), Actions.PassiveGain(old(Data())), 0)
      ensures offlineProgress == old(offlineProgress)
      ensures old(Valid()) ==> Valid()
    {
      ghost var d0 := Data();
      var cps := CalculateCps(generators, upgrades, explored, prestigeLevel);
      var gained := cps / 10.0;
      if gained > 0.0 {
        Credit(gained, 0);
      } else {
        assert Actions.Earn(d0, 0.0, 0) == d0;
      }
    }

    /** The second block of the game loop: one click per owned
        auto-clicker. */
    method AutoClicks()
      modifies this
      ensures Data() == Actions.Earn(old(Data()), Actions.AutoGain(old(Data())), AutoClickCount(old(upgrades)))
      ensures offlineProgress == old(offlineProgress)
      ensures old(Valid()) ==> Valid()
    {
      ghost var d0 := Data();
      var power := ComputeClickPower(upgrades, prestigeLevel);
      var autoClicks := AutoClickCount(upgrades);
      if autoClicks > 0 {
        var autoGained := power * autoClicks as real;
        assert autoGained == Actions.AutoGain(d0);
        if WellFormed(d0) {
          Actions.AutoGainNonNegative(d0);
        }
        Credit(autoGained, autoClicks);
      } else {
        assert AutoClickCount(d0.upgrades) == 0;
        assert Actions.AutoGain(d0) == Power(d0) * 0.0;
        assert Actions.Earn(d0, 0.0, 0) == d0;
      }
    }

    /** One run of the 100 ms game loop. */
    method Tick()
      modifies this
      ensures Data() == Actions.Tick(old(Data()))
      ensures offlineProgress == old(offlineProgress)
      ensures old(Valid()) ==> Valid()
    {
      ghost var d0 := Data();
      PassiveIncome();
      ghost var d1 := Data();
      assert Actions.AutoGain(d1) == Actions.AutoGain(d0);
      AutoClicks();
    }

    /** `handleClick`. */
    method HandleClick()
      modifies this
      ensures Data() == Actions.Click(old(Data()))
      ensures offlineProgress == old(offlineProgress)
      ensures old(Valid()) ==> Valid()
    {
      ghost var d0 := Data();
      if Valid() {
        WellFormedRates(d0);
      }
      var gained := ComputeClickPower(upgrades, prestigeLevel);
      Credit(gained, 1);
    }

    /** `buyGenerator` for the generator at index `i` of the list. */
    method BuyGenerator(i: nat) returns (bought: bool)
      requires i < |generators|
      modifies this
      ensures bought <==> old(currency) >= Actions.GeneratorPrice(old(Data()), i)
      ensures Data() == Actions.BuyGenerator(old(Data()), i)
      ensures offlineProgress == old(offlineProgress)
      ensures old(Valid()) ==> Valid()
    {
      ghost var d0 := Data();
      var quantity := buyQuantity;
      var g := generators[i];
      var totalCost := TotalCost(g.baseCost, g.qty, quantity);
      bought := currency >= totalCost;
      if bought {
        currency := currency - totalCost;
        generators := Actions.AddUnits(generators, g.id, quantity);
        stats := stats.(totalSpent := stats.totalSpent + totalCost,
                        totalPurchases := stats.totalPurchases + quantity);
        progress := progress.(purchases := progress.purchases + quantity);
      }
      if WellFormed(d0) {
        Actions.BuyGeneratorKeepsWellFormed(d0, i);
      }
    }

    /** `buyUpgrade`. */
    method BuyUpgrade(u: Upgrade) returns (bought: bool)
      modifies this
      ensures bought <==> old(currency) >= u.cost && u.id !in UpgradeIds(old(upgrades))
      ensures Data() == Actions.BuyUpgrade(old(Data()), u)
      ensures offlineProgress == old(offlineProgress)
      ensures old(Valid()) && UpgradeOk(u) ==> Valid()
    {
      ghost var d0 := Data();
      bought := currency >= u.cost && !Actions.OwnsUpgrade(Data(), u.id);
      if bought {
        currency := currency - u.cost;
        upgrades := upgrades + [u];
        stats := stats.(totalSpent := stats.totalSpent + u.cost);
      }
      if WellFormed(d0) && UpgradeOk(u) {
        Actions.BuyUpgradeOnce(d0, u);
      }
    }

    /** `explorePlanet`. */
    method ExplorePlanet(p: Planet) returns (done: bool)
      modifies this
      ensures done <==> old(currency) >= p.cost && p.id !in old(explored)
      ensures Data() == Actions.Explore(old(Data()), p)
      ensures offlineProgress == old(offlineProgress)
      ensures old(Valid()) && p in Planets() ==> Valid()
    {
      ghost var d0 := Data();
      done := currency >= p.cost && p.id !in explored;
      if done {
        currency := currency - p.cost;
        explored := explored + [p.id];
        stats := stats.(totalSpent := stats.totalSpent + p.cost);
      }
      if WellFormed(d0) && p in Planets() {
        Actions.ExploreOnce(d0, p);
      }
    }

    /** `canPrestige`. */
    method CanPrestigeNow() returns (can: bool)
      ensures can <==> stats.totalEarned >= PrestigeThreshold(prestigeLevel)
    {
      var thresholds := PrestigeThresholds();
      var index := if prestigeLevel < |thresholds| - 1 then prestigeLevel else |thresholds| - 1;
      can := stats.totalEarned >= thresholds[index];
    }

    /** `doPrestige` at time `now`. */
    method DoPrestige(now: int) returns (done: bool)
      modifies this
      ensures done <==> CanPrestige(old(stats.totalEarned), old(prestigeLevel))
      ensures Data() == Actions.Prestige(old(Data()), now)
      ensures offlineProgress == old(offlineProgress)
      ensures old(Valid()) ==> Valid()
    {
      ghost var d0 := Data();
      done := CanPrestigeNow();
      if !done {
        return;
      }
      var newPrestigePoints := PrestigeGain(stats.totalEarned);
      currency := 0.0;
      generators := FreshGenerators();
      upgrades := [];
      explored := [];
      prestigeLevel := prestigeLevel + 1;
      prestigePoints := prestigePoints + newPrestigePoints;
      stats := stats.(totalEarned := 0.0, totalSpent := 0.0, totalPurchases := 0, sessionStart := now,
                      sessionEarned := 0.0, sessionClicks := 0);
      if WellFormed(d0) {
        Actions.PrestigeRestarts(d0, now);
      }
    }

    /** `claimOfflineProgress`. */
    method ClaimOfflineProgress()
      modifies this
      ensures Data() == Actions.Claim(old(Data()), old(offlineProgress))
      ensures offlineProgress == None
      ensures old(Valid()) ==> Valid()
    {
      ghost var d0 := Data();
      ghost var credit := offlineProgress;
      if offlineProgress.None? {
        return;
      }
      var earnings := offlineProgress.value.earnings;
      currency := currency + earnings;
      stats := stats.(totalEarned := stats.totalEarned + earnings);
      offlineProgress := None;
      if WellFormed(d0) && (credit.Some? ==> credit.value.earnings > 0.0) {
        Actions.ClaimKeepsWellFormed(d0, credit);
      }
    }

    /** The achievement effect at time `now`, against a snapshot of the
        state as it is when the effect runs. */
    method CheckAchievements(now: int)
      modifies this
      ensures Data() == Actions.CheckAchievements(old(Data()), now)
      ensures offlineProgress == old(offlineProgress)
      ensures old(Valid()) ==> Valid()
    {
      ghost var d0 := Data();
      var cps := CalculateCps(generators, upgrades, explored, prestigeLevel);
      var snapshot := Snapshot(currency, generators, stats, cps, explored, now);
      assert snapshot == SnapshotOf(d0, now);
      UnlockPass(Achievements(), snapshot);
      if WellFormed(d0) {
        Actions.CheckAchievementsOnce(d0, now);
      }
    }

    /** One unlock pass over a catalog, written to the component's
        currency and achievements. */
    method UnlockPass(catalog: seq<Achievement>, snapshot: Snapshot)
      modifies this`currency, this`achievements
      ensures achievements == old(achievements) + AchievementIds(NewlyUnlocked(catalog, old(achievements), snapshot))
      ensures currency == old(currency) + RewardTotal(NewlyUnlocked(catalog, old(achievements), snapshot))
      ensures Data() == old(Data()).(currency := currency, achievements := achievements)
      ensures offlineProgress == old(offlineProgress)
    {
      var ids, reward := UnlockLoop(catalog, achievements, snapshot);
      achievements := ids;
      currency := currency + reward;
    }

    /** The daily-challenge effect. */
    method CheckDailyChallenge()
      modifies this
      ensures Data() == Actions.CheckChallenge(old(Data()))
      ensures offlineProgress == old(offlineProgress)
      ensures !ChallengeDue(dailyChallenge, progress)
      ensures old(Valid()) ==> Valid()
    {
      ghost var d0 := Data();
      if WellFormed(d0) {
        Actions.CheckChallengeKeepsWellFormed(d0);
      }
      if dailyChallenge.None? || progress.completed {
        return;
      }
      var challenge := dailyChallenge.value.challenge;
      var reached := ProgressOf(progress, challenge.kind);
      if reached >= challenge.target {
        progress := progress.(completed := true);
        currency := currency + challenge.reward;
      }
    }

    /** The buy-quantity buttons of the settings panel. */
    method SetBuyQuantity(q: nat)
      modifies this
      ensures Data() == old(Data()).(buyQuantity := q)
      ensures offlineProgress == old(offlineProgress)
      ensures old(Valid()) ==> Valid()
    {
      buyQuantity := q;
    }
  }

  /** A new game's opening: fifteen clicks pay for the first solar panel,
      which then costs everything, so a second purchase is refused. */
  method OpeningMoves(now: int, today: string) returns (first: bool, second: bool, energy: real, panels: nat)
    ensures first && !second
    ensures energy == 0.0 && panels == 1
  {
    var game := new Game.Load(NoSave, now, today, 0);
    var k := 0;
    while k < 15
      invariant 0 <= k <= 15
      invariant game.Data() == FreshGame(now).(currency := k as real, stats := game.stats,
                                               dailyChallenge := game.dailyChallenge, progress := game.progress)
    {
      ClickPowerAtLeastOne([], 0);
      game.HandleClick();
      k := k + 1;
    }
    Actions.FirstSolarPanel(now);
    assert game.Data() == FreshGame(now).(currency := 15.0, stats := game.stats,
                                         dailyChallenge := game.dailyChallenge, progress := game.progress);
    first := game.BuyGenerator(0);
    second := game.BuyGenerator(0);
    energy := game.currency;
    panels := game.generators[0].qty;
  }


  /** The loop over a catalog: every entry whose id is not in `owned` and
      whose check holds of the snapshot has its id appended and its reward
      added up. */
  method UnlockLoop(catalog: seq<Achievement>, owned: seq<string>, snapshot: Snapshot)
    returns (ids: seq<string>, reward: real)
    ensures ids == owned + AchievementIds(NewlyUnlocked(catalog, owned, snapshot))
    ensures reward == RewardTotal(NewlyUnlocked(catalog, owned, snapshot))
  {
    ids := owned;
    reward := 0.0;
    var k := 0;
    while k < |catalog|
      invariant 0 <= k <= |catalog|
      invariant ids == owned + AchievementIds(NewlyUnlocked(catalog[..k], owned, snapshot))
      invariant reward == RewardTotal(NewlyUnlocked(catalog[..k], owned, snapshot))
    {
      var a := catalog[k];
      UnlockStep(catalog, k, owned, snapshot);
      if a.id !in owned && Holds(a.rule, snapshot) {
        ids := ids + [a.id];
        reward := reward + a.reward;
      }
      k := k + 1;
    }
    assert catalog[..|catalog|] == catalog;
  }
}
