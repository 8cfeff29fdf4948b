/** The economy: the price curve of generators, the passive production rate,
    the click power and the arithmetic of prestige. All quantities are exact
    reals. */
module Economy {
  import opened Content

  // ---------------------------------------------------------------------
  // Cost curve
  // ---------------------------------------------------------------------

  /** m raised to a natural power n. */
  function Pow(m: real, n: nat): real {
    if n == 0 then 1.0 else m * Pow(m, n - 1)
  }

  /** Price of the next unit when `owned` are already owned: base * 1.15^owned. */
  function NextCost(base: real, owned: nat): real {
    base * Pow(1.15, owned)
  }

  lemma {:induction false} GrowthAtLeastOne(n: nat)
    ensures Pow(1.15, n) >= 1.0
  {
    if n > 0 {
      GrowthAtLeastOne(n - 1);
    }
  }

  /** Each further unit costs strictly more than the one before. */
  lemma NextCostIncreasing(base: real, owned: nat)
    requires base > 0.0
    ensures NextCost(base, owned + 1) > NextCost(base, owned) > 0.0
  {
    GrowthAtLeastOne(owned);
    assert Pow(1.15, owned + 1) == 1.15 * Pow(1.15, owned);
  }

  /** The price curve is strictly increasing over any distance. */
  lemma {:induction false} NextCostStrictlyMonotone(base: real, m: nat, n: nat)
    requires base > 0.0 && m < n
    ensures NextCost(base, m) < NextCost(base, n)
    decreases n - m
  {
    NextCostIncreasing(base, m);
    if m + 1 < n {
      NextCostStrictlyMonotone(base, m + 1, n);
    }
  }

  /** Price of `quantity` units bought together when `owned` are owned:
      the sum of NextCost(base, owned + i) for i < quantity. */
  function BatchCost(base: real, owned: nat, quantity: nat): real {
    if quantity == 0 then 0.0
    else BatchCost(base, owned, quantity - 1) + NextCost(base, owned + quantity - 1)
  }

  /** The loop of `buyGenerator` that adds up the unit prices. */
  method TotalCost(base: real, owned: nat, quantity: nat) returns (total: real)
    ensures total == BatchCost(base, owned, quantity)
  {
    total := 0.0;
    for i := 0 to quantity
      invariant total == BatchCost(base, owned, i)
    {
      total := total + NextCost(base, owned + i);
    }
  }

  lemma {:induction false} BatchCostNonNegative(base: real, owned: nat, quantity: nat)
    requires base >= 0.0
    ensures BatchCost(base, owned, quantity) >= 0.0
  {
    if quantity > 0 {
      BatchCostNonNegative(base, owned, quantity - 1);
      GrowthAtLeastOne(owned + quantity - 1);
    }
  }

  /** Buying more units at once always costs more. */
  lemma {:induction false} BatchCostIncreasingInQuantity(base: real, owned: nat, p: nat, q: nat)
    requires base > 0.0 && p < q
    ensures BatchCost(base, owned, p) < BatchCost(base, owned, q)
    decreases q - p
  {
    GrowthAtLeastOne(owned + q - 1);
    if p + 1 < q {
      BatchCostIncreasingInQuantity(base, owned, p, q - 1);
    }
  }

  /** The same batch costs more when more units are already owned. */
  lemma {:induction false} BatchCostIncreasingInOwned(base: real, owned: nat, quantity: nat)
    requires base > 0.0 && quantity >= 1
    ensures BatchCost(base, owned, quantity) < BatchCost(base, owned + 1, quantity)
  {
    NextCostIncreasing(base, owned + quantity - 1);
    if quantity > 1 {
      BatchCostIncreasingInOwned(base, owned, quantity - 1);
    }
  }

  // ---------------------------------------------------------------------
  // Production rate
  // ---------------------------------------------------------------------

  /** A generator's own rate: qty * cps, multiplied in list order by every
      owned generator multiplier that targets it. */
  function GeneratorRate(g: Generator, ups: seq<Upgrade>): real
    decreases |ups|
  {
    if ups == [] then g.qty as real * g.cps
    else
      var y := GeneratorRate(g, ups[..|ups| - 1]);
      match ups[|ups| - 1].effect
      case GeneratorMultiplier(target, v) => if target == g.id then y * v else y
      case _ => y
  }

  /** The sum of the generator rates. */
  function BaseRate(gens: seq<Generator>, ups: seq<Upgrade>): real
    decreases |gens|
  {
    if gens == [] then 0.0
    else BaseRate(gens[..|gens| - 1], ups) + GeneratorRate(gens[|gens| - 1], ups)
  }

  /** 1 multiplied, in list order, by every owned global multiplier. */
  function GlobalProduct(ups: seq<Upgrade>): real
    decreases |ups|
  {
    if ups == [] then 1.0
    else
      var y := GlobalProduct(ups[..|ups| - 1]);
      match ups[|ups| - 1].effect
      case GlobalMultiplier(v) => y * v
      case _ => y
  }

  /** The bonus of one explored id: that of the first planet with the id,
      or none when no planet has it. */
  function BonusOf(id: string): real {
    match FindPlanet(Planets(), id)
    case Some(p) => p.bonus
    case None => 0.0
  }

  /** The sum of the bonuses of the explored planets. */
  function PlanetBonus(expl: seq<string>): real
    decreases |expl|
  {
    if expl == [] then 0.0
    else PlanetBonus(expl[..|expl| - 1]) + BonusOf(expl[|expl| - 1])
  }

  /** The prestige factor 1 + 0.1 * level, applied only from level 1 on. */
  function PrestigeFactor(level: nat): real {
    if level > 0 then 1.0 + level as real * 0.1 else 1.0
  }

  /** The global multiplier before the prestige factor: the product of the
      global upgrades PLUS the planet bonuses. */
  function MultiplierSum(ups: seq<Upgrade>, expl: seq<string>): real {
    GlobalProduct(ups) + PlanetBonus(expl)
  }

  /** The global multiplier: MultiplierSum times the prestige factor. */
  function GlobalFactor(ups: seq<Upgrade>, expl: seq<string>, level: nat): real {
    MultiplierSum(ups, expl) * PrestigeFactor(level)
  }

  /** Passive income per second. */
  function Production(gens: seq<Generator>, ups: seq<Upgrade>, expl: seq<string>, level: nat): real {
    BaseRate(gens, ups) * GlobalFactor(ups, expl, level)
  }

  /** The inner loop of `calculateCPS`: one generator's rate, multiplied by
      each matching generator multiplier in turn. */
  method ComputeGeneratorRate(g: Generator, ups: seq<Upgrade>) returns (r: real)
    ensures r == GeneratorRate(g, ups)
  {
    r := g.qty as real * g.cps;
    for k := 0 to |ups|
      invariant r == GeneratorRate(g, ups[..k])
    {
      assert ups[..k + 1][..k] == ups[..k];
      match ups[k].effect {
        case GeneratorMultiplier(target, v) =>
          if target == g.id {
            r := r * v;
          }
        case _ =>
      }
    }
    assert ups[..|ups|] == ups;
  }

  /** The global-multiplier part of `calculateCPS`: the product of the
      global upgrades, then each explored planet's bonus added, then the
      prestige factor when the level is positive. */
  method ComputeGlobalFactor(ups: seq<Upgrade>, expl: seq<string>, level: nat) returns (m: real)
    ensures m == GlobalFactor(ups, expl, level)
  {
    m := MultiplyGlobals(ups);
    m := AddPlanetBonuses(m, expl);
    if level > 0 {
      m := m * (1.0 + level as real * 0.1);
    }
  }

  /** The loop over the upgrades multiplying in each global multiplier. */
  method MultiplyGlobals(ups: seq<Upgrade>) returns (m: real)
    ensures m == GlobalProduct(ups)
  {
    m := 1.0;
    for k := 0 to |ups|
      invariant m == GlobalProduct(ups[..k])
    {
      assert ups[..k + 1][..k] == ups[..k];
      match ups[k].effect {
        case GlobalMultiplier(v) =>
          m := m * v;
        case _ =>
      }
    }
    assert ups[..|ups|] == ups;
  }

  /** The loop over the explored ids adding each known planet's bonus. */
  method AddPlanetBonuses(m0: real, expl: seq<string>) returns (m: real)
    ensures m == m0 + PlanetBonus(expl)
  {
    m := m0;
    for k := 0 to |expl|
      invariant m == m0 + PlanetBonus(expl[..k])
    {
      assert expl[..k + 1][..k] == expl[..k];
      var planet := FindPlanet(Planets(), expl[k]);
      if planet.Some? {
        m := m + planet.value.bonus;
      }
    }
    assert expl[..|expl|] == expl;
  }

  lemma BaseRateStep(gens: seq<Generator>, i: nat, ups: seq<Upgrade>)
    requires i < |gens|
    ensures BaseRate(gens[..i + 1], ups) == BaseRate(gens[..i], ups) + GeneratorRate(gens[i], ups)
  {
    assert gens[..i + 1][..i] == gens[..i];
  }

  /** The outer loop of `calculateCPS`: the generator rates summed. */
  method SumGeneratorRates(gens: seq<Generator>, ups: seq<Upgrade>) returns (totalCps: real)
    ensures totalCps == BaseRate(gens, ups)
  {
    totalCps := 0.0;
    for i := 0 to |gens|
      invariant totalCps == BaseRate(gens[..i], ups)
    {
      var genCps := ComputeGeneratorRate(gens[i], ups);
      BaseRateStep(gens, i, ups);
      totalCps := totalCps + genCps;
    }
    assert gens[..|gens|] == gens;
  }

  /** `calculateCPS`: the generator rates summed, times the global multiplier. */
  method CalculateCps(gens: seq<Generator>, ups: seq<Upgrade>, expl: seq<string>, level: nat)
    returns (cps: real)
    ensures cps == Production(gens, ups, expl, level)
  {
    var totalCps := SumGeneratorRates(gens, ups);
    var globalMultiplier := ComputeGlobalFactor(ups, expl, level);
    cps := totalCps * globalMultiplier;
  }

  /** Every upgrade in the list satisfies UpgradeOk. */
  predicate UpgradesOk(ups: seq<Upgrade>) {
    forall k :: 0 <= k < |ups| ==> UpgradeOk(ups[k])
  }

  predicate GeneratorsOk(gens: seq<Generator>) {
    forall j :: 0 <= j < |gens| ==> GeneratorOk(gens[j])
  }

  /** Multipliers of at least 1 never lower a generator's own qty * cps. */
  lemma {:induction false} GeneratorRateAtLeastOwn(g: Generator, ups: seq<Upgrade>)
    requires GeneratorOk(g) && UpgradesOk(ups)
    ensures GeneratorRate(g, ups) >= g.qty as real * g.cps >= 0.0
    decreases |ups|
  {
    if ups != [] {
      var init := ups[..|ups| - 1];
      assert UpgradesOk(init) by {
        forall k | 0 <= k < |init| ensures UpgradeOk(init[k]) {
          assert init[k] == ups[k];
        }
      }
      GeneratorRateAtLeastOwn(g, init);
      assert UpgradeOk(ups[|ups| - 1]);
    }
  }

  /** A generator nobody owns produces nothing, whatever the upgrades. */
  lemma {:induction false} GeneratorRateIdle(g: Generator, ups: seq<Upgrade>)
    requires g.qty == 0
    ensures GeneratorRate(g, ups) == 0.0
    decreases |ups|
  {
    if ups != [] {
      GeneratorRateIdle(g, ups[..|ups| - 1]);
    }
  }

  lemma {:induction false} BaseRateNonNegative(gens: seq<Generator>, ups: seq<Upgrade>)
    requires GeneratorsOk(gens) && UpgradesOk(ups)
    ensures BaseRate(gens, ups) >= 0.0
    decreases |gens|
  {
    if gens != [] {
      var init := gens[..|gens| - 1];
      assert GeneratorsOk(init) by {
        forall j | 0 <= j < |init| ensures GeneratorOk(init[j]) {
          assert init[j] == gens[j];
        }
      }
      BaseRateNonNegative(init, ups);
      var g := gens[|gens| - 1];
      assert GeneratorOk(g);
      GeneratorRateAtLeastOwn(g, ups);
    }
  }

  lemma {:induction false} GlobalProductAtLeastOne(ups: seq<Upgrade>)
    requires UpgradesOk(ups)
    ensures GlobalProduct(ups) >= 1.0
    decreases |ups|
  {
    if ups != [] {
      var init := ups[..|ups| - 1];
      assert UpgradesOk(init) by {
        forall k | 0 <= k < |init| ensures UpgradeOk(init[k]) {
          assert init[k] == ups[k];
        }
      }
      GlobalProductAtLeastOne(init);
      assert UpgradeOk(ups[|ups| - 1]);
    }
  }

  lemma {:induction false} PlanetBonusNonNegative(expl: seq<string>)
    ensures PlanetBonus(expl) >= 0.0
    decreases |expl|
  {
    if expl != [] {
      PlanetBonusNonNegative(expl[..|expl| - 1]);
      CatalogsWellFormed();
    }
  }

  /** The global multiplier is at least 1 for catalog-like upgrades. */
  lemma GlobalFactorAtLeastOne(ups: seq<Upgrade>, expl: seq<string>, level: nat)
    requires UpgradesOk(ups)
    ensures GlobalFactor(ups, expl, level) >= 1.0
  {
    GlobalProductAtLeastOne(ups);
    PlanetBonusNonNegative(expl);
  }

  /** Production is never negative for non-negative generator rates and
      multipliers of at least 1. */
  lemma ProductionNonNegative(gens: seq<Generator>, ups: seq<Upgrade>, expl: seq<string>, level: nat)
    requires GeneratorsOk(gens) && UpgradesOk(ups)
    ensures Production(gens, ups, expl, level) >= 0.0
  {
    BaseRateNonNegative(gens, ups);
    GlobalFactorAtLeastOne(ups, expl, level);
  }

  /** With no generator owned there is no production, whatever the upgrades. */
  lemma {:induction false} BaseRateIdle(gens: seq<Generator>, ups: seq<Upgrade>)
    requires forall j :: 0 <= j < |gens| ==> gens[j].qty == 0
    ensures BaseRate(gens, ups) == 0.0
    decreases |gens|
  {
    if gens != [] {
      BaseRateIdle(gens[..|gens| - 1], ups);
      GeneratorRateIdle(gens[|gens| - 1], ups);
    }
  }

  lemma ProductionIdle(gens: seq<Generator>, ups: seq<Upgrade>, expl: seq<string>, level: nat)
    requires forall j :: 0 <= j < |gens| ==> gens[j].qty == 0
    ensures Production(gens, ups, expl, level) == 0.0
  {
    BaseRateIdle(gens, ups);
  }

  /** Without upgrades, a list in which only one generator is owned
      produces exactly qty * cps of that generator. */
  lemma {:induction false} BaseRateSingle(gens: seq<Generator>, i: nat)
    requires i < |gens|
    requires forall j :: 0 <= j < |gens| && j != i ==> gens[j].qty == 0
    ensures BaseRate(gens, []) == gens[i].qty as real * gens[i].cps
    decreases |gens|
  {
    var n := |gens| - 1;
    var init := gens[..n];
    if i == n {
      BaseRateIdle(init, []);
    } else {
      BaseRateSingle(init, i);
    }
  }

  /** Five solar panels and nothing else owned give 0.5 per second. */
  lemma FiveSolarPanels()
    ensures Production(FreshGenerators()[0 := FreshGenerators()[0].(qty := 5)], [], [], 0) == 0.5
  {
    var gens := FreshGenerators()[0 := FreshGenerators()[0].(qty := 5)];
    BaseRateSingle(gens, 0);
  }

  /** Exploring one more planet adds its bonus to the multiplier sum (the
      global product plus the earlier bonuses); the prestige factor then
      multiplies that sum: the planet bonus is added, not multiplied. */
  lemma ExploreAddsBonus(ups: seq<Upgrade>, expl: seq<string>, p: Planet)
    requires p in Planets()
    ensures MultiplierSum(ups, expl + [p.id]) == MultiplierSum(ups, expl) + p.bonus
  {
    assert (expl + [p.id])[..|expl|] == expl;
  }

  /** The prestige factor scales the whole production, and only from
      level 1 on. */
  lemma PrestigeScalesProduction(gens: seq<Generator>, ups: seq<Upgrade>, expl: seq<string>, level: nat)
    ensures GlobalFactor(ups, expl, 0) == MultiplierSum(ups, expl)
    ensures level > 0 ==> PrestigeFactor(level) == 1.0 + level as real * 0.1
    ensures Production(gens, ups, expl, level) == Production(gens, ups, expl, 0) * PrestigeFactor(level)
  {
    var b, m, f := BaseRate(gens, ups), MultiplierSum(ups, expl), PrestigeFactor(level);
    assert GlobalFactor(ups, expl, level) == m * f;
    assert b * (m * f) == (b * m) * f;
  }

  /** With "Energy Crystals" owned and the Moon explored the multiplier is
      1.15 + 0.1 = 1.25, not 1.15 * 1.1. */
  lemma CrystalsAndMoon(gens: seq<Generator>)
    ensures Production(gens, [BaseUpgrades()[3]], ["moon"], 0) == BaseRate(gens, [BaseUpgrades()[3]]) * 1.25
  {
    var ups := [BaseUpgrades()[3]];
    assert ups[..0] == [];
    assert GlobalProduct(ups) == 1.15;
    assert ["moon"][..0] == [];
    assert PlanetBonus(["moon"]) == 0.1;
  }

  /** Owning more of every generator never lowers the base rate. */
  lemma {:induction false} BaseRateMonotone(gens: seq<Generator>, more: seq<Generator>, ups: seq<Upgrade>)
    requires |more| == |gens| && GeneratorsOk(gens) && UpgradesOk(ups)
    requires forall j :: 0 <= j < |gens| ==> more[j] == gens[j].(qty := more[j].qty) && more[j].qty >= gens[j].qty
    ensures BaseRate(more, ups) >= BaseRate(gens, ups)
    decreases |gens|
  {
    if gens != [] {
      var n := |gens| - 1;
      assert GeneratorsOk(gens[..n]) by {
        forall j | 0 <= j < n ensures GeneratorOk(gens[..n][j]) {
          assert gens[..n][j] == gens[j];
        }
      }
      BaseRateMonotone(gens[..n], more[..n], ups);
      var g, h := gens[n], more[n];
      assert GeneratorOk(g);
      GeneratorRateMonotone(g, h, ups);
    }
  }

  lemma {:induction false} GeneratorRateMonotone(g: Generator, h: Generator, ups: seq<Upgrade>)
    requires GeneratorOk(g) && UpgradesOk(ups)
    requires h == g.(qty := h.qty) && h.qty >= g.qty
    ensures GeneratorRate(g, ups) <= GeneratorRate(h, ups)
    decreases |ups|
  {
    if ups == [] {
      assert g.qty as real * g.cps <= h.qty as real * g.cps;
    } else {
      var init := ups[..|ups| - 1];
      assert UpgradesOk(init) by {
        forall k | 0 <= k < |init| ensures UpgradeOk(init[k]) {
          assert init[k] == ups[k];
        }
      }
      GeneratorRateMonotone(g, h, init);
      GeneratorRateAtLeastOwn(g, init);
      assert UpgradeOk(ups[|ups| - 1]);
    }
  }

  /** Buying generators never lowers production. */
  lemma ProductionMonotone(gens: seq<Generator>, more: seq<Generator>, ups: seq<Upgrade>, expl: seq<string>, level: nat)
    requires |more| == |gens| && GeneratorsOk(gens) && UpgradesOk(ups)
    requires forall j :: 0 <= j < |gens| ==> more[j] == gens[j].(qty := more[j].qty) && more[j].qty >= gens[j].qty
    ensures Production(more, ups, expl, level) >= Production(gens, ups, expl, level)
  {
    BaseRateMonotone(gens, more, ups);
    GlobalFactorAtLeastOne(ups, expl, level);
  }

  // ---------------------------------------------------------------------
  // Click power and auto-clickers
  // ---------------------------------------------------------------------

  /** 1 multiplied, in list order, by every owned click multiplier. */
  function ClickProduct(ups: seq<Upgrade>): real
    decreases |ups|
  {
    if ups == [] then 1.0
    else
      var y := ClickProduct(ups[..|ups| - 1]);
      match ups[|ups| - 1].effect
      case ClickMultiplier(v) => y * v
      case _ => y
  }

  /** Energy per click: the click multipliers times 1 + 0.05 * level. */
  function ClickPower(ups: seq<Upgrade>, level: nat): real {
    ClickProduct(ups) * (1.0 + level as real * 0.05)
  }

  /** The `clickPower` memo, as its loop. */
  method ComputeClickPower(ups: seq<Upgrade>, level: nat) returns (power: real)
    ensures power == ClickPower(ups, level)
  {
    power := 1.0;
    for k := 0 to |ups|
      invariant power == ClickProduct(ups[..k])
    {
      assert ups[..k + 1][..k] == ups[..k];
      match ups[k].effect {
        case ClickMultiplier(v) =>
          power := power * v;
        case _ =>
      }
    }
    assert ups[..|ups|] == ups;
    power := power * (1.0 + level as real * 0.05);
  }

  lemma {:induction false} ClickProductAtLeastOne(ups: seq<Upgrade>)
    requires UpgradesOk(ups)
    ensures ClickProduct(ups) >= 1.0
    decreases |ups|
  {
    if ups != [] {
      var init := ups[..|ups| - 1];
      assert UpgradesOk(init) by {
        forall k | 0 <= k < |init| ensures UpgradeOk(init[k]) {
          assert init[k] == ups[k];
        }
      }
      ClickProductAtLeastOne(init);
      assert UpgradeOk(ups[|ups| - 1]);
    }
  }

  /** A click is worth at least 1 with catalog-like upgrades; a fresh game's
      click is worth exactly 1. */
  lemma ClickPowerAtLeastOne(ups: seq<Upgrade>, level: nat)
    requires UpgradesOk(ups)
    ensures ClickPower(ups, level) >= 1.0
    ensures ClickPower([], 0) == 1.0
  {
    ClickProductAtLeastOne(ups);
  }

  /** The number of owned auto-clicker upgrades. */
  function AutoClickCount(ups: seq<Upgrade>): (n: nat)
    ensures n <= |ups|
    ensures n > 0 <==> exists k :: 0 <= k < |ups| && ups[k].effect == AutoClick
    decreases |ups|
  {
    if ups == [] then 0
    else AutoClickCount(ups[..|ups| - 1]) + (if ups[|ups| - 1].effect == AutoClick then 1 else 0)
  }

  // ---------------------------------------------------------------------
  // Prestige arithmetic
  // ---------------------------------------------------------------------

  /** The threshold for `level`; any level past the table uses its last entry. */
  function PrestigeThreshold(level: nat): (t: real)
    ensures t >= 1000000.0
    ensures level >= 3 ==> t == 1000000000.0
  {
    PrestigeThresholds()[if level < |PrestigeThresholds()| - 1 then level else |PrestigeThresholds()| - 1]
  }

  /** The thresholds never fall as the level rises. */
  lemma ThresholdsAscending(m: nat, n: nat)
    requires m <= n
    ensures PrestigeThreshold(m) <= PrestigeThreshold(n)
  {
  }

  predicate CanPrestige(totalEarned: real, level: nat) {
    totalEarned >= PrestigeThreshold(level)
  }

  /** The largest k with k * k <= x, searching upward from k. */
  function SqrtFrom(x: real, k: nat): (r: nat)
    requires (k * k) as real <= x
    ensures r >= k
    ensures (r * r) as real <= x < ((r + 1) * (r + 1)) as real
    decreases x.Floor - k
  {
    if x < ((k + 1) * (k + 1)) as real then k
    else
      assert k + 1 <= (k + 1) * (k + 1);
      SqrtFrom(x, k + 1)
  }

  /** The floor of the square root of x, for x >= 0. */
  function FloorSqrt(x: real): (r: nat)
    requires x >= 0.0
    ensures (r * r) as real <= x < ((r + 1) * (r + 1)) as real
  {
    SqrtFrom(x, 0)
  }

  /** Prestige points earned for a cycle: floor(sqrt(totalEarned / 1e6)). */
  function PrestigeGain(totalEarned: real): nat
    requires totalEarned >= 0.0
  {
    FloorSqrt(totalEarned / 1000000.0)
  }

  /** Whoever may prestige earns at least one point. */
  lemma PrestigeGainPositive(totalEarned: real, level: nat)
    requires CanPrestige(totalEarned, level)
    ensures PrestigeGain(totalEarned) >= 1
  {
    var x := totalEarned / 1000000.0;
    assert x >= 1.0;
  }
}
