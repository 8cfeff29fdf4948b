/** Achievement predicates, the once-only unlocking of achievements and the
    once-only completion of the daily challenge. */
module Rewards {
  import opened Content
  import opened Economy
  import opened State

  /** What an achievement predicate looks at: the fields of the state it
      reads, the production rate and the current time. */
  datatype Snapshot = Snapshot(
    currency: real,
    generators: seq<Generator>,
    stats: Stats,
    cps: real,
    explored: seq<string>,
    now: int)

  function SnapshotOf(d: GameData, now: int): (s: Snapshot)
    ensures s.currency == d.currency && s.generators == d.generators
    ensures s.stats == d.stats && s.explored == d.explored && s.now == now
    ensures s.cps == Production(d.generators, d.upgrades, d.explored, d.prestigeLevel)
  {
    Snapshot(d.currency, d.generators, d.stats, Cps(d), d.explored, now)
  }

  /** Some generator entry owns at least `count` units. */
  predicate SomeGeneratorOwns(gens: seq<Generator>, count: nat) {
    exists j :: 0 <= j < |gens| && gens[j].qty >= count
  }

  /** The `check` of an achievement, on one snapshot. */
  predicate Holds(rule: Rule, s: Snapshot) {
    match rule
    case ClicksAtLeast(n) => s.stats.totalClicks >= n
    case CurrencyAtLeast(a) => s.currency >= a
    case CpsAtLeast(rate) => s.cps >= rate
    case AnyGeneratorAtLeast(n) => SomeGeneratorOwns(s.generators, n)
    case TotalEarnedAtLeast(e) => s.stats.totalEarned >= e
    case PlaytimeAtLeast(ms) => s.now - s.stats.startTime >= ms
    case ExploredAtLeast(n) => |s.explored| >= n
  }

  /** The achievements one check unlocks, in catalog order: those whose id
      is not owned yet and whose predicate holds of the snapshot. */
  function NewlyUnlocked(cat: seq<Achievement>, owned: seq<string>, s: Snapshot): seq<Achievement> {
    if cat == [] then []
    else
      var init := NewlyUnlocked(cat[..|cat| - 1], owned, s);
      var last := cat[|cat| - 1];
      if last.id !in owned && Holds(last.rule, s) then init + [last] else init
  }

  /** An achievement is unlocked by a pass exactly when it is in the
      catalog, its id is not owned and its check holds; no more are
      unlocked than the catalog has. */
  lemma {:induction false} UnlockedExactly(cat: seq<Achievement>, owned: seq<string>, s: Snapshot)
    ensures |NewlyUnlocked(cat, owned, s)| <= |cat|
    ensures forall a :: a in NewlyUnlocked(cat, owned, s) <==> a in cat && a.id !in owned && Holds(a.rule, s)
  {
    if cat != [] {
      var init := cat[..|cat| - 1];
      UnlockedExactly(init, owned, s);
      assert cat == init + [cat[|cat| - 1]];
    }
  }

  /** The currency a list of unlocked achievements credits. */
  function RewardTotal(list: seq<Achievement>): real {
    if list == [] then 0.0 else RewardTotal(list[..|list| - 1]) + list[|list| - 1].reward
  }

  /** One step of the unlock pass: the entry at `k` has its id appended
      and its reward added exactly when its id is not owned and its check
      holds. */
  lemma UnlockStep(cat: seq<Achievement>, k: nat, owned: seq<string>, s: Snapshot)
    requires k < |cat|
    ensures var before := NewlyUnlocked(cat[..k], owned, s);
            var after := NewlyUnlocked(cat[..k + 1], owned, s);
            if cat[k].id !in owned && Holds(cat[k].rule, s) then
              && owned + AchievementIds(after) == owned + AchievementIds(before) + [cat[k].id]
              && RewardTotal(after) == RewardTotal(before) + cat[k].reward
            else after == before
  {
    assert cat[..k + 1][..k] == cat[..k];
    var before := NewlyUnlocked(cat[..k], owned, s);
    if cat[k].id !in owned && Holds(cat[k].rule, s) {
      var after := before + [cat[k]];
      assert after[..|before|] == before;
      assert AchievementIds(after) == AchievementIds(before) + [cat[k].id];
    }
  }

  lemma {:induction false} RewardTotalNonNegative(list: seq<Achievement>)
    requires forall a :: a in list ==> a.reward >= 0.0
    ensures RewardTotal(list) >= 0.0
  {
    if list != [] {
      var init := list[..|list| - 1];
      assert forall a :: a in init ==> a in list;
      RewardTotalNonNegative(init);
    }
  }

  /** Unlocking only ever appends: the owned list followed by the ids of
      the newly unlocked achievements has no repeats when the owned list and
      the catalog have none. */
  lemma {:induction false} UnlockKeepsDistinct(cat: seq<Achievement>, owned: seq<string>, s: Snapshot)
    requires Distinct(owned) && Distinct(AchievementIds(cat))
    ensures Distinct(owned + AchievementIds(NewlyUnlocked(cat, owned, s)))
  {
    if cat != [] {
      var init := cat[..|cat| - 1];
      var last := cat[|cat| - 1];
      assert AchievementIds(init) == AchievementIds(cat)[..|cat| - 1];
      UnlockKeepsDistinct(init, owned, s);
      UnlockedExactly(init, owned, s);
      var prev := NewlyUnlocked(init, owned, s);
      if last.id !in owned && Holds(last.rule, s) {
        assert NewlyUnlocked(cat, owned, s) == prev + [last];
        assert AchievementIds(prev + [last]) == AchievementIds(prev) + [last.id];
        forall a | a in prev ensures a.id != last.id {
          var j :| 0 <= j < |init| && init[j] == a;
          assert AchievementIds(cat)[j] == a.id;
          assert AchievementIds(cat)[|cat| - 1] == last.id;
        }
        var ids := owned + AchievementIds(prev);
        assert last.id !in ids by {
          forall k | 0 <= k < |AchievementIds(prev)| ensures AchievementIds(prev)[k] != last.id {
            assert prev[k] in prev;
          }
        }
        assert owned + AchievementIds(prev + [last]) == ids + [last.id];
        DistinctAppend(ids, last.id);
      }
    }
  }

  /** A second check against the same snapshot unlocks nothing. */
  lemma UnlockIdempotent(cat: seq<Achievement>, owned: seq<string>, s: Snapshot)
    ensures forall a :: a !in NewlyUnlocked(cat, owned + AchievementIds(NewlyUnlocked(cat, owned, s)), s)
  {
    var first := NewlyUnlocked(cat, owned, s);
    UnlockedExactly(cat, owned, s);
    UnlockedExactly(cat, owned + AchievementIds(first), s);
    forall a | a in first ensures a.id in AchievementIds(first) {
      var k :| 0 <= k < |first| && first[k] == a;
      assert AchievementIds(first)[k] == a.id;
    }
  }

  /** When only the first entry of a catalog holds and nothing is owned,
      a pass unlocks that entry and nothing else. */
  lemma OnlyFirstUnlocks(cat: seq<Achievement>, s: Snapshot)
    requires |cat| > 0 && Holds(cat[0].rule, s)
    requires forall j :: 1 <= j < |cat| ==> !Holds(cat[j].rule, s)
    ensures forall a :: a in NewlyUnlocked(cat, [], s) <==> a == cat[0]
  {
    UnlockedExactly(cat, [], s);
    forall a | a in NewlyUnlocked(cat, [], s) ensures a == cat[0] {
      var j :| 0 <= j < |cat| && cat[j] == a;
    }
  }

  /** In a snapshot with one click, one energy, no production, no
      generators, no planets and no time played, only "First Spark" holds. */
  lemma OnlyFirstSparkHolds(s: Snapshot)
    requires s.stats.totalClicks == 1 && s.currency == 1.0 && s.cps == 0.0
    requires s.stats.totalEarned == 1.0 && s.explored == [] && s.now == s.stats.startTime
    requires forall j :: 0 <= j < |s.generators| ==> s.generators[j].qty == 0
    ensures Holds(Achievements()[0].rule, s)
    ensures forall j :: 1 <= j < |Achievements()| ==> !Holds(Achievements()[j].rule, s)
  {
    assert !SomeGeneratorOwns(s.generators, 10);
    assert !SomeGeneratorOwns(s.generators, 100);
  }

  /** The daily challenge is due: one is issued, it is not completed yet and
      the counter its kind measures has reached its target. */
  predicate ChallengeDue(dc: Option<DailyChallenge>, p: Progress) {
    dc.Some? && !p.completed && ProgressOf(p, dc.value.challenge.kind) >= dc.value.challenge.target
  }
}
