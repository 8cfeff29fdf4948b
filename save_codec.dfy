/** The save payload, loading it back with a default for every missing
    field, the offline credit and the daily-challenge rotation. The stored
    text and its parsing are not modelled: a save is either absent,
    unreadable, or a record whose fields may each be missing. */
module SaveCodec {
  import opened Content
  import opened Economy
  import opened State

  /** The saved `stats` object; a key it lacks is `None`. */
  datatype SavedStats = SavedStats(
    totalClicks: Option<nat>,
    totalEarned: Option<real>,
    totalSpent: Option<real>,
    startTime: Option<int>,
    lastSave: Option<int>,
    sessionStart: Option<int>,
    totalPurchases: Option<nat>,
    sessionEarned: Option<real>,
    sessionClicks: Option<nat>)

  /** The save payload; a missing (or null) field is `None`. */
  datatype SaveRecord = SaveRecord(
    currency: Option<real>,
    generators: Option<seq<Generator>>,
    upgrades: Option<seq<Upgrade>>,
    achievements: Option<seq<string>>,
    explored: Option<seq<string>>,
    prestigeLevel: Option<nat>,
    prestigePoints: Option<nat>,
    buyQuantity: Option<nat>,
    stats: Option<SavedStats>,
    dailyChallenge: Option<DailyChallenge>,
    challengeProgress: Option<Progress>,
    version: Option<string>)

  /** What storage holds under the save key: nothing, text that does not
      parse, or a parsed record. */
  datatype StoredSave = NoSave | Unreadable | Readable(record: SaveRecord)

  /** The pending "welcome back" credit. */
  datatype OfflineCredit = OfflineCredit(time: int, earnings: real)

  datatype Loaded = Loaded(data: GameData, offline: Option<OfflineCredit>)

  function SaveStats(st: Stats, now: int): SavedStats {
    SavedStats(Some(st.totalClicks), Some(st.totalEarned), Some(st.totalSpent), Some(st.startTime),
               Some(now), Some(st.sessionStart), Some(st.totalPurchases), Some(st.sessionEarned),
               Some(st.sessionClicks))
  }

  /** The payload `saveGame` writes at time `now`: every field of the state,
      with `lastSave` stamped to `now`, and version "1.0". */
  function Encode(d: GameData, now: int): (s: SaveRecord)
    ensures s.version == Some("1.0") && s.dailyChallenge == d.dailyChallenge
    ensures s.stats.Some? && s.stats.value.lastSave == Some(now)
  {
    SaveRecord(Some(d.currency), Some(d.generators), Some(d.upgrades), Some(d.achievements),
               Some(d.explored), Some(d.prestigeLevel), Some(d.prestigePoints), Some(d.buyQuantity),
               Some(SaveStats(d.stats, now)), d.dailyChallenge, Some(d.progress), Some("1.0"))
  }

  /** The loaded stats: the defaults of a new game, overridden by every key
      the save has, and then `sessionStart` set to now. */
  function RestoreStats(saved: Option<SavedStats>, now: int): (st: Stats)
    ensures st.sessionStart == now
    ensures saved.None? ==> st == FreshStats(now)
    ensures saved.Some? ==>
              && st.totalClicks == saved.value.totalClicks.GetOr(0)
              && st.totalEarned == saved.value.totalEarned.GetOr(0.0)
              && st.totalSpent == saved.value.totalSpent.GetOr(0.0)
              && st.startTime == saved.value.startTime.GetOr(now)
              && st.lastSave == saved.value.lastSave.GetOr(now)
              && st.totalPurchases == saved.value.totalPurchases.GetOr(0)
              && st.sessionEarned == saved.value.sessionEarned.GetOr(0.0)
              && st.sessionClicks == saved.value.sessionClicks.GetOr(0)
  {
    match saved
    case None => FreshStats(now)
    case Some(ss) =>
      Stats(ss.totalClicks.GetOr(0), ss.totalEarned.GetOr(0.0), ss.totalSpent.GetOr(0.0),
            ss.startTime.GetOr(now), ss.lastSave.GetOr(now), now, ss.totalPurchases.GetOr(0),
            ss.sessionEarned.GetOr(0.0), ss.sessionClicks.GetOr(0))
  }

  /** Every field back-filled with its `??` default. The daily challenge is
      taken as saved, missing or not. */
  function Restore(s: SaveRecord, now: int): GameData {
    GameData(
      s.currency.GetOr(0.0),
      s.generators.GetOr(FreshGenerators()),
      s.upgrades.GetOr([]),
      s.achievements.GetOr([]),
      s.explored.GetOr([]),
      s.prestigeLevel.GetOr(0),
      s.prestigePoints.GetOr(0),
      s.buyQuantity.GetOr(1),
      RestoreStats(s.stats, now),
      s.dailyChallenge,
      s.challengeProgress.GetOr(NoProgress()))
  }

  /** A challenge is issued afresh, with its progress cleared, unless the
      loaded one was issued today. */
  function Rotate(d: GameData, today: string, pick: nat): (r: GameData)
    requires pick < |DailyChallenges()|
    ensures r.dailyChallenge.Some? && r.dailyChallenge.value.startDate == today
    ensures d.dailyChallenge.Some? && d.dailyChallenge.value.startDate == today ==> r == d
    ensures !(d.dailyChallenge.Some? && d.dailyChallenge.value.startDate == today) ==>
              r == d.(dailyChallenge := Some(Issue(pick, today)), progress := NoProgress())
  {
    if d.dailyChallenge.None? || d.dailyChallenge.value.startDate != today then
      d.(dailyChallenge := Some(Issue(pick, today)), progress := NoProgress())
    else d
  }

  /** Earnings for `ms` milliseconds away at `cps` per second, capped at
      two hours of production. */
  function OfflineEarnings(cps: real, ms: int): (e: real) {
    var uncapped := cps * (ms as real / 1000.0);
    var cap := cps * 3600.0 * 2.0;
    if uncapped <= cap then uncapped else cap
  }

  /** With non-negative production the credit is the whole absence up to
      two hours and two hours' worth beyond that. */
  lemma OfflineEarningsCapped(cps: real, ms: int)
    requires cps >= 0.0
    ensures OfflineEarnings(cps, ms) <= cps * 7200.0
    ensures ms <= 7200000 ==> OfflineEarnings(cps, ms) == cps * (ms as real / 1000.0)
    ensures ms >= 7200000 ==> OfflineEarnings(cps, ms) == cps * 7200.0
  {
    var t := ms as real / 1000.0;
    if ms <= 7200000 {
      assert t <= 7200.0;
      assert cps * t <= cps * 7200.0;
    } else {
      assert t >= 7200.0;
      assert cps * 7200.0 <= cps * t;
    }
  }


  /** Five hours away at 100 per second credits two hours' worth. */
  lemma FiveHoursAway()
    ensures OfflineEarnings(100.0, 18000000) == 720000.0
    ensures OfflineEarnings(100.0, 90000) == 9000.0
  {
  }

  /** The production rate the offline credit is computed from: the saved
      lists, each defaulting to empty (so a save without generators earns
      nothing offline). */
  function SavedCps(s: SaveRecord): real {
    Production(s.generators.GetOr([]), s.upgrades.GetOr([]), s.explored.GetOr([]), s.prestigeLevel.GetOr(0))
  }

  /** The time away since the last save, when the save records a non-zero one. */
  function Away(s: SaveRecord, now: int): Option<int> {
    if s.stats.Some? && s.stats.value.lastSave.Some? && s.stats.value.lastSave.value != 0
    then Some(now - s.stats.value.lastSave.value)
    else None
  }

  /** The offline credit a load offers. */
  function Offline(s: SaveRecord, now: int): (r: Option<OfflineCredit>)
    ensures r.Some? <==> Away(s, now).Some? && Away(s, now).value > 60000
                         && OfflineEarnings(SavedCps(s), Away(s, now).value) > 0.0
    ensures r.Some? ==> r.value.time == Away(s, now).value && r.value.time > 60000
                        && r.value.earnings > 0.0
                        && r.value.earnings == OfflineEarnings(SavedCps(s), r.value.time)
  {
    match Away(s, now)
    case None => None
    case Some(t) =>
      if t > 60000 then
        var e := OfflineEarnings(SavedCps(s), t);
        if e > 0.0 then Some(OfflineCredit(t, e)) else None
      else None
  }

  /** The load effect: no save starts a new game with a challenge issued;
      an unreadable save leaves the new game's state as it is, with no
      challenge; a readable one is restored, rotated and credited. */
  function Decode(stored: StoredSave, now: int, today: string, pick: nat): (r: Loaded)
    requires pick < |DailyChallenges()|
    ensures stored.NoSave? ==> r == Loaded(FreshGame(now).(dailyChallenge := Some(Issue(pick, today))), None)
    ensures stored.Unreadable? ==> r == Loaded(FreshGame(now), None)
    ensures stored.Readable? ==>
              && r.offline == Offline(stored.record, now)
              && r.data.dailyChallenge.Some? && r.data.dailyChallenge.value.startDate == today
              && r.data.stats.sessionStart == now
  {
    match stored
    case NoSave => Loaded(FreshGame(now).(dailyChallenge := Some(Issue(pick, today))), None)
    case Unreadable => Loaded(FreshGame(now), None)
    case Readable(s) => Loaded(Rotate(Restore(s, now), today, pick), Offline(s, now))
  }

  /** Loading what was saved at `t` gives back the saved state, with
      `lastSave` at `t` and `sessionStart` at the load time. Session counters
      are restored as saved. */
  lemma RestoreEncode(d: GameData, t: int, now: int)
    ensures Restore(Encode(d, t), now) == d.(stats := d.stats.(lastSave := t, sessionStart := now))
  {
  }

  /** The full round trip through storage: the challenge survives when it
      was issued today and is replaced, progress cleared, otherwise. */
  lemma RoundTrip(d: GameData, t: int, now: int, today: string, pick: nat)
    requires pick < |DailyChallenges()|
    ensures var back := d.(stats := d.stats.(lastSave := t, sessionStart := now));
            var r := Decode(Readable(Encode(d, t)), now, today, pick);
            (d.dailyChallenge.Some? && d.dailyChallenge.value.startDate == today ==> r.data == back)
            && (d.dailyChallenge.None? || d.dailyChallenge.value.startDate != today ==>
                  r.data == back.(dailyChallenge := Some(Issue(pick, today)), progress := NoProgress()))
  {
    RestoreEncode(d, t, now);
  }

  /** The offline credit of a reloaded save is computed from the saved
      state's own production. */
  lemma OfflineOfEncode(d: GameData, t: int, now: int)
    ensures Offline(Encode(d, t), now).Some? <==>
              t != 0 && now - t > 60000 && OfflineEarnings(Cps(d), now - t) > 0.0
    ensures Offline(Encode(d, t), now).Some? ==>
              Offline(Encode(d, t), now).value == OfflineCredit(now - t, OfflineEarnings(Cps(d), now - t))
  {
  }

  function EmptyRecord(): SaveRecord {
    SaveRecord(None, None, None, None, None, None, None, None, None, None, None, None)
  }

  /** A save with no fields at all loads exactly like no save. */
  lemma EmptySaveIsNewGame(now: int, today: string, pick: nat)
    requires pick < |DailyChallenges()|
    ensures Decode(Readable(EmptyRecord()), now, today, pick) == Decode(NoSave, now, today, pick)
  {
    assert Restore(EmptyRecord(), now) == FreshGame(now);
  }

  /** A save whose present fields all satisfy the state invariant. */
  predicate SaveOk(s: SaveRecord) {
    && (s.currency.Some? ==> s.currency.value >= 0.0)
    && (s.generators.Some? ==> GeneratorsOk(s.generators.value))
    && (s.upgrades.Some? ==> UpgradesOk(s.upgrades.value) && Distinct(UpgradeIds(s.upgrades.value)))
    && (s.achievements.Some? ==> Distinct(s.achievements.value))
    && (s.explored.Some? ==> Distinct(s.explored.value))
    && (s.stats.Some? ==> StatsOk(s.stats.value))
    && (s.challengeProgress.Some? ==> s.challengeProgress.value.earn >= 0.0)
    && (s.dailyChallenge.Some? ==> s.dailyChallenge.value.challenge.reward >= 0.0)
  }

  predicate StatsOk(ss: SavedStats) {
    && (ss.totalEarned.Some? ==> ss.totalEarned.value >= 0.0)
    && (ss.totalSpent.Some? ==> ss.totalSpent.value >= 0.0)
    && (ss.sessionEarned.Some? ==> ss.sessionEarned.value >= 0.0)
  }

  /** Saving a well-formed state yields a well-formed save. */
  lemma EncodeOk(d: GameData, t: int)
    requires WellFormed(d)
    ensures SaveOk(Encode(d, t))
  {
  }

  /** Every load of a well-formed save (or of none) gives a well-formed
      state, and a pending credit is always positive. */
  lemma DecodeWellFormed(stored: StoredSave, now: int, today: string, pick: nat)
    requires pick < |DailyChallenges()|
    requires stored.Readable? ==> SaveOk(stored.record)
    ensures WellFormed(Decode(stored, now, today, pick).data)
    ensures Decode(stored, now, today, pick).offline.Some? ==> Decode(stored, now, today, pick).offline.value.earnings > 0.0
  {
    FreshGameWellFormed(now);
  }
}
