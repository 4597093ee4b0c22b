/** Applying one completion to a profile (App.tsx handleGainXp): hunter
    experience, the selected martial art's experience, one stat, and the
    level-up record shown to the user.

    Each track levels up at most once per call: handleGainXp tests each
    threshold with a single `if`, not a loop, so one large gain can leave the
    experience at or above the next threshold. The rank is never recomputed. */
module Progression {
  import opened Types

  /** Experience per level on the hunter track and on a martial track. */
  const HunterPerLevel: int := 100
  const ArtPerLevel: int := 80

  /** Experience needed to leave `level` on a track with `perLevel` per level. */
  function Threshold(level: int, perLevel: int): real {
    (level * perLevel) as real
  }

  function HunterThreshold(level: int): real {
    Threshold(level, HunterPerLevel)
  }

  function ArtThreshold(level: int): real {
    Threshold(level, ArtPerLevel)
  }

  /** The amount added to one stat per completion. */
  const StatGain: real := 0.5

  /** One track's accrual, a single threshold test (App.tsx:120-124 for the
      hunter, 132-136 for an art): the amount is added, and when the sum
      reaches the threshold it is subtracted once and the level rises. */
  function Accrue(p: MartialProgress, amount: real, perLevel: int): MartialProgress {
    var xp := p.xp + amount;
    var next := Threshold(p.level, perLevel);
    if xp >= next then MartialProgress(p.level + 1, xp - next) else MartialProgress(p.level, xp)
  }

  /** The hunter level and experience as a track. */
  function HunterTrack(u: UserData): MartialProgress {
    MartialProgress(u.level, u.xp)
  }

  /** Martial accrual, only when an art is selected (App.tsx:129-141). */
  function AccrueTable(art: MartialArt, table: ArtTable, amount: real): ArtTable {
    if art == NoArt then table else table[art := Accrue(table[art], amount, ArtPerLevel)]
  }

  /** Stat growth by category string (App.tsx:143-146). */
  function GrowStat(s: UserStats, statType: string): UserStats {
    if statType == "STR" then s.(str := s.str + StatGain)
    else if statType == "AGI" then s.(agi := s.agi + StatGain)
    else if statType == "VIT" then s.(vit := s.vit + StatGain)
    else s
  }

  /** The profile after one call of handleGainXp. */
  function Gain(u: UserData, amount: real, statType: string): UserData {
    var hunter := Accrue(HunterTrack(u), amount, HunterPerLevel);
    u.(level := hunter.level, xp := hunter.xp,
       martialProgress := AccrueTable(u.martialArt, u.martialProgress, amount),
       stats := GrowStat(u.stats, statType))
  }

  predicate HunterLevelsUp(u: UserData, amount: real) {
    u.xp + amount >= HunterThreshold(u.level)
  }

  predicate ArtLevelsUp(u: UserData, amount: real) {
    u.martialArt != NoArt &&
    u.martialProgress[u.martialArt].xp + amount >= ArtThreshold(u.martialProgress[u.martialArt].level)
  }

  datatype Track = Hunter | Martial

  /** What the level-up window shows: the new level, the track and the art's name. */
  datatype LevelUpRecord = LevelUpRecord(level: int, track: Track, name: string)

  /** The record before any level-up (App.tsx:35). */
  const InitialRecord: LevelUpRecord := LevelUpRecord(1, Hunter, "")

  /** The record a call leaves behind, if it sets one. The martial level-up
      is set after the hunter one, so it wins when both happen. */
  function Announcement(u: UserData, amount: real): Option<LevelUpRecord> {
    if ArtLevelsUp(u, amount) then
      Some(LevelUpRecord(u.martialProgress[u.martialArt].level + 1, Martial, ArtName(u.martialArt)))
    else if HunterLevelsUp(u, amount) then
      Some(LevelUpRecord(u.level + 1, Hunter, ""))
    else None
  }

  /** The fields a gain never writes. */
  predicate SameIdentity(u: UserData, v: UserData) {
    && v.name == u.name && v.age == u.age && v.height == u.height && v.weight == u.weight
    && v.gender == u.gender && v.dailyGoal == u.dailyGoal && v.difficulty == u.difficulty
    && v.rank == u.rank && v.isAwakened == u.isAwakened
    && v.preferredLocation == u.preferredLocation && v.martialArt == u.martialArt
  }

  /** Hunter experience: the amount is added; when the sum reaches
      `level * 100` that threshold is subtracted once and the level rises by
      one, otherwise the level stays. The level never rises by more than one. */
  lemma HunterAccrual(u: UserData, amount: real, statType: string)
    ensures var v := Gain(u, amount, statType);
      && (u.xp + amount >= (u.level * 100) as real ==>
            v.xp == u.xp + amount - (u.level * 100) as real && v.level == u.level + 1)
      && (u.xp + amount < (u.level * 100) as real ==>
            v.xp == u.xp + amount && v.level == u.level)
      && u.level <= v.level <= u.level + 1
  {
  }

  /** Martial experience: with no art selected the table is unchanged;
      otherwise the same amount goes to the selected art, which levels up at
      most once against `level * 80`, and every other art keeps its entry. */
  lemma MartialAccrual(u: UserData, amount: real, statType: string)
    ensures var v := Gain(u, amount, statType);
      && (u.martialArt == NoArt ==> v.martialProgress == u.martialProgress)
      && (u.martialArt != NoArt ==>
            var p, q := u.martialProgress[u.martialArt], v.martialProgress[u.martialArt];
            && (p.xp + amount >= (p.level * 80) as real ==>
                  q.xp == p.xp + amount - (p.level * 80) as real && q.level == p.level + 1)
            && (p.xp + amount < (p.level * 80) as real ==>
                  q.xp == p.xp + amount && q.level == p.level))
      && forall b: MartialArt :: b != u.martialArt ==> v.martialProgress[b] == u.martialProgress[b]
  {
  }

  /** Stats: "STR", "AGI" and "VIT" add exactly 0.5 to str, agi and vit;
      any other string changes no stat; int and sen never change. */
  lemma StatGrowth(u: UserData, amount: real, statType: string)
    ensures var s, t := u.stats, Gain(u, amount, statType).stats;
      && t.str == s.str + (if statType == "STR" then 0.5 else 0.0)
      && t.agi == s.agi + (if statType == "AGI" then 0.5 else 0.0)
      && t.vit == s.vit + (if statType == "VIT" then 0.5 else 0.0)
      && t.intel == s.intel && t.sen == s.sen
  {
  }

  /** A gain changes only level, xp, stats and the martial table; the rank in
      particular is never touched. */
  lemma GainKeepsIdentity(u: UserData, amount: real, statType: string)
    ensures SameIdentity(u, Gain(u, amount, statType))
  {
  }

  /** The level-up record: a martial level-up shows the art's new level and
      name (and overwrites a hunter level-up of the same call); a hunter
      level-up alone shows the new hunter level with an empty name; without a
      level-up nothing is set. */
  lemma AnnouncementCases(u: UserData, amount: real, statType: string)
    ensures var v, r := Gain(u, amount, statType), Announcement(u, amount);
      && (r.None? <==> v.level == u.level && v.martialProgress[u.martialArt].level == u.martialProgress[u.martialArt].level)
      && (ArtLevelsUp(u, amount) ==>
            r == Some(LevelUpRecord(v.martialProgress[u.martialArt].level, Martial, ArtName(u.martialArt))))
      && (!ArtLevelsUp(u, amount) && HunterLevelsUp(u, amount) ==>
            r == Some(LevelUpRecord(v.level, Hunter, "")))
  {
  }

  /** Hunter experience spent on reaching `level` from level 1. */
  function HunterBanked(level: int): real {
    50.0 * (level as real) * ((level - 1) as real)
  }

  /** Martial experience spent on reaching `level` from level 1. */
  function ArtBanked(level: int): real {
    40.0 * (level as real) * ((level - 1) as real)
  }

  /** All hunter experience ever received: what was spent on levels plus what is held. */
  function HunterLifetime(u: UserData): real {
    HunterBanked(u.level) + u.xp
  }

  function ArtLifetime(p: MartialProgress): real {
    ArtBanked(p.level) + p.xp
  }

  /** Leaving a level costs exactly that level's threshold. */
  lemma BankedStep(level: int)
    ensures HunterBanked(level + 1) == HunterBanked(level) + HunterThreshold(level)
    ensures ArtBanked(level + 1) == ArtBanked(level) + ArtThreshold(level)
  {
    var L := level as real;
    assert (level + 1) as real == L + 1.0;
    assert ((level + 1) - 1) as real == L;
    assert (level - 1) as real == L - 1.0;
    assert (level * 100) as real == 100.0 * L;
    assert (level * 80) as real == 80.0 * L;
  }

  /** Experience is never lost: a level-up converts exactly the threshold into a level. */
  lemma GainConservesXp(u: UserData, amount: real, statType: string)
    ensures HunterLifetime(Gain(u, amount, statType)) == HunterLifetime(u) + amount
    ensures u.martialArt != NoArt ==>
      ArtLifetime(Gain(u, amount, statType).martialProgress[u.martialArt]) ==
      ArtLifetime(u.martialProgress[u.martialArt]) + amount
  {
    BankedStep(u.level);
    if u.martialArt != NoArt {
      BankedStep(u.martialProgress[u.martialArt].level);
    }
  }

  /** `0 <= xp < level * 100` survives a gain that is not larger than the next
      threshold; beyond that, one call cannot absorb the gain. */
  lemma GainKeepsBelowThreshold(u: UserData, amount: real, statType: string)
    requires 0.0 <= u.xp < HunterThreshold(u.level)
    requires 0.0 <= amount <= HunterThreshold(u.level + 1)
    ensures var v := Gain(u, amount, statType); 0.0 <= v.xp < HunterThreshold(v.level)
  {
  }

  /** A fresh level-1 profile gaining 500 ends at level 2 with 400 experience,
      already past the level-2 threshold of 200: one call, one level-up. */
  lemma OneLevelPerCall(u: UserData, statType: string)
    requires u.level == 1 && u.xp == 0.0
    ensures var v := Gain(u, 500.0, statType);
      v.level == 2 && v.xp == 400.0 && v.xp >= HunterThreshold(v.level)
  {
  }

  /** A fresh level-1 profile gaining 250 ends at level 2 with 150 experience. */
  lemma FreshGainOf250(u: UserData, statType: string)
    requires u.level == 1 && u.xp == 0.0
    ensures Gain(u, 250.0, statType).level == 2 && Gain(u, 250.0, statType).xp == 150.0
  {
  }

  /** One completion as handleGainXp receives it. */
  datatype Completion = Completion(amount: real, statType: string)

  /** The profile after a series of handleGainXp calls, in order. */
  function ApplyGains(u: UserData, cs: seq<Completion>): UserData
    decreases |cs|
  {
    if cs == [] then u else ApplyGains(Gain(u, cs[0].amount, cs[0].statType), cs[1..])
  }

  function TotalAmount(cs: seq<Completion>): real
    decreases |cs|
  {
    if cs == [] then 0.0 else cs[0].amount + TotalAmount(cs[1..])
  }

  /** How many of the completions carry exactly this category string. */
  function CountTag(cs: seq<Completion>, tag: string): nat
    decreases |cs|
  {
    if cs == [] then 0 else (if cs[0].statType == tag then 1 else 0) + CountTag(cs[1..], tag)
  }

  /** However many gains, the identity fields and the rank stay as they were. */
  lemma {:induction false} GainsKeepIdentity(u: UserData, cs: seq<Completion>)
    ensures SameIdentity(u, ApplyGains(u, cs))
    decreases |cs|
  {
    if cs != [] {
      var next := Gain(u, cs[0].amount, cs[0].statType);
      GainKeepsIdentity(u, cs[0].amount, cs[0].statType);
      GainsKeepIdentity(next, cs[1..]);
    }
  }

  /** n gains raise the hunter level by at most n, and never lower it. */
  lemma {:induction false} GainsLevelBound(u: UserData, cs: seq<Completion>)
    ensures u.level <= ApplyGains(u, cs).level <= u.level + |cs|
    decreases |cs|
  {
    if cs != [] {
      HunterAccrual(u, cs[0].amount, cs[0].statType);
      GainsLevelBound(Gain(u, cs[0].amount, cs[0].statType), cs[1..]);
    }
  }

  /** Over any series of gains, hunter experience and the selected art's
      experience are conserved: what was received equals what was spent on
      levels plus what is held. */
  lemma {:induction false} GainsConserveXp(u: UserData, cs: seq<Completion>)
    ensures HunterLifetime(ApplyGains(u, cs)) == HunterLifetime(u) + TotalAmount(cs)
    ensures u.martialArt != NoArt ==>
      ArtLifetime(ApplyGains(u, cs).martialProgress[u.martialArt]) ==
      ArtLifetime(u.martialProgress[u.martialArt]) + TotalAmount(cs)
    decreases |cs|
  {
    if cs != [] {
      var next := Gain(u, cs[0].amount, cs[0].statType);
      GainConservesXp(u, cs[0].amount, cs[0].statType);
      GainKeepsIdentity(u, cs[0].amount, cs[0].statType);
      GainsConserveXp(next, cs[1..]);
    }
  }

  /** Over any series of gains, str, agi and vit grow by 0.5 per completion of
      their category and int and sen stay put. */
  lemma {:induction false} GainsStatGrowth(u: UserData, cs: seq<Completion>)
    ensures var s, t := u.stats, ApplyGains(u, cs).stats;
      && t.str == s.str + 0.5 * CountTag(cs, "STR") as real
      && t.agi == s.agi + 0.5 * CountTag(cs, "AGI") as real
      && t.vit == s.vit + 0.5 * CountTag(cs, "VIT") as real
      && t.intel == s.intel && t.sen == s.sen
    decreases |cs|
  {
    if cs != [] {
      StatGrowth(u, cs[0].amount, cs[0].statType);
      GainsStatGrowth(Gain(u, cs[0].amount, cs[0].statType), cs[1..]);
    }
  }

  /** Over any series of gains, every art other than the selected one keeps
      its entry; with no art selected the whole table is unchanged. */
  lemma {:induction false} GainsKeepOtherArts(u: UserData, cs: seq<Completion>)
    ensures forall b: MartialArt :: b != u.martialArt ==>
      ApplyGains(u, cs).martialProgress[b] == u.martialProgress[b]
    ensures u.martialArt == NoArt ==> ApplyGains(u, cs).martialProgress == u.martialProgress
    decreases |cs|
  {
    if cs != [] {
      var next := Gain(u, cs[0].amount, cs[0].statType);
      MartialAccrual(u, cs[0].amount, cs[0].statType);
      GainKeepsIdentity(u, cs[0].amount, cs[0].statType);
      GainsKeepOtherArts(next, cs[1..]);
    }
  }

  predicate NonNegativeAmounts(cs: seq<Completion>) {
    forall i :: 0 <= i < |cs| ==> cs[i].amount >= 0.0
  }

  /** With non-negative rewards, hunter and martial experience never go negative. */
  lemma {:induction false} GainsKeepXpNonNegative(u: UserData, cs: seq<Completion>)
    requires NonNegativeAmounts(cs)
    requires u.xp >= 0.0 && u.level >= 1
    requires forall a: MartialArt :: u.martialProgress[a].xp >= 0.0 && u.martialProgress[a].level >= 1
    ensures var v := ApplyGains(u, cs);
      && v.xp >= 0.0 && v.level >= 1
      && forall a: MartialArt :: v.martialProgress[a].xp >= 0.0 && v.martialProgress[a].level >= 1
    decreases |cs|
  {
    if cs != [] {
      var next := Gain(u, cs[0].amount, cs[0].statType);
      HunterAccrual(u, cs[0].amount, cs[0].statType);
      MartialAccrual(u, cs[0].amount, cs[0].statType);
      assert NonNegativeAmounts(cs[1..]) by {
        forall i | 0 <= i < |cs[1..]| ensures cs[1..][i].amount >= 0.0 {
          assert cs[1..][i] == cs[i + 1];
        }
      }
      GainsKeepXpNonNegative(next, cs[1..]);
    }
  }
}
