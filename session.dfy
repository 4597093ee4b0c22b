/** The application state App.tsx keeps in its component: the profile, the
    current quest list, the chosen location, the onboarding flag and the
    level-up window. The profile is mirrored to local storage; that copy is
    the ghost field `saved`, and the object invariant says that reloading it
    gives back the profile in memory. */
module Session {
  import opened Types
  import opened Profile
  import opened Progression
  import opened Quests

  /** The `forEach` of handleAwaken (App.tsx:78-81): `{level: 1, xp: 0}` for every art. */
  method InitialMartialProgress() returns (table: ArtTable)
    ensures forall a: MartialArt :: table[a] == MartialProgress(1, 0.0)
  {
    var m: map<MartialArt, MartialProgress> := map[];
    var i := 0;
    while i < |AllArts|
      invariant 0 <= i <= |AllArts|
      invariant forall a :: a in m <==> a in AllArts[..i]
      invariant forall a :: a in m ==> m[a] == MartialProgress(1, 0.0)
    {
      m := m[AllArts[i] := MartialProgress(1, 0.0)];
      i := i + 1;
    }
    assert AllArts[..i] == AllArts;
    ArtsListed();
    table := m;
  }

  /** The stat growth of handleGainXp (App.tsx:143-146): three independent
      tests of the category string, of which at most one can hold. */
  method GrowStats(stats: UserStats, statType: string) returns (grown: UserStats)
    ensures grown == GrowStat(stats, statType)
  {
    var statGain := StatGain;
    grown := stats;
    if statType == "STR" { grown := grown.(str := grown.str + statGain); }
    if statType == "AGI" { grown := grown.(agi := grown.agi + statGain); }
    if statType == "VIT" { grown := grown.(vit := grown.vit + statGain); }
  }

  class App {
    var userData: Option<UserData>
    var quests: seq<Quest>
    var currentLocation: Option<TrainingLocation>
    var isAwakening: bool
    var showLevelUp: bool
    var levelUp: LevelUpRecord
    /** The record held in local storage under the profile key. */
    ghost var saved: Saved

    /** A restart would reload exactly the profile in memory. */
    ghost predicate Valid()
      reads this
    {
      userData == Load(saved)
    }

    /** Start-up: the profile is whatever the saved record passes the load
        check as (App.tsx:14-25); nothing else is loaded yet. */
    constructor (stored: Saved)
      ensures Valid()
      ensures saved == stored && userData == Load(stored)
      ensures quests == [] && currentLocation == None && !isAwakening
      ensures !showLevelUp && levelUp == InitialRecord
    {
      saved := stored;
      userData := Load(stored);
      quests := [];
      currentLocation := None;
      isAwakening := false;
      showLevelUp := false;
      levelUp := InitialRecord;
    }

    /** The intro screen's start button (App.tsx:154). */
    method BeginAwakening()
      modifies this`isAwakening
      ensures isAwakening
    {
      isAwakening := true;
    }

    /** handleAwaken (App.tsx:77-105): build, store and select the new profile. */
    method Awaken(data: PartialProfile)
      requires Valid()
      modifies this`userData, this`saved, this`isAwakening, this`currentLocation
      ensures Valid()
      ensures userData == Some(Awakened(data)) && saved == Save(Awakened(data))
      ensures !isAwakening && currentLocation == Some(Home)
    {
      var progress := InitialMartialProgress();
      var newUser := UserData(
        name := TextOr(data.name, "Hunter"),
        age := NumberOr(data.age, 24.0),
        height := NumberOr(data.height, 175.0),
        weight := NumberOr(data.weight, 75.0),
        gender := TextOr(data.gender, "Masculino"),
        dailyGoal := TextOr(data.dailyGoal, "Saúde"),
        difficulty := MemberOr(data.difficulty, Normal),
        level := 1,
        xp := 0.0,
        rank := E,
        stats := UserStats(10.0, 10.0, 10.0, 10.0, 10.0),
        isAwakened := true,
        preferredLocation := Some(Home),
        martialArt := MemberOr(data.martialArt, NoArt),
        martialProgress := progress);
      assert progress == UniformTable(FreshArt);
      AwakenedReloads(data);
      userData := Some(newUser);
      saved := Save(newUser);
      isAwakening := false;
      currentLocation := newUser.preferredLocation;
    }

    /** A freshly generated quest list replaces the current one (App.tsx:55). */
    method ReceiveQuests(qs: seq<Quest>)
      modifies this`quests
      ensures quests == qs
    {
      quests := qs;
    }

    /** Choosing a training location (App.tsx:164). */
    method ChooseLocation(loc: TrainingLocation)
      modifies this`currentLocation
      ensures currentLocation == Some(loc)
    {
      currentLocation := Some(loc);
    }

    /** Closing the level-up window (App.tsx:250). */
    method DismissLevelUp()
      modifies this`showLevelUp
      ensures !showLevelUp
    {
      showLevelUp := false;
    }

    /** handleGainXp (App.tsx:115-151). Without a profile nothing happens;
        otherwise the profile becomes `Gain(...)` and is saved, and a
        level-up sets the record and opens the window. */
    method GainXp(amount: real, statType: string)
      requires Valid()
      modifies this`userData, this`saved, this`levelUp, this`showLevelUp
      ensures Valid()
      ensures old(userData).None? ==>
        userData == old(userData) && saved == old(saved) &&
        levelUp == old(levelUp) && showLevelUp == old(showLevelUp)
      ensures old(userData).Some? ==>
        userData == Some(Gain(old(userData).value, amount, statType)) && saved == Save(userData.value)
      ensures old(userData).Some? ==>
        var r := Announcement(old(userData).value, amount);
        if r.Some? then levelUp == r.value && showLevelUp
        else levelUp == old(levelUp) && showLevelUp == old(showLevelUp)
    {
      if userData.None? {
        return;
      }
      var prev := userData.value;
      var updatedUser := UpdateProfile(prev, amount, statType);
      GainKeepsIdentity(prev, amount, statType);
      LoadSave(updatedUser);
      userData := Some(updatedUser);
    }

    /** The updater handleGainXp passes to `setUserData` (App.tsx:116-150):
        it updates a copy of the previous profile track by track, sets the
        level-up record on each level-up, and saves the result. Only GainXp
        calls it, and GainXp then stores the result as the profile; on its
        own it leaves `saved` ahead of `userData`. */
    method UpdateProfile(prev: UserData, amount: real, statType: string) returns (updatedUser: UserData)
      modifies this`saved, this`levelUp, this`showLevelUp
      ensures updatedUser == Gain(prev, amount, statType) && saved == Save(updatedUser)
      ensures var r := Announcement(prev, amount);
        if r.Some? then levelUp == r.value && showLevelUp
        else levelUp == old(levelUp) && showLevelUp == old(showLevelUp)
    {
      var xp := prev.xp + amount;
      var level := prev.level;
      var xpToNextLevel := HunterThreshold(level);
      if xp >= xpToNextLevel {
        xp := xp - xpToNextLevel;
        level := level + 1;
        levelUp := LevelUpRecord(level, Hunter, "");
        showLevelUp := true;
      }
      assert MartialProgress(level, xp) == Accrue(HunterTrack(prev), amount, HunterPerLevel);
      assert (levelUp, showLevelUp) ==
        if HunterLevelsUp(prev, amount) then (LevelUpRecord(prev.level + 1, Hunter, ""), true)
        else (old(levelUp), old(showLevelUp));

      var progress := prev.martialProgress;
      if prev.martialArt != NoArt {
        var art := prev.martialArt;
        var prog := progress[art];
        prog := prog.(xp := prog.xp + amount);
        var artXpNext := ArtThreshold(prog.level);
        if prog.xp >= artXpNext {
          prog := prog.(xp := prog.xp - artXpNext, level := prog.level + 1);
          levelUp := LevelUpRecord(prog.level, Martial, ArtName(art));
          showLevelUp := true;
        }
        progress := progress[art := prog];
      }
      assert progress == AccrueTable(prev.martialArt, prev.martialProgress, amount);
      ghost var announced := Announcement(prev, amount);
      assert announced.Some? ==> levelUp == announced.value && showLevelUp;
      assert announced.None? ==> levelUp == old(levelUp) && showLevelUp == old(showLevelUp);

      var stats := GrowStats(prev.stats, statType);

      updatedUser := prev.(xp := xp, level := level, martialProgress := progress, stats := stats);
      saved := Save(updatedUser);
    }

    /** handleCompleteQuest (App.tsx:107-113). An unknown id, or one whose
        first match is already completed, changes nothing; otherwise every
        quest with the id is marked completed and the first one's reward is
        gained under its category. */
    method CompleteQuest(id: string)
      requires Valid()
      modifies this`quests, this`userData, this`saved, this`levelUp, this`showLevelUp
      ensures Valid()
      ensures Completable(old(quests), id).None? ==>
        quests == old(quests) && userData == old(userData) && saved == old(saved) &&
        levelUp == old(levelUp) && showLevelUp == old(showLevelUp)
      ensures Completable(old(quests), id).Some? ==>
        var q := Completable(old(quests), id).value;
        && quests == MarkCompleted(old(quests), id)
        && (old(userData).None? ==>
              userData == None && saved == old(saved) &&
              levelUp == old(levelUp) && showLevelUp == old(showLevelUp))
        && (old(userData).Some? ==>
              userData == Some(Gain(old(userData).value, q.xpReward, q.kind)) &&
              saved == Save(userData.value))
        && (old(userData).Some? ==>
              var r := Announcement(old(userData).value, q.xpReward);
              if r.Some? then levelUp == r.value && showLevelUp
              else levelUp == old(levelUp) && showLevelUp == old(showLevelUp))
    {
      var quest := FindQuest(quests, id);
      if quest.None? || quest.value.completed {
        return;
      }
      quests := MarkCompleted(quests, id);
      GainXp(quest.value.xpReward, quest.value.kind);
    }
  }
}
