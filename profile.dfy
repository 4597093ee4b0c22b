/** Creating a profile at the end of onboarding (App.tsx handleAwaken) and the
    structural check applied to a saved profile when the application starts. */
module Profile {
  import opened Types

  /** The fields of `Partial<UserData>` that handleAwaken reads; a missing field is `None`. */
  datatype PartialProfile = PartialProfile(
    name: Option<string>,
    age: Option<Number>,
    height: Option<Number>,
    weight: Option<Number>,
    gender: Option<string>,
    dailyGoal: Option<string>,
    difficulty: Option<Difficulty>,
    martialArt: Option<MartialArt>)

  /** `s || fallback` for a string that may be missing: the empty string is falsy. */
  function TextOr(s: Option<string>, fallback: string): string {
    if s.Some? && s.value != "" then s.value else fallback
  }

  /** `n || fallback` for a number that may be missing: 0 and NaN are falsy. */
  function NumberOr(n: Option<Number>, fallback: real): Number {
    if n.Some? && Truthy(n.value) then n.value else Finite(fallback)
  }

  /** `e || fallback` for an enumeration member; each member is a non-empty string, so only a missing one falls back. */
  function MemberOr<T>(e: Option<T>, fallback: T): T {
    if e.Some? then e.value else fallback
  }

  const BaselineStats: UserStats := UserStats(10.0, 10.0, 10.0, 10.0, 10.0)

  /** The `{level: 1, xp: 0}` entry every art starts with. */
  const FreshArt: MartialProgress := MartialProgress(1, 0.0)

  /** The profile handleAwaken builds from the onboarding data. */
  function Awakened(data: PartialProfile): UserData {
    UserData(
      name := TextOr(data.name, "Hunter"),
      age := NumberOr(data.age, 24.0),
      height := NumberOr(data.height, 175.0),
      weight := NumberOr(data.weight, 75.0),
      gender := TextOr(data.gender, "Masculino"),
      dailyGoal := TextOr(data.dailyGoal, "Saúde"),
      difficulty := MemberOr(data.difficulty, Normal),
      level := 1,
      xp := 0.0,
      rank := E,
      stats := BaselineStats,
      isAwakened := true,
      preferredLocation := Some(Home),
      martialArt := MemberOr(data.martialArt, NoArt),
      martialProgress := UniformTable(FreshArt))
  }

  /** A new profile starts at level 1 with no experience, rank E, every stat
      at 10, the home location, and `{level: 1, xp: 0}` for every art
      including NONE. */
  lemma AwakenedStart(data: PartialProfile)
    ensures var u := Awakened(data);
      && u.level == 1 && u.xp == 0.0 && u.rank == E && u.isAwakened
      && u.stats.str == 10.0 && u.stats.agi == 10.0 && u.stats.vit == 10.0
      && u.stats.intel == 10.0 && u.stats.sen == 10.0
      && u.preferredLocation == Some(Home)
      && forall a: MartialArt :: u.martialProgress[a] == MartialProgress(1, 0.0)
  {
  }

  /** Each identity field is taken from the data when it is present and
      truthy, and otherwise defaults; the name in particular is never empty. */
  lemma AwakenedIdentity(data: PartialProfile)
    ensures var u := Awakened(data);
      && (data.name.Some? && data.name.value != "" ==> u.name == data.name.value)
      && (data.name.None? || data.name.value == "" ==> u.name == "Hunter")
      && u.name != ""
      && (data.age.Some? && Truthy(data.age.value) ==> u.age == data.age.value)
      && (data.age.None? || !Truthy(data.age.value) ==> u.age == Finite(24.0))
      && (data.height.Some? && Truthy(data.height.value) ==> u.height == data.height.value)
      && (data.height.None? || !Truthy(data.height.value) ==> u.height == Finite(175.0))
      && (data.weight.Some? && Truthy(data.weight.value) ==> u.weight == data.weight.value)
      && (data.weight.None? || !Truthy(data.weight.value) ==> u.weight == Finite(75.0))
      && (data.gender.Some? && data.gender.value != "" ==> u.gender == data.gender.value)
      && (data.gender.None? || data.gender.value == "" ==> u.gender == "Masculino")
      && (data.dailyGoal.Some? && data.dailyGoal.value != "" ==> u.dailyGoal == data.dailyGoal.value)
      && (data.dailyGoal.None? || data.dailyGoal.value == "" ==> u.dailyGoal == "Saúde")
      && Truthy(u.age) && Truthy(u.height) && Truthy(u.weight)
      && (data.difficulty.Some? ==> u.difficulty == data.difficulty.value)
      && (data.difficulty.None? ==> u.difficulty == Normal)
      && (data.martialArt.Some? ==> u.martialArt == data.martialArt.value)
      && (data.martialArt.None? ==> u.martialArt == NoArt)
  {
  }

  /** What `JSON.parse` made of the saved text, reduced to what the load check
      looks at: a record whose `name` and `stats` may be missing, and the
      rest of the profile. */
  datatype Saved =
    | Empty                                   // no saved text, or the empty string
    | Unparseable                             // JSON.parse threw
    | FalsyValue                              // the text parsed to null, false, 0 or ""
    | Record(name: Option<string>, stats: Option<UserStats>, rest: UserData)

  /** The load check: a record is accepted only when it exists with a truthy
      `name` and a `stats` object. */
  predicate Accepted(s: Saved) {
    s.Record? && s.name.Some? && s.name.value != "" && s.stats.Some?
  }

  /** The profile the application starts with: the saved record when it
      passes the check, otherwise none (onboarding starts again). */
  function Load(s: Saved): (r: Option<UserData>)
    ensures r.Some? <==> Accepted(s)
    ensures r.Some? ==> r.value.name == s.name.value && r.value.stats == s.stats.value
    ensures r.Some? ==> r.value.(name := s.rest.name, stats := s.rest.stats) == s.rest
  {
    if Accepted(s) then Some(s.rest.(name := s.name.value, stats := s.stats.value)) else None
  }

  /** The record `JSON.stringify` writes for a profile. */
  function Save(u: UserData): Saved {
    Record(Some(u.name), Some(u.stats), u)
  }

  /** A saved profile reloads as itself exactly when its name is non-empty. */
  lemma LoadSave(u: UserData)
    ensures Load(Save(u)) == Some(u) <==> u.name != ""
    ensures u.name == "" ==> Load(Save(u)) == None
  {
  }

  /** A profile just created by handleAwaken survives a restart. */
  lemma AwakenedReloads(data: PartialProfile)
    ensures Load(Save(Awakened(data))) == Some(Awakened(data))
  {
    AwakenedIdentity(data);
    LoadSave(Awakened(data));
  }
}
