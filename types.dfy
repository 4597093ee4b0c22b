/** The enumerations and records shared by the whole application (types.ts). */
module Types {

  datatype Option<T> = None | Some(value: T)

  /** A JavaScript number as far as this model needs it: `parseFloat` in the
      onboarding form can produce NaN or an infinity, and the profile keeps
      whatever the form produced. */
  datatype Number = NaN | Infinity(positive: bool) | Finite(value: real)

  /** JavaScript truthiness of a number: 0 and NaN are falsy, everything else is truthy. */
  predicate Truthy(n: Number) {
    match n
    case NaN => false
    case Infinity(_) => true
    case Finite(v) => v != 0.0
  }

  /** The hunter rank. Only E is ever assigned by the application. */
  datatype Rank = E | D | C | B | A | S

  datatype Difficulty = Easy | Normal | Hard | Hell

  datatype TrainingLocation = Home | Calisthenics | Gym

  /** The martial arts; `NoArt` is types.ts's `MartialArt.NONE` ("Nenhuma"). */
  datatype MartialArt = NoArt | Boxing | MuayThai | JiuJitsu | Karate | Mma | Capoeira

  /** The string value each Difficulty member carries at runtime. */
  function DifficultyLabel(d: Difficulty): string {
    match d
    case Easy => "Fácil"
    case Normal => "Normal"
    case Hard => "Difícil"
    case Hell => "Infernal"
  }

  /** The string value each MartialArt member carries at runtime; it is the
      name shown in a martial level-up. */
  function ArtName(a: MartialArt): string {
    match a
    case NoArt => "Nenhuma"
    case Boxing => "Boxe"
    case MuayThai => "Muay Thai"
    case JiuJitsu => "Jiu-Jitsu"
    case Karate => "Karatê"
    case Mma => "MMA"
    case Capoeira => "Capoeira"
  }

  /** The members of each enumeration in declaration order (`Object.values`). */
  const AllRanks: seq<Rank> := [E, D, C, B, A, S]
  const AllDifficulties: seq<Difficulty> := [Easy, Normal, Hard, Hell]
  const AllLocations: seq<TrainingLocation> := [Home, Calisthenics, Gym]
  const AllArts: seq<MartialArt> := [NoArt, Boxing, MuayThai, JiuJitsu, Karate, Mma, Capoeira]

  predicate Distinct<T(==)>(s: seq<T>) {
    forall i, j :: 0 <= i < j < |s| ==> s[i] != s[j]
  }

  datatype MartialProgress = MartialProgress(level: int, xp: real)

  /** `Record<MartialArt, MartialProgress>`: a map with an entry for every art, NONE included. */
  type ArtTable = m: map<MartialArt, MartialProgress> | forall a: MartialArt :: a in m
    witness UniformTable(MartialProgress(1, 0.0))

  /** The table giving every art the same progress. */
  function UniformTable(p: MartialProgress): (m: map<MartialArt, MartialProgress>)
    ensures forall a: MartialArt :: a in m && m[a] == p
  {
    ArtsListed();
    map a | a in AllArts :: p
  }

  /** The five named counters; `intel` is types.ts's `int` (a reserved word here). */
  datatype UserStats = UserStats(str: real, agi: real, vit: real, intel: real, sen: real)

  /** The profile. Every field is required except `preferredLocation`. */
  datatype UserData = UserData(
    name: string,
    age: Number,
    height: Number,
    weight: Number,
    gender: string,
    dailyGoal: string,
    difficulty: Difficulty,
    level: int,
    xp: real,
    rank: Rank,
    stats: UserStats,
    isAwakened: bool,
    preferredLocation: Option<TrainingLocation>,
    martialArt: MartialArt,
    martialProgress: ArtTable)

  /** The three quest categories types.ts declares, `'STR' | 'AGI' | 'VIT'`. */
  datatype QuestType = Strength | Agility | Vitality

  /** The string a declared category is written as in `quest.type`. */
  function Tag(t: QuestType): string {
    match t
    case Strength => "STR"
    case Agility => "AGI"
    case Vitality => "VIT"
  }

  /** A quest. `kind` is the runtime string of `type`: types.ts declares it
      as one of the three tags, but quests arrive from the content service,
      whose response schema asks only for a string, and are not checked. */
  datatype Quest = Quest(
    id: string,
    title: string,
    description: string,
    reps: string,
    sets: string,
    instructions: string,
    xpReward: real,
    completed: bool,
    kind: string,
    location: TrainingLocation)

  /** `'ALTA' | 'CRÍTICA' | 'NORMAL'`. */
  datatype Importance = High | Critical | Usual

  datatype HealthTip = HealthTip(category: string, content: string, importance: Importance)

  datatype MartialDrill = MartialDrill(title: string, description: string, reps: string, isPhysical: bool)

  lemma RanksListed()
    ensures forall r: Rank :: r in AllRanks
  {
    forall r: Rank ensures r in AllRanks {
      match r { case E => case D => case C => case B => case A => case S => }
    }
  }

  lemma DifficultiesListed()
    ensures forall d: Difficulty :: d in AllDifficulties
  {
    forall d: Difficulty ensures d in AllDifficulties {
      match d { case Easy => case Normal => case Hard => case Hell => }
    }
  }

  lemma LocationsListed()
    ensures forall l: TrainingLocation :: l in AllLocations
  {
    forall l: TrainingLocation ensures l in AllLocations {
      match l { case Home => case Calisthenics => case Gym => }
    }
  }

  lemma ArtsListed()
    ensures forall a: MartialArt :: a in AllArts
  {
    forall a: MartialArt ensures a in AllArts {
      match a {
        case NoArt => case Boxing => case MuayThai => case JiuJitsu =>
        case Karate => case Mma => case Capoeira =>
      }
    }
  }

  /** Each enumeration lists every member exactly once: Rank six, Difficulty
      four, TrainingLocation three, MartialArt seven. */
  lemma EnumSizes()
    ensures |AllRanks| == 6 && Distinct(AllRanks) && forall r: Rank :: r in AllRanks
    ensures |AllDifficulties| == 4 && Distinct(AllDifficulties) && forall d: Difficulty :: d in AllDifficulties
    ensures |AllLocations| == 3 && Distinct(AllLocations) && forall l: TrainingLocation :: l in AllLocations
    ensures |AllArts| == 7 && Distinct(AllArts) && forall a: MartialArt :: a in AllArts
  {
    RanksListed();
    DifficultiesListed();
    LocationsListed();
    ArtsListed();
  }

  /** A quest's category tag is exactly one of "STR", "AGI", "VIT", and the
      tag determines the category. */
  lemma TagIsCategory(t: QuestType, u: QuestType)
    ensures Tag(t) in {"STR", "AGI", "VIT"}
    ensures Tag(t) == Tag(u) <==> t == u
  {
  }

  /** Distinct members carry distinct string values. */
  lemma LabelsInjective(a: MartialArt, b: MartialArt, d: Difficulty, e: Difficulty)
    ensures ArtName(a) == ArtName(b) <==> a == b
    ensures DifficultyLabel(d) == DifficultyLabel(e) <==> d == e
  {
  }
}
