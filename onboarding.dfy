/** The onboarding wizard (components/OnboardingForm.tsx): seven steps, each
    editing one field of the form data, advanced only while the current
    field is valid, and submitted from the last step. */
module Onboarding {
  import opened Types
  import opened Profile

  /** The characters `String.prototype.trim` removes: ECMAScript WhiteSpace
      and LineTerminator. */
  predicate IsJsSpace(c: char) {
    ('\U{9}' <= c <= '\U{D}') || c == '\U{20}' || c == '\U{A0}' || c == '\U{1680}' ||
    ('\U{2000}' <= c <= '\U{200A}') || c == '\U{2028}' || c == '\U{2029}' ||
    c == '\U{202F}' || c == '\U{205F}' || c == '\U{3000}' || c == '\U{FEFF}'
  }

  /** The string without its leading white space. */
  function TrimStart(s: string): string
    decreases |s|
  {
    if s == [] || !IsJsSpace(s[0]) then s else TrimStart(s[1..])
  }

  /** The string without its trailing white space. */
  function TrimEnd(s: string): string
    decreases |s|
  {
    if s == [] || !IsJsSpace(s[|s| - 1]) then s else TrimEnd(s[..|s| - 1])
  }

  /** `TrimStart` drops a run of white space from the front and stops at the
      first other character. */
  lemma {:induction false} TrimStartSpec(s: string)
    ensures var r := TrimStart(s);
      && |r| <= |s| && r == s[|s| - |r|..]
      && (forall i :: 0 <= i < |s| - |r| ==> IsJsSpace(s[i]))
      && (r != [] ==> !IsJsSpace(r[0]))
    decreases |s|
  {
    if s != [] && IsJsSpace(s[0]) {
      TrimStartSpec(s[1..]);
      var r := TrimStart(s[1..]);
      assert TrimStart(s) == r;
      assert s[1..][|s[1..]| - |r|..] == s[|s| - |r|..];
      assert forall i :: 1 <= i < |s| - |r| ==> s[i] == s[1..][i - 1];
    }
  }

  /** `TrimEnd` drops a run of white space from the back and stops at the
      last other character. */
  lemma {:induction false} TrimEndSpec(s: string)
    ensures var r := TrimEnd(s);
      && |r| <= |s| && r == s[..|r|]
      && (forall i :: |r| <= i < |s| ==> IsJsSpace(s[i]))
      && (r != [] ==> !IsJsSpace(r[|r| - 1]))
    decreases |s|
  {
    if s != [] && IsJsSpace(s[|s| - 1]) {
      TrimEndSpec(s[..|s| - 1]);
      var r := TrimEnd(s[..|s| - 1]);
      assert TrimEnd(s) == r;
      assert s[..|s| - 1][..|r|] == s[..|r|];
      assert forall i :: |r| <= i < |s| - 1 ==> s[i] == s[..|s| - 1][i];
    }
  }

  /** `s.trim()`. */
  function Trim(s: string): string {
    TrimEnd(TrimStart(s))
  }

  /** Trimming never lengthens a string. */
  lemma TrimmedIsShorter(s: string)
    ensures |Trim(s)| <= |s|
  {
    TrimStartSpec(s);
    TrimEndSpec(TrimStart(s));
  }

  /** A string trims to the empty string exactly when it is all white space. */
  lemma TrimBlank(s: string)
    ensures Trim(s) == "" <==> forall i :: 0 <= i < |s| ==> IsJsSpace(s[i])
  {
    var t := TrimStart(s);
    TrimStartSpec(s);
    TrimEndSpec(t);
    if t != [] {
      assert t[0] == s[|s| - |t|];
    }
    if Trim(s) == "" {
      assert t == [];
    }
  }

  /** The form fields, one per step. */
  datatype FieldKey = NameKey | GenderKey | AgeKey | HeightKey | WeightKey | GoalKey | DifficultyKey

  datatype InputKind = TextInput | SelectInput | NumberInput | DifficultyInput

  /** A field's runtime value: a string (a difficulty is its string value) or a number. */
  datatype FieldValue = Text(s: string) | Num(n: Number)

  datatype FormData = FormData(
    name: string,
    age: Number,
    height: Number,
    weight: Number,
    gender: string,
    dailyGoal: string,
    difficulty: Difficulty)

  /** The form data before any input (components/OnboardingForm.tsx:10-18). */
  const InitialForm: FormData :=
    FormData("", Finite(24.0), Finite(175.0), Finite(75.0), "Masculino", "Ganho de Massa", Normal)

  /** One step: the field it edits, how it is edited, and the choices of a select. */
  datatype Step = Step(key: FieldKey, kind: InputKind, options: seq<string>)

  /** The seven steps (components/OnboardingForm.tsx:22-35); labels and placeholders are display text. */
  const Steps: seq<Step> := [
    Step(NameKey, TextInput, []),
    Step(GenderKey, SelectInput, ["Masculino", "Feminino", "Outro"]),
    Step(AgeKey, NumberInput, []),
    Step(HeightKey, NumberInput, []),
    Step(WeightKey, NumberInput, []),
    Step(GoalKey, SelectInput, ["Perda de Peso", "Ganho de Massa", "Resistência", "Definição"]),
    // The difficulty buttons offer the Difficulty members themselves; ChooseDifficulty takes one.
    Step(DifficultyKey, DifficultyInput, [])
  ]

  const LastStep: nat := |Steps| - 1

  /** `(formData as any)[key]`. */
  function Field(fd: FormData, key: FieldKey): FieldValue {
    match key
    case NameKey => Text(fd.name)
    case GenderKey => Text(fd.gender)
    case AgeKey => Num(fd.age)
    case HeightKey => Num(fd.height)
    case WeightKey => Num(fd.weight)
    case GoalKey => Text(fd.dailyGoal)
    case DifficultyKey => Text(DifficultyLabel(fd.difficulty))
  }

  predicate IsTextKey(key: FieldKey) {
    key == NameKey || key == GenderKey || key == GoalKey
  }

  predicate IsNumberKey(key: FieldKey) {
    key == AgeKey || key == HeightKey || key == WeightKey
  }

  /** `{...formData, [key]: s}` for a string field. */
  function WithText(fd: FormData, key: FieldKey, s: string): FormData
    requires IsTextKey(key)
  {
    match key
    case NameKey => fd.(name := s)
    case GenderKey => fd.(gender := s)
    case GoalKey => fd.(dailyGoal := s)
  }

  /** `{...formData, [key]: n}` for a numeric field. */
  function WithNumber(fd: FormData, key: FieldKey, n: Number): FormData
    requires IsNumberKey(key)
  {
    match key
    case AgeKey => fd.(age := n)
    case HeightKey => fd.(height := n)
    case WeightKey => fd.(weight := n)
  }

  /** Writing a field sets that key and leaves every other key as it was. */
  lemma WriteOnlyTouchesKey(fd: FormData, key: FieldKey, other: FieldKey, s: string, n: Number, d: Difficulty)
    requires other != key
    ensures IsTextKey(key) ==> Field(WithText(fd, key, s), key) == Text(s) &&
                               Field(WithText(fd, key, s), other) == Field(fd, other)
    ensures IsNumberKey(key) ==> Field(WithNumber(fd, key, n), key) == Num(n) &&
                                 Field(WithNumber(fd, key, n), other) == Field(fd, other)
    ensures key == DifficultyKey ==> Field(fd.(difficulty := d), key) == Text(DifficultyLabel(d)) &&
                                     Field(fd.(difficulty := d), other) == Field(fd, other)
  {
  }

  /** JavaScript `n <= 0`. */
  predicate AtMostZero(n: Number) {
    match n
    case NaN => false
    case Infinity(positive) => !positive
    case Finite(v) => v <= 0.0
  }

  /** validateCurrentStep on a value (components/OnboardingForm.tsx:40-42). */
  predicate ValueValid(v: FieldValue) {
    match v
    case Text(s) => Trim(s) != ""
    case Num(n) => !(n.NaN? || AtMostZero(n))
  }

  /** A string is valid exactly when it has a character that is not white space. */
  lemma TextValidity(s: string)
    ensures ValueValid(Text(s)) <==> exists i :: 0 <= i < |s| && !IsJsSpace(s[i])
  {
    TrimBlank(s);
  }

  /** A number is invalid exactly when it is NaN or at most 0: the valid ones
      are the positive reals and positive infinity. */
  lemma NumberValidity(n: Number)
    ensures ValueValid(Num(n)) <==> n == Infinity(true) || (n.Finite? && n.value > 0.0)
  {
  }

  /** validateCurrentStep at a step. */
  predicate StepValid(fd: FormData, step: nat)
    requires step < |Steps|
  {
    ValueValid(Field(fd, Steps[step].key))
  }

  predicate AllStepsValid(fd: FormData) {
    forall i :: 0 <= i < |Steps| ==> StepValid(fd, i)
  }

  /** The first `n` steps all hold a valid value, checked one step at a time. */
  predicate ValidUpTo(fd: FormData, n: nat)
    requires n <= |Steps|
  {
    n == 0 || (ValidUpTo(fd, n - 1) && StepValid(fd, n - 1))
  }

  /** The step-by-step check agrees with checking every step below `n`. */
  lemma {:induction false} ValidUpToAll(fd: FormData, n: nat)
    requires n <= |Steps|
    ensures ValidUpTo(fd, n) <==> forall i :: 0 <= i < n ==> StepValid(fd, i)
  {
    if n > 0 {
      ValidUpToAll(fd, n - 1);
    }
  }

  /** Changing only fields that no step below `n` edits keeps those steps valid. */
  lemma {:induction false} ValidUpToKept(fd: FormData, fd': FormData, n: nat)
    requires n <= |Steps|
    requires forall i :: 0 <= i < n ==> Field(fd', Steps[i].key) == Field(fd, Steps[i].key)
    requires ValidUpTo(fd, n)
    ensures ValidUpTo(fd', n)
  {
    if n > 0 {
      ValidUpToKept(fd, fd', n - 1);
    }
  }

  /** Every difficulty is a non-blank string, so the last step is always valid. */
  lemma DifficultyStepValid(fd: FormData)
    ensures StepValid(fd, LastStep)
  {
    var text := DifficultyLabel(fd.difficulty);
    assert text != [] && !IsJsSpace(text[0]);
    TrimBlank(text);
  }

  /** Each step edits its own field. */
  lemma StepKeysDistinct()
    ensures forall i, j :: 0 <= i < j < |Steps| ==> Steps[i].key != Steps[j].key
  {
  }

  /** Editing the field of the current step keeps every earlier step valid. */
  lemma TextEditKeepsPassed(fd: FormData, step: nat, s: string)
    requires step < |Steps| && IsTextKey(Steps[step].key) && ValidUpTo(fd, step)
    ensures ValidUpTo(WithText(fd, Steps[step].key, s), step)
  {
    StepKeysDistinct();
    ValidUpToKept(fd, WithText(fd, Steps[step].key, s), step);
  }

  lemma NumberEditKeepsPassed(fd: FormData, step: nat, n: Number)
    requires step < |Steps| && IsNumberKey(Steps[step].key) && ValidUpTo(fd, step)
    ensures ValidUpTo(WithNumber(fd, Steps[step].key, n), step)
  {
    StepKeysDistinct();
    ValidUpToKept(fd, WithNumber(fd, Steps[step].key, n), step);
  }

  lemma DifficultyEditKeepsPassed(fd: FormData, step: nat, d: Difficulty)
    requires step < |Steps| && Steps[step].key == DifficultyKey && ValidUpTo(fd, step)
    ensures ValidUpTo(fd.(difficulty := d), step)
  {
    StepKeysDistinct();
    ValidUpToKept(fd, fd.(difficulty := d), step);
  }

  /** The data handed to handleAwaken: the seven fields; no martial art is chosen here. */
  function FromForm(fd: FormData): PartialProfile {
    PartialProfile(Some(fd.name), Some(fd.age), Some(fd.height), Some(fd.weight),
                   Some(fd.gender), Some(fd.dailyGoal), Some(fd.difficulty), None)
  }

  /** A fully valid form becomes a profile with exactly its name, age,
      height, weight and difficulty, and with no martial art; gender and
      goal keep their value unless empty. */
  lemma SubmittedProfile(fd: FormData)
    requires AllStepsValid(fd)
    ensures var u := Awakened(FromForm(fd));
      && u.name == fd.name && u.age == fd.age && u.height == fd.height && u.weight == fd.weight
      && u.gender == (if fd.gender == "" then "Masculino" else fd.gender)
      && u.dailyGoal == (if fd.dailyGoal == "" then "Saúde" else fd.dailyGoal)
      && u.difficulty == fd.difficulty && u.martialArt == NoArt
  {
    ValidFormFields(fd);
  }

  /** A fully valid form has a non-empty name and truthy age, height and weight. */
  lemma ValidFormFields(fd: FormData)
    requires AllStepsValid(fd)
    ensures fd.name != "" && Truthy(fd.age) && Truthy(fd.height) && Truthy(fd.weight)
  {
    assert StepValid(fd, 0) && StepValid(fd, 2) && StepValid(fd, 3) && StepValid(fd, 4);
    TrimmedIsShorter(fd.name);
  }

  /** The wizard: the current step index and the form data. */
  class Wizard {
    var step: nat
    var formData: FormData

    /** The step stays within the steps, and every step already passed holds a valid value. */
    predicate Valid()
      reads this
    {
      step < |Steps| && ValidUpTo(formData, step)
    }

    constructor ()
      ensures Valid() && step == 0 && formData == InitialForm
    {
      step := 0;
      formData := InitialForm;
    }

    /** handleNext (components/OnboardingForm.tsx:45-51), also bound to Enter in an input (142-146). */
    method Next()
      requires Valid()
      modifies this`step
      ensures Valid()
      ensures step == if StepValid(formData, old(step)) && old(step) < LastStep then old(step) + 1 else old(step)
    {
      if StepValid(formData, step) {
        if step < |Steps| - 1 {
          step := step + 1;
        }
      }
    }

    /** handleSubmit (components/OnboardingForm.tsx:53-62): on the last step a
        valid form is handed on; on any earlier step it acts as handleNext. */
    method Submit() returns (submitted: Option<FormData>)
      requires Valid()
      modifies this`step
      ensures Valid()
      ensures old(step) == LastStep ==>
        step == old(step) && submitted == (if StepValid(formData, LastStep) then Some(formData) else None)
      ensures old(step) < LastStep ==>
        submitted == None &&
        step == if StepValid(formData, old(step)) then old(step) + 1 else old(step)
      ensures submitted.Some? ==> submitted.value == formData && AllStepsValid(submitted.value)
    {
      submitted := None;
      if step == |Steps| - 1 {
        if StepValid(formData, step) {
          ValidUpToAll(formData, |Steps|);
          submitted := Some(formData);
        }
      } else {
        Next();
      }
    }

    /** A select button (components/OnboardingForm.tsx:74): the chosen option becomes the current field. */
    method ChooseOption(opt: string)
      requires Valid()
      requires Steps[step].kind == SelectInput && opt in Steps[step].options
      modifies this`formData
      ensures Valid()
      ensures formData == WithText(old(formData), Steps[step].key, opt)
    {
      assert IsTextKey(Steps[step].key);
      TextEditKeepsPassed(formData, step, opt);
      formData := WithText(formData, Steps[step].key, opt);
    }

    /** A difficulty button (components/OnboardingForm.tsx:109). */
    method ChooseDifficulty(d: Difficulty)
      requires Valid()
      requires Steps[step].kind == DifficultyInput
      modifies this`formData
      ensures Valid()
      ensures formData == old(formData).(difficulty := d)
    {
      DifficultyEditKeepsPassed(formData, step, d);
      formData := formData.(difficulty := d);
    }

    /** Typing into the text input (components/OnboardingForm.tsx:138-141). */
    method TypeText(s: string)
      requires Valid()
      requires Steps[step].kind == TextInput
      modifies this`formData
      ensures Valid()
      ensures formData == WithText(old(formData), Steps[step].key, s)
    {
      TextEditKeepsPassed(formData, step, s);
      formData := WithText(formData, Steps[step].key, s);
    }

    /** Typing into a number input: `n` is what `parseFloat` made of the text. */
    method TypeNumber(n: Number)
      requires Valid()
      requires Steps[step].kind == NumberInput
      modifies this`formData
      ensures Valid()
      ensures formData == WithNumber(old(formData), Steps[step].key, n)
    {
      NumberEditKeepsPassed(formData, step, n);
      formData := WithNumber(formData, Steps[step].key, n);
    }
  }
}
