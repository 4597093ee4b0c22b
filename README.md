# Hunter progression and onboarding, in Dafny

This project models the logic of a gamified fitness front end in the style of
"Solo Leveling". A user is onboarded through a seven-step wizard, "awakens" as
a level-1 hunter, and completes daily quests. Each completion feeds experience
into two tracks:

- the hunter level, with threshold `level * 100`;
- the level of the selected martial art, with threshold `level * 80`.

A completion also adds 0.5 to one physical stat.

The model follows the repository's own structure:

| module | file | models |
|---|---|---|
| `Types` | `types.dfy` | `types.ts`: the enums and records as datatypes. `martialProgress` is the subset type `ArtTable`, a map defined for all seven arts, `NONE` included. `preferredLocation` is the only optional field (`Option`). `int` is renamed `intel` and `Quest.type` is renamed `kind`, because both words are reserved in Dafny. `kind` is a `string`: the three tags are what types.ts declares, but quests arrive unchecked from the content service, so the model lets any string through. |
| `Profile` | `profile.dfy` | `handleAwaken` as the function `Awakened`; the load check on the saved profile as `Load`, over an abstract parsed record `Saved`. |
| `Progression` | `progression.dfy` | `handleGainXp` as the pure function `Gain`, with lemmas about one call and about any sequence of calls. |
| `Quests` | `quests.dfy` | The `find` and `map` of `handleCompleteQuest`. |
| `Session` | `session.dfy` | The `App` component's state as a class. The localStorage copy of the profile is the ghost field `saved`. The class invariant `Valid()` says that reloading `saved` gives back the profile in memory. `Awaken`, `GainXp` and `CompleteQuest` are imperative methods, each proved equal to the functions above. |
| `Onboarding` | `onboarding.dfy` | `OnboardingForm`: JavaScript `trim`, `validateCurrentStep`, and the `Wizard` class with `step` and `formData`. The wizard's invariant is that `step` is one of the seven steps and every step already passed holds a valid value. |

JavaScript numbers that come from the form (age, height, weight) are
`Number = NaN | Infinity(positive) | Finite(real)`, because `parseFloat` yields
`NaN` on bad input. Experience and stats are exact `real`s and levels are
`int`s.

Three features of the code shape the progression rules:

- Each track has a single `if` per call (App.tsx:122, 134). One large gain
  raises a level at most once and can leave `xp >= level * 100`.
  `OneLevelPerCall` exhibits this: a fresh profile gaining 500 ends at level 2
  with 400 experience. A smaller example is `FreshGainOf250`: a fresh profile
  gaining 250 ends at level 2 with 150 experience.
- Rank is only ever assigned once, to `E`, when the profile is created
  (App.tsx:93). No gain touches it (`GainKeepsIdentity`).
- The code has no content cache, no retry or backoff, and no gateway around
  the content service, so none is modelled.

Onboarding never sets a martial art, so every profile created through the
form has `martialArt == NONE` (`SubmittedProfile`). The martial track of
`handleGainXp` therefore only runs for a profile whose saved record already
names an art.

## Model

| member | source | states |
|---|---|---|
| Types.UniformTable | types.ts:62 | The table maps every one of the seven arts to the same entry, so a value of the total map type can be built. |
| Types.RanksListed | types.ts:2-9 | Every Rank value appears in the list of ranks. |
| Types.DifficultiesListed | types.ts:11-16 | Every Difficulty value appears in the list of difficulties. |
| Types.LocationsListed | types.ts:18-22 | Every TrainingLocation value appears in the list of locations. |
| Types.ArtsListed | types.ts:24-32 | Every MartialArt value, NONE included, appears in the list of arts. |
| Types.EnumSizes | types.ts:2-32 | Rank has exactly six values, Difficulty four, TrainingLocation three and MartialArt seven; each list has no repeats and misses no value. |
| Types.TagIsCategory | types.ts:74 | Each declared category's string is one of "STR", "AGI", "VIT", and distinct categories have distinct strings. |
| Types.LabelsInjective | types.ts:11-32 | Distinct arts, and distinct difficulties, have distinct string values. |
| Profile.Awakened | App.tsx:77-99 | The profile handleAwaken builds; its contents are stated by AwakenedStart and AwakenedIdentity. |
| Profile.Accepted | App.tsx:20 | The load check's test `parsed && parsed.name && parsed.stats`; Load states that a record is accepted exactly when it holds. |
| Profile.Save | App.tsx:102 | The record written to storage, with every number kept as is; LoadSave and AwakenedReloads state that it reloads as the profile (see Profile.Save under Left out for non-finite numbers). |
| Profile.AwakenedStart | App.tsx:78-98 | A new profile has level 1, xp 0, rank E, all five stats at 10, location HOME, and `{level: 1, xp: 0}` for every art including NONE. |
| Profile.AwakenedIdentity | App.tsx:84-97 | Name, age, height, weight, gender, daily goal, difficulty and martial art come from the data when present and truthy, and otherwise default to "Hunter", 24, 175, 75, "Masculino", "Saúde", NORMAL and NONE. The name is never empty, and age, height and weight are always truthy. |
| Profile.Load | App.tsx:14-25 | A saved record is accepted if and only if it exists and has a non-empty name and a truthy `stats`. An accepted record is returned unchanged. Missing, unparseable or falsy saved data gives no profile. |
| Profile.LoadSave | App.tsx:20 | A saved profile reloads as itself exactly when its name is non-empty; with an empty name it is rejected. |
| Profile.AwakenedReloads | App.tsx:101-102 | A profile just created by handleAwaken and saved passes the load check unchanged. |
| Progression.Gain | App.tsx:115-150 | The profile after one handleGainXp call; its contents are stated by HunterAccrual, MartialAccrual, StatGrowth, GainKeepsIdentity and GainConservesXp. |
| Progression.Accrue | App.tsx:120-124 | One track's single threshold test; stated by HunterAccrual and MartialAccrual. |
| Progression.AccrueTable | App.tsx:129-141 | The martial table after a gain; stated by MartialAccrual and GainsKeepOtherArts. |
| Progression.GrowStat | App.tsx:143-146 | The stat growth; stated by StatGrowth and GainsStatGrowth. |
| Progression.Announcement | App.tsx:125-138 | The level-up record a call leaves; stated by AnnouncementCases. |
| Progression.HunterAccrual | App.tsx:120-124 | The amount is added to xp. If the sum reaches `level * 100`, that threshold is subtracted once and the level rises by one; otherwise the level stays. The level never rises by more than one per call. |
| Progression.MartialAccrual | App.tsx:129-141 | With art NONE the table is unchanged. Otherwise the selected art gains the same amount and levels up at most once against `level * 80`. Every other art keeps its entry. |
| Progression.StatGrowth | App.tsx:143-146 | "STR", "AGI" and "VIT" add exactly 0.5 to str, agi and vit respectively. Any other category string changes no stat, and int and sen never change. |
| Progression.GainKeepsIdentity | App.tsx:115-150 | A gain leaves rank, name, age, height, weight, gender, daily goal, difficulty, the awakened flag, location and martial art unchanged. |
| Progression.AnnouncementCases | App.tsx:125-138 | There is no announcement exactly when neither level rose. A martial level-up announces the art's new level and its name, overriding a hunter level-up in the same call. A hunter level-up alone announces the new hunter level with an empty name. |
| Progression.BankedStep | App.tsx:121-124 | Leaving a level costs exactly that level's threshold, against the closed form `50·L·(L−1)` (hunter) and `40·L·(L−1)` (martial). |
| Progression.GainConservesXp | App.tsx:120-138 | One gain raises the lifetime total (experience spent on levels plus experience held) by exactly the amount, on the hunter track and on the selected art. |
| Progression.GainKeepsBelowThreshold | App.tsx:120-124 | `0 <= xp < level * 100` is kept by a non-negative gain no larger than the next level's threshold. |
| Progression.OneLevelPerCall | App.tsx:122 | A fresh profile gaining 500 ends at level 2 with 400 xp, which is already past the new threshold of 200. |
| Progression.FreshGainOf250 | App.tsx:120-124 | A fresh profile gaining 250 ends at level 2 with 150 xp. |
| Progression.GainsKeepIdentity | App.tsx:115-150 | Across any sequence of gains, the identity fields and the rank stay as they were. |
| Progression.GainsLevelBound | App.tsx:122-124 | n gains raise the hunter level by at most n and never lower it. |
| Progression.GainsConserveXp | App.tsx:120-138 | Across any sequence of gains, hunter and selected-art lifetime experience grow by exactly the total amount gained. |
| Progression.GainsStatGrowth | App.tsx:143-146 | Across any sequence of gains, str, agi and vit grow by 0.5 per completion of their category, and int and sen stay put. |
| Progression.GainsKeepOtherArts | App.tsx:140 | Across any sequence of gains, every art other than the selected one keeps its entry. With NONE selected, the whole table is unchanged. |
| Progression.GainsKeepXpNonNegative | App.tsx:120-138 | With non-negative rewards, hunter and martial xp stay non-negative and levels stay at least 1. |
| Quests.FindQuest | App.tsx:108 | There is no result exactly when no quest has the id. A result is the first quest with the id. |
| Quests.MarkCompleted | App.tsx:111 | The list keeps its length. Each quest changes only its completed flag, which becomes true exactly for quests with the id and otherwise stays as it was. |
| Quests.Completable | App.tsx:108-109 | There is nothing to award exactly when no quest has the id or its first match is completed. Otherwise the quest to award is that first match, which has the id, is not completed and is in the list. |
| Quests.FindUnaffected | App.tsx:108-111 | Marking one id completed does not change what the lookup finds for any other id. |
| Quests.SecondCompletionIgnored | App.tsx:108-111 | After a completion, completing the same id again awards nothing. |
| Quests.OtherQuestsStillCompletable | App.tsx:108-111 | Completing one id leaves the guard of every other id as it was. |
| Session.InitialMartialProgress | App.tsx:78-81 | The loop builds a table that holds `{level: 1, xp: 0}` for all seven arts. |
| Session.GrowStats | App.tsx:143-146 | The three independent category tests compute exactly the stat growth. |
| Session.App.constructor | App.tsx:14-35 | At start the profile is what the saved record passes the load check as. The quest list is empty, there is no location, the onboarding flag is off, and the level-up record is `(1, HUNTER, "")` and hidden. |
| Session.App.BeginAwakening | App.tsx:154 | The intro's start button switches to onboarding. |
| Session.App.Awaken | App.tsx:77-105 | The new profile is `Awakened(data)` and is saved. Onboarding ends and the location becomes HOME. The stored copy reloads as the profile. |
| Session.App.ReceiveQuests | App.tsx:55 | A generated quest list replaces the current one. |
| Session.App.ChooseLocation | App.tsx:164 | Choosing a location sets it. |
| Session.App.DismissLevelUp | App.tsx:250 | Closing the level-up window hides it. |
| Session.App.GainXp | App.tsx:115-151 | Without a profile nothing changes. Otherwise the profile becomes `Gain(...)` and is saved. A level-up sets the announced record and shows it; otherwise record and flag are unchanged. The stored copy still reloads as the profile. |
| Session.App.UpdateProfile | App.tsx:116-150 | The step-by-step updater computes exactly `Gain(prev, ...)`, saves it, and sets the level-up record exactly as `Announcement` says. |
| Session.App.CompleteQuest | App.tsx:107-113 | An unknown id, or one whose first match is completed, changes nothing. Otherwise the list is marked completed. With a profile, the quest's reward is gained under its `type` string as given, the profile is saved, and a level-up sets the announced record and shows it. Without a profile, the profile, the stored copy and the level-up record and flag are unchanged. |
| Onboarding.TrimStart | components/OnboardingForm.tsx:40 | The front half of `trim()`; stated by TrimStartSpec. |
| Onboarding.TrimEnd | components/OnboardingForm.tsx:40 | The back half of `trim()`; stated by TrimEndSpec. |
| Onboarding.Trim | components/OnboardingForm.tsx:40 | `trim()`; stated by TrimBlank and TrimmedIsShorter. |
| Onboarding.ValueValid | components/OnboardingForm.tsx:40-42 | validateCurrentStep on a value; stated by TextValidity and NumberValidity. |
| Onboarding.StepValid | components/OnboardingForm.tsx:37-43 | validateCurrentStep at a step; stated through ValueValid's lemmas and DifficultyStepValid. |
| Onboarding.Field | components/OnboardingForm.tsx:39 | `(formData as any)[key]`; WriteOnlyTouchesKey states how it sees each write. |
| Onboarding.WithText | components/OnboardingForm.tsx:74 | `{...prev, [key]: opt}` on a string field; stated by WriteOnlyTouchesKey. |
| Onboarding.WithNumber | components/OnboardingForm.tsx:140 | `{...prev, [key]: val}` on a number field; stated by WriteOnlyTouchesKey. |
| Onboarding.FromForm | components/OnboardingForm.tsx:57 | The data handed to handleAwaken; SubmittedProfile states the profile it becomes. |
| Onboarding.TrimStartSpec | components/OnboardingForm.tsx:40 | Trimming the front removes a run of white space, and the remaining string, if any, starts with a non-space. |
| Onboarding.TrimEndSpec | components/OnboardingForm.tsx:40 | Trimming the back removes a run of white space, and the remaining string, if any, ends with a non-space. |
| Onboarding.TrimmedIsShorter | components/OnboardingForm.tsx:40 | Trimming never makes a string longer. |
| Onboarding.TrimBlank | components/OnboardingForm.tsx:40 | `trim()` gives the empty string if and only if every character is JavaScript white space. |
| Onboarding.TextValidity | components/OnboardingForm.tsx:40 | A string field is valid if and only if it has a character that is not white space. |
| Onboarding.NumberValidity | components/OnboardingForm.tsx:41 | A numeric field is invalid if and only if it is NaN or at most 0. The valid values are the positive reals and positive infinity. |
| Onboarding.DifficultyStepValid | components/OnboardingForm.tsx:29-42 | The difficulty step is always valid, whatever difficulty is chosen. |
| Onboarding.StepKeysDistinct | components/OnboardingForm.tsx:22-35 | The seven steps edit seven different fields. |
| Onboarding.WriteOnlyTouchesKey | components/OnboardingForm.tsx:74 | Writing a field sets that key and leaves every other key as it was. This covers text, number and difficulty writes. |
| Onboarding.ValidUpToAll | components/OnboardingForm.tsx:45-48 | Checking the steps one at a time agrees with checking every step below n. |
| Onboarding.ValidUpToKept | components/OnboardingForm.tsx:74 | Changing only fields that no earlier step edits keeps those steps valid. |
| Onboarding.TextEditKeepsPassed | components/OnboardingForm.tsx:138-140 | Editing the current text or select field keeps every earlier step valid. |
| Onboarding.NumberEditKeepsPassed | components/OnboardingForm.tsx:138-140 | Editing the current number field keeps every earlier step valid. |
| Onboarding.DifficultyEditKeepsPassed | components/OnboardingForm.tsx:109 | Choosing a difficulty keeps every earlier step valid. |
| Onboarding.ValidFormFields | components/OnboardingForm.tsx:37-43 | A fully valid form has a non-empty name and truthy age, height and weight. |
| Onboarding.SubmittedProfile | App.tsx:84-97 | A fully valid submitted form becomes a profile with exactly its name, age, height, weight and difficulty, and with art NONE. |
| Onboarding.Wizard.constructor | components/OnboardingForm.tsx:10-20 | The wizard starts at step 0 with the initial form data. |
| Onboarding.Wizard.Next | components/OnboardingForm.tsx:45-51 | The step rises by exactly one if and only if the current step is valid and is not the last one; otherwise it is unchanged. The invariant is kept, so the step stays in [0, 6]. |
| Onboarding.Wizard.Submit | components/OnboardingForm.tsx:53-62 | On the last step, the form is handed on exactly when that step is valid, and a handed-on form is valid at every step. On earlier steps it acts exactly as Next and hands nothing on. |
| Onboarding.Wizard.ChooseOption | components/OnboardingForm.tsx:70-74 | Choosing one of the current select's options sets only the current field. |
| Onboarding.Wizard.ChooseDifficulty | components/OnboardingForm.tsx:109 | Choosing a difficulty sets only the difficulty. |
| Onboarding.Wizard.TypeText | components/OnboardingForm.tsx:138-141 | Typing into the text input sets only the current field, to the typed string. |
| Onboarding.Wizard.TypeNumber | components/OnboardingForm.tsx:138-141 | Typing into a number input sets only the current field, to the parsed number. |

## Left out

- Content generation (`services/geminiService.ts`): the prompts, the network
  call and its random fallback shuffle. Quest lists enter the session as
  opaque inputs (`ReceiveQuests`); a quest's `type` is kept as the string it
  arrives as, since the service only asks for a string (so a quest with a
  type other than STR/AGI/VIT awards experience and grows no stat). The survival-guide and drill loaders
  (App.tsx:49-75) are left out for the same reason.
- React machinery. The reload effects (App.tsx:37-47), the loading flags and
  the active tab are scheduling, not logic. The updater passed to
  `setUserData` is run once; React's development-mode double invocation
  (`React.StrictMode` in index.tsx) is not modelled. Together with the
  shared `stats` object below, it makes a development build add 1.0 to the
  stat per completion; `StatGrowth`'s 0.5 is the production behaviour.
- Session.App.UpdateProfile: does not model that `{...prev}` is a shallow
  copy, so `stats` is the same object as in the previous profile and the
  source increments it in place. The model builds a new `stats` value.
- localStorage and `JSON.parse`/`JSON.stringify` are I/O. The stored copy is
  the ghost field `saved`. The whole loaded record is assumed well-typed:
  the load check (App.tsx:20) only tests `name` and `stats` for truthiness,
  so the source also accepts, say, a numeric name or an empty `stats` object.
- Profile.Save: does not model that `JSON.stringify` writes the non-finite
  numbers `Infinity` and `NaN` as `null`. The round trip stated by LoadSave,
  AwakenedReloads and `Session.App.Valid` therefore holds in the source only
  for a profile whose age, height and weight are finite; a form answer of
  `Infinity` passes validation and reloads as `null`.
- Floating-point rounding. Experience and stats are exact reals.
- `parseFloat` itself. `TypeNumber` receives its result as a parameter.
- Display code: labels, placeholders, upper-casing, colour classes, the
  progress dots, the status window's percentage and chart, the level-up
  modal's audio, the intro animation, and `index.tsx` and `vite.config.ts`.
- `HealthTip` and `MartialDrill` are modelled only as data.
  No operation in the modelled code uses them.
- The wizard's buttons are disabled while the current step is invalid
  (components/OnboardingForm.tsx:179, 190). This needs no model of its own,
  because `Next` and `Submit` already do nothing in that case.
