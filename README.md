# Icebreaker Machine — a Dafny model of its state logic

Icebreaker Machine is a single-page React app. It generates conversation starters for a
chosen social setting ("vibe" filters, a chaos level from 1 to 5), lets the user keep
favourites in a saved list, and has a spin-the-bottle mode. In that mode a roster of
2–12 players is edited, a bottle is spun to pick one player at random, and a question
aimed at that player is requested.

This project models the state logic of that app and proves its properties:

- **Roster editing** (`components/SpinBottle.tsx`). A name is trimmed and added when it is
  non-blank, new and there is room. A name is removed with `filter`. The module `Roster`
  holds this as pure functions; `SpinBottleComponent.SpinBottle` holds it as methods on a
  class. In the app the roster is state of the parent `App` and reaches the component as a
  prop with a setter. The model keeps it as a field of the component class, which is the
  only place that edits it.
- **The spin** (`components/SpinBottle.tsx`). The spin has a guard, picks the winner, and
  computes the target angle, the extra whole turns and the cumulative rotation. The
  completion timer later lowers the spinning flag and reports the winner it captured. The
  module `Angles` holds the arithmetic, over exact reals. JavaScript's `%` is modelled as a
  truncated remainder (`JsRem360`) and proved equal to the floor-based `Mod360` on the
  non-negative rotations the bottle can have.
- **App state** (`App.tsx`). `toggleFilter` (module `Filters`), `toggleSave` and
  `removeSaved` (module `Saved`), and the loading and error flags of the two asynchronous
  handlers (class `IcebreakerApp.App`). Each handler is split at its `await`: `Begin*` is
  the part that runs before it, `Finish*` the part that runs after, and `Handle*` runs
  both with nothing in between. What the question service returns is a parameter
  (`Response`): either the text(s) or a rejection with the error's message.
- **A full round** (`Session.SpinRound`). A spin, its timer firing, and the parent's
  targeted request, composed together. The timer calls the handler of the render in which
  the spin started, so the request uses the setting, chaos level and filters of that
  moment. The targeted handler therefore takes those controls as a parameter rather than
  reading the current ones.

Two worked examples sit beside the component class: `SpinBottleComponent.ThreePlayers`
builds a resting bottle with Alice, Bob and Cara, and `SpinBottleComponent.SpinScenario`
spins it while a request is pending (blocked), then with a draw that picks Bob (the bottle
ends at 120 degrees plus at least five turns), and shows that removing Bob meanwhile does
not change the winner the timer reports.

`Math.random()`, `generateSimpleId()` and `Date.now()` are parameters. A random draw is a
real in [0, 1).

Points where the code does something other than its comments, its UI or a first reading
suggest. The model follows the code in each:

- The comment above the turn count promises 5–8 full spins (1800–2880 degrees). The code
  `360 * (5 + Math.floor(Math.random() * 3))` gives 5, 6 or 7 (`Angles.FullSpinsChoices`).
- The bottle always lands on the winner's angle (`Angles.LandsOnTarget`). But the net
  turn of one spin is `fullSpins + target - rotation % 360`. It can therefore be up to one
  turn less than `fullSpins`. With two players, a five-turn spin from rest to player 1
  leaves the bottle at 1980 degrees; a second five-turn spin, to player 0, then turns it by
  1620 degrees, not 1800 (`Angles.NetRotationBelowFullSpins`). What always holds is that the
  net turn is more than four turns (`Angles.SpinAdvances`).
- Removing a player drops every entry equal to the name, not just the first one. The two
  coincide because the roster never holds a name twice (`Roster.EditsKeepValid`), and on
  such a roster removal splices out exactly one position (`Roster.RemoveAt`).
- The Add button is enabled without a duplicate check. An enabled press with a name
  already present does nothing (`Roster.AddEnabledAccepts`).

## Model

| member | source | states |
|---|---|---|
| Seqs.Filter | App.tsx:113 | `Array.filter`: an element is in the result exactly when it is in the input and kept; the result is no longer than the input |
| Seqs.FilterAppend | App.tsx:106 | filtering a concatenation filters each part, so `filter` keeps the relative order of what it keeps |
| Seqs.FilterKeepsAll | components/SpinBottle.tsx:27 | when every element passes, `filter` returns the list unchanged |
| Seqs.FilterDropsAll | App.tsx:106 | when no element passes, `filter` returns the empty list |
| Seqs.FilterPairwise | App.tsx:106 | any relation holding between every earlier and later pair still holds after filtering |
| Seqs.FilterDistinct | components/SpinBottle.tsx:27 | filtering a list without repeats gives a list without repeats |
| Seqs.FilterSplice | components/SpinBottle.tsx:27 | a filter that keeps everything except one element between two parts returns the two parts joined |
| Seqs.FilterDropsOne | components/SpinBottle.tsx:27 | when only position k fails the test, `filter` splices out exactly that position |
| Strings.SkipSpaceForward | components/SpinBottle.tsx:19 | the first non-white-space index at or after `from`; everything skipped is white space |
| Strings.SkipSpaceBackward | components/SpinBottle.tsx:19 | the end of the last non-white-space character before `upto`; everything skipped is white space |
| Strings.Trim | components/SpinBottle.tsx:19 | `trim()`: the result has no outer white space, sits in the input padded only by white space, and is empty exactly when the input is blank |
| Strings.TrimTrimmed | components/SpinBottle.tsx:19 | a string without outer white space trims to itself, so trimming is idempotent |
| Strings.TrimUnique | components/SpinBottle.tsx:19 | any non-empty infix padded only by white space and without outer white space is the trimmed string |
| Roster.Accepts | components/SpinBottle.tsx:20 | the add handler's guard: the trimmed name is non-empty, not on the roster, and there are fewer than 12 players |
| Roster.AddEnabled | components/SpinBottle.tsx:84 | the Add button's enabling condition: the trimmed field is non-empty, there are fewer than 12 players, and no spin or request is in progress |
| Roster.AddEnabledAccepts | components/SpinBottle.tsx:84 | once the Add button is enabled, the handler accepts the name exactly when it is new; every acceptable name can be submitted while idle |
| Roster.AddPlayer | components/SpinBottle.tsx:17-24 | the roster changes exactly when the trimmed name is non-empty, new and there are fewer than 12 players, and then the trimmed name is appended |
| Roster.RemovePlayer | components/SpinBottle.tsx:26-28 | a player remains exactly when they were on the roster and differ from the name; removing an absent name changes nothing |
| Roster.RemoveAt | components/SpinBottle.tsx:26-28 | on a roster without repeats, removing the name at position k splices out that position and keeps the order |
| Roster.AddThenRemove | components/SpinBottle.tsx:17-28 | adding an accepted name and removing it again restores the roster |
| Roster.AddKeepsValid | components/SpinBottle.tsx:20-21 | adding keeps the roster duplicate-free, trimmed, non-blank and at most 12 long |
| Roster.RemoveKeepsValid | components/SpinBottle.tsx:26-28 | removing keeps the roster duplicate-free, trimmed, non-blank and at most 12 long |
| Roster.EditsKeepValid | components/SpinBottle.tsx:17-28 | any sequence of adds and removes from a valid roster keeps it valid |
| Angles.Mod360 | components/SpinBottle.tsx:53 | the direction of a rotation: in [0, 360) and a whole number of turns away from it |
| Angles.Mod360Unique | components/SpinBottle.tsx:53 | the direction is the only value in [0, 360) a whole number of turns away |
| Angles.Trunc | components/SpinBottle.tsx:53 | rounding toward zero, as JavaScript's `%` uses it |
| Angles.JsRem360 | components/SpinBottle.tsx:53 | `rotation % 360`: its sign follows the rotation, its magnitude is below 360, and it is a whole number of turns away |
| Angles.JsRemIsMod360 | components/SpinBottle.tsx:53 | for non-negative rotations JavaScript's remainder is the direction |
| Angles.SegmentDeg | components/SpinBottle.tsx:43 | n segments of `360 / n` make one full turn |
| Angles.TargetAngle | components/SpinBottle.tsx:48 | every player's target angle is in [0, 360) |
| Angles.TargetAngleInjective | components/SpinBottle.tsx:43-48 | later players get strictly larger target angles, so the angle identifies the winner |
| Angles.RandomIndex | components/SpinBottle.tsx:36 | `Math.floor(Math.random() * n)` is a valid index below n |
| Angles.FullSpins | components/SpinBottle.tsx:52 | the extra rotation is a whole number of turns, at least five |
| Angles.FullSpinsChoices | components/SpinBottle.tsx:50-52 | the extra rotation is 1800, 2160 or 2520 degrees, never the 2880 the comment names |
| Angles.FinalRotation | components/SpinBottle.tsx:53 | the committed rotation; whenever the extra rotation is whole turns, it is the target plus whole turns, whatever the starting rotation |
| Angles.LandsOnTarget | components/SpinBottle.tsx:53 | from any non-negative rotation, the final rotation points exactly at the target |
| Angles.NetRotation | components/SpinBottle.tsx:52-53 | the net turn is `fullSpins + target - direction` and lies strictly within one turn of `fullSpins` |
| Angles.SpinAdvances | components/SpinBottle.tsx:50-53 | every spin turns the bottle forward by more than 1440 degrees |
| Angles.NetRotationBelowFullSpins | components/SpinBottle.tsx:50-53 | with two players, a five-turn spin from rest to player 1 ends at 1980 degrees, and a second five-turn spin to player 0 then turns by only 1620 degrees |
| SpinBottleComponent.SpinBottle.constructor | components/SpinBottle.tsx:11-13 | starts with an empty roster and name field, rotation 0, not spinning |
| SpinBottleComponent.SpinBottle.CanSpin | components/SpinBottle.tsx:31 | the spin guard, identical to the spin button's enabling condition at line 154: at least 2 players and no spin or request in progress |
| SpinBottleComponent.SpinBottle.EditName | components/SpinBottle.tsx:76 | the name field holds what was typed |
| SpinBottleComponent.SpinBottle.AddPlayer | components/SpinBottle.tsx:17-24 | the roster becomes `Roster.AddPlayer` of the old one, the field is cleared exactly when the name is accepted, and the roster stays valid |
| SpinBottleComponent.SpinBottle.RemovePlayer | components/SpinBottle.tsx:26-28 | the roster becomes `Roster.RemovePlayer` of the old one and stays valid |
| SpinBottleComponent.SpinBottle.Spin | components/SpinBottle.tsx:30-56 | starts exactly when there are at least 2 players and neither a spin nor a request is in progress, and otherwise changes nothing; a started spin raises the flag, captures the player at the random index, and points the bottle at that player's angle after more than four turns |
| SpinBottleComponent.SpinBottle.CompleteSpin | components/SpinBottle.tsx:58-61 | lowers the flag and reports the winner captured when the spin started |
| Filters.Toggle | App.tsx:37-41 | the tag's membership flips, no other tag's membership changes, and an unselected tag is appended at the end |
| Filters.ToggleTwice | App.tsx:38-40 | selecting an unselected tag and deselecting it restores the list |
| Filters.ToggleKeepsDistinct | App.tsx:38-40 | a selection without repeats keeps none |
| Filters.ToggleRemovesInPlace | App.tsx:39 | deselecting removes just that tag and keeps the others in order |
| Saved.IsSaved | App.tsx:104 | some saved entry has the given text |
| Saved.WithText | App.tsx:104 | the saved entries with a given text; empty exactly when no entry has that text |
| Saved.ToggleSave | App.tsx:103-110 | whether the text is saved flips; an unsaved question goes in front; a saved text is removed with all its entries and nothing else is removed |
| Saved.ToggleSaveRemovesInPlace | App.tsx:106 | on a collection with unique texts, unsaving removes just the entry at the question's text's position and keeps the others in order |
| Saved.RemoveSaved | App.tsx:112-114 | an entry remains exactly when its id differs; an absent id changes nothing |
| Saved.ToggleSaveTwice | App.tsx:103-110 | saving an unsaved question and toggling it again restores the collection |
| Saved.SaveOnce | App.tsx:103-110 | after saving an unsaved question exactly one entry has its text |
| Saved.ToggleSaveKeepsTextsUnique | App.tsx:103-110 | toggling keeps every text in the collection at most once |
| Saved.RemoveSavedKeepsTextsUnique | App.tsx:112-114 | removing keeps every text in the collection at most once |
| Saved.RemoveSavedInPlace | App.tsx:112-114 | removing the id of exactly one entry splices out that entry and keeps the order |
| IcebreakerApp.ErrorText | App.tsx:67 | the error shown is the error's own message when that is non-empty and the fallback otherwise, so it is never empty |
| IcebreakerApp.MakeQuestion | App.tsx:80-88 | a question literal stamped with the request's setting, chaos level and filters, an id, a time and an optional target |
| IcebreakerApp.BuildQuestions | App.tsx:51-58 | one question per returned text, in order, each with its text, a fresh id and time, the request's setting, chaos level and filters, and no target |
| IcebreakerApp.Texts | App.tsx:51-53 | the texts of a list of questions, one per question and in order |
| IcebreakerApp.BuildQuestionsKeepsTexts | App.tsx:51-58 | the built questions' texts are exactly the returned texts |
| IcebreakerApp.App.constructor | App.tsx:16-31 | the initial controls, no questions, the stored saved list, no result, not loading, no error |
| IcebreakerApp.App.ToggleFilter | App.tsx:37-41 | the filters become `Filters.Toggle` of the old ones and keep no repeats |
| IcebreakerApp.App.ToggleSave | App.tsx:103-110 | the saved list becomes `Saved.ToggleSave` of the old one and keeps texts unique |
| IcebreakerApp.App.RemoveSaved | App.tsx:112-114 | the saved list becomes `Saved.RemoveSaved` of the old one and keeps texts unique |
| IcebreakerApp.App.BeginGenerateList | App.tsx:43-49 | loading is raised, the error and the spin result are cleared, and the request carries the current controls |
| IcebreakerApp.App.FinishGenerateList | App.tsx:49-70 | loading is lowered; on success the questions are replaced; on failure they are kept and a non-empty error is shown |
| IcebreakerApp.App.HandleGenerateList | App.tsx:43-71 | the whole list handler: loading ends lowered and the spin result cleared; success shows exactly the returned texts with no error; failure keeps the questions and shows the error's message, or "Something went wrong." when it is empty |
| IcebreakerApp.App.BeginSpinComplete | App.tsx:73-75 | loading is raised and the error is cleared |
| IcebreakerApp.App.FinishSpinComplete | App.tsx:77-100 | loading is lowered; on success the result is a question addressed to the winner and stamped with the controls the handler's closure captured; on failure the previous result is kept and a non-empty error is shown |
| IcebreakerApp.App.HandleSpinComplete | App.tsx:73-101 | the whole targeted handler: loading ends lowered; success gives exactly the question literal with the returned text, the given id and time, the captured controls and the winner as target, with no error; failure keeps the previous result and shows the error's message, or "The bottle stalled." when it is empty |
| Session.SpinRound | App.tsx:148-153 | a round starts exactly when the spin button is enabled, and otherwise nothing changes; it changes only the spin flags, the rotation, the targeted result, the error and the loading flag; a started round names the player at the random index of the roster it started with, ends with neither flag raised, and leaves the bottle at the spin formula's rotation, which points at that player's angle; a delivered question is exactly the literal with the returned text, the given id and time, the controls of the moment the spin started and the winner as target, with no error; a failed request keeps the previous result and shows the error's message or the fallback |

## Left out

- The question service (`services/geminiService.ts`): prompts, model calls, JSON parsing. Its
  outcome is the `Response` parameter.
- `hooks/useLocalStorage` is not part of this model. The saved list's initial value is a
  constructor parameter, and writing it back is not modelled. The constructor requires the
  stored list to hold each text at most once, which is true of every list this app writes,
  but a list edited by hand in local storage could break it.
- Rendering: the components `Background`, `Header`, `ControlPanel`, `QuestionCard` and
  `SavedList`, the label placement by cosine and sine, CSS, and the 4-second transition.
- Timers and scrolling. The spin's `setTimeout` is modelled as the separate call
  `CompleteSpin`. The 100 ms scroll timers do nothing to the state.
- The setters for context and chaos level, which only replace a value.
- The game mode (`mode`, App.tsx:16) and its setter. The mode only chooses which
  component is rendered; its one effect on state is the remount described next.
- Switching mode during a spin. The mode buttons are disabled only while a request is
  loading (`components/ControlPanel.tsx:50`, `:61`), so the user can leave and re-enter
  the spin mode while the bottle turns. That unmounts the component and remounts it with
  rotation 0, no spin in progress and an empty name field, while the pending timer
  survives and still reports its winner. After a remount a second spin can start while the
  first timer is pending. The model has one component instance for the whole session.
  Its invariant `isSpinning <==> pendingWinner.Some?` and the growth of the rotation are
  proved for that instance only, and neither holds across a remount.
- The input's `maxLength={15}`. It is an HTML attribute on the field, not a check in the
  handler, so no roster invariant depends on it.
- Overlapping requests. The model proves each handler with nothing interleaved at its
  `await`. It does not prove anything about a second request settling in between. Nothing
  in the code prevents that; only the disabled controls make it unlikely.
- Floating point. Rotations are exact reals. JavaScript doubles lose precision once the
  cumulative rotation grows very large, and that is not captured.
- `err.message` for a thrown value that is not an `Error`. It is modelled as a string that
  may be empty, which then selects the fallback.
