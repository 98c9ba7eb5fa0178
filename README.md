# bgord-ui field state and UI state machines, in Dafny

This project models the decision logic of the `bgord-ui` frontend utility
library:

- the **field value normalisers** `TextField`, `NumberField` and `DateField`,
  which fold every "empty" form of a value (`undefined`, `null`, `""`, or
  `NaN` for numbers) into one `EMPTY` marker and compare values with all
  empties equal;
- the **field state hooks** `useTextField`, `useNumberField` and
  `useDateField`, modelled as classes whose fields are the hook's state
  cells (`value`, and for number and date the separately tracked display
  string `dom`), with `set`, `handleChange`, `clear` and the derived
  `changed` / `unchanged` / `empty` flags;
- the small UI state machines `useToggle`, `useMutation`, `useFile` and
  `useExitAction`;
- the pure helpers `Fields`, `Form.pattern`, `pluralize`, the `translate`
  function of `useTranslations`, `Colorful`, `ETag` and `WeakETag`.

Each source file is one module. `Js` holds JavaScript's `null`/`undefined`
values (`Nullish<T>`), optionals, `every`/`some` and the label and input
attribute bags; `Numbers` models JavaScript numbers without floating point:
a finite number is the canonical terminating decimal that `String(n)`
prints, so `===` on finite numbers is plain equality, and `NaN`, `Infinity`
and `-Infinity` are separate cases. Values the browser supplies
(`valueAsNumber`, `validity.valid`, the `files` list, the name of a finished
animation) and the outcome of `perform` in `useMutation` are parameters of
the operations that read them. The `polish-plurals` package is a function
parameter of `Pluralize`.

Three behaviours of the code are worth knowing, and the model keeps them:

- a default value is only cleared of empty forms, never validated: a
  number field keeps an `Infinity` default and a date field a `2025/01/01`
  default;
- only the text hook re-syncs `value` when `config.defaultValue` changes; the
  number and date hooks recompute their default on every render but leave
  `value` and `dom` alone (`DefaultChanged` in each class);
- the number hook accepts any finite `valueAsNumber`, whatever the raw text.

## Model

| member | source | states |
|---|---|---|
| `Js.Every` | src/services/fields.ts:11-13 | `every` holds iff the predicate holds at every index |
| `Js.Any` | src/hooks/use-file.ts:95-97 | `some` holds iff the predicate holds at some index |
| `Numbers.NumberToString` | src/hooks/use-number-field.ts:40 | `String(n)` is never empty and uses only digits, `-`, `.` and the letters of `NaN`/`Infinity`; `NumberToStringInjective` shows it names the number |
| `Numbers.NumberToStringInjective` | src/hooks/use-number-field.ts:40 | equal `String` forms come from equal numbers: the point's place fixes the scale and the digits read back to the value |
| `Numbers.IntToStringInjective` | src/services/etag.ts:5 | distinct integers print as distinct decimal strings |
| `TextFields.New` | src/services/text-field.ts:10-12 | the constructor stores `EMPTY` or a non-empty string; empty inputs become `EMPTY`, others are kept; `get()` (`TextField.Get`) returns the stored value and `isEmpty()` (`TextField.IsEmptyField`) tests it |
| `TextFields.EmptyForms` | src/services/text-field.ts:22-24 | `isEmpty` holds exactly for `undefined`, `null` and `""` |
| `TextFields.NormalizeCases` | src/services/text-field.ts:10-16 | `get()` after construction is `EMPTY` for empty input and the input otherwise; never `null` or `""` |
| `TextFields.NormalizeIdempotent` | src/services/text-field.ts:10-12 | normalising twice equals normalising once |
| `TextFields.IsEmpty` | src/services/text-field.ts:22-24 | a value is non-empty iff it is a string with at least one character |
| `TextFields.Compare` | src/services/text-field.ts:26-29 | `compare` holds iff both sides normalise to the same value |
| `TextFields.CompareEquivalence` | src/services/text-field.ts:26-29 | `compare` is reflexive, symmetric and transitive |
| `TextFields.CompareCases` | src/services/text-field.ts:26-28 | both empty compare equal; empty vs non-empty never; two strings by string equality |
| `NumberFields.New` | src/services/number-field.ts:10-12 | the constructor stores `EMPTY` or a number other than `NaN`; non-empty numbers are kept |
| `NumberFields.EmptyForms` | src/services/number-field.ts:22-24 | `isEmpty` holds exactly for `undefined`, `null`, `NaN`; `0` is not empty |
| `NumberFields.NormalizeCases` | src/services/number-field.ts:10-12 | `NaN`, `undefined`, `null` become `EMPTY`; a stored value is never `NaN` or `null` |
| `NumberFields.NormalizeIdempotent` | src/services/number-field.ts:10-12 | normalising twice equals normalising once |
| `NumberFields.IsEmpty` | src/services/number-field.ts:22-24 | a value is non-empty iff it is a number other than `NaN` |
| `NumberFields.Compare` | src/services/number-field.ts:26-29 | `compare` holds iff both sides normalise to the same value, so `NaN` compares equal to `EMPTY` |
| `NumberFields.CompareCases` | src/services/number-field.ts:26-28 | both empty compare equal (`NaN` and `EMPTY` too); empty vs non-empty never; two numbers by value |
| `DateFields.New` | src/services/date-field.ts:8-10 | the constructor stores `EMPTY` or a non-empty string; empty inputs become `EMPTY` |
| `DateFields.EmptyForms` | src/services/date-field.ts:20-22 | `isEmpty` holds exactly for `undefined`, `null` and `""` |
| `DateFields.NormalizeCases` | src/services/date-field.ts:8-10 | empty inputs become `EMPTY`; any other string is kept without shape checks |
| `DateFields.SlashedDateIsKept` | src/services/date-field.ts:8-10 | `"2025/01/01"` is stored as it is and is not empty |
| `DateFields.NormalizeIdempotent` | src/services/date-field.ts:8-10 | normalising twice equals normalising once |
| `DateFields.IsEmpty` | src/services/date-field.ts:20-22 | a value is non-empty iff it is a string with at least one character |
| `DateFields.Compare` | src/services/date-field.ts:24-27 | `compare` holds iff both sides normalise to the same value |
| `DateFields.CompareCases` | src/services/date-field.ts:24-26 | both empty compare equal; empty vs non-empty never; two dates by string equality |
| `UseTextField.TextFieldHook.constructor` | src/hooks/use-text-field.ts:36-38 | `value` starts at the normalised default, so the field is unchanged |
| `UseTextField.TextFieldHook.Set` | src/hooks/use-text-field.ts:40 | `value` becomes the normalised input; the default is kept |
| `UseTextField.TextFieldHook.HandleChange` | src/hooks/use-text-field.ts:42-43 | a change is `set` of the raw string: `""` gives `EMPTY`, anything else is stored |
| `UseTextField.TextFieldHook.Clear` | src/hooks/use-text-field.ts:54 | `value` returns to the default and the field reports unchanged |
| `UseTextField.TextFieldHook.DefaultChanged` | src/hooks/use-text-field.ts:45-47 | a new default is normalised and `value` is reset to it |
| `UseTextField.TextFieldHook.DisplayValue` | src/hooks/use-text-field.ts:60 | the input shows `""` iff `value` is empty, otherwise `value` itself |
| `UseTextField.TextFieldHook.Label` | src/hooks/use-text-field.ts:55 | the label's `htmlFor` is the field name |
| `UseTextField.TextFieldHook.Input` | src/hooks/use-text-field.ts:56-62 | input `id` and `name` are the field name and its value is the display value |
| `UseTextField.TextFieldHook.Status` | src/hooks/use-text-field.ts:64-66 | `changed == !unchanged`; unchanged iff value and default normalise alike; `empty` is `isEmpty(value)` |
| `UseTextField.ClearTwice` | src/hooks/use-text-field.ts:54 | clearing twice leaves the state of clearing once |
| `UseNumberField.Display` | src/hooks/use-number-field.ts:47 | the string `set` shows is blank exactly for an empty value |
| `UseNumberField.DisplayInjective` | src/hooks/use-number-field.ts:47 | two non-empty values shown alike are the same value, so `dom` after `set` fixes `value` |
| `UseNumberField.NumberFieldHook.constructor` | src/hooks/use-number-field.ts:36-41 | `value` is the normalised default and `dom` is `""` or its string form |
| `UseNumberField.NumberFieldHook.Set` | src/hooks/use-number-field.ts:43-48 | `value` is normalised and `dom` re-synced; `dom` is `""` iff the field is empty |
| `UseNumberField.NumberFieldHook.HandleChange` | src/hooks/use-number-field.ts:50-60 | `dom` always takes the raw string; `value` becomes `EMPTY` on `""`, the number when `Number.isFinite` (`Numbers.IsFinite`) holds, and is kept otherwise |
| `UseNumberField.NumberFieldHook.Clear` | src/hooks/use-number-field.ts:67 | back to the default with both tracks in sync; the field reports unchanged |
| `UseNumberField.NumberFieldHook.DefaultChanged` | src/hooks/use-number-field.ts:36 | a new default changes what `clear` and the flags use, not `value` or `dom` |
| `UseNumberField.NumberFieldHook.Label` | src/hooks/use-number-field.ts:68 | the label's `htmlFor` is the field name |
| `UseNumberField.NumberFieldHook.Input` | src/hooks/use-number-field.ts:69 | the input shows `dom` under the field's name |
| `UseNumberField.NumberFieldHook.Status` | src/hooks/use-number-field.ts:70-72 | `changed == !unchanged`; `empty` is `isEmpty(value)` |
| `UseNumberField.PartialEntry` | src/hooks/use-number-field.ts:50-60 | typing `1`, `1.`, `1.5`, `""`, `-`, `-1` keeps each partial input in `dom` and ends with value -1 shown as `"-1"` |
| `UseDateField.DateShapeOfParts` | src/hooks/use-date-field.ts:60 | the shape check `IsDateShape` (the `/^\d{4}-\d{2}-\d{2}$/` test) accepts exactly four, two and two ASCII digits joined by dashes |
| `UseDateField.ShapeExamples` | src/hooks/use-date-field.ts:60 | `"2025/01/01"` fails the shape check, `"2025-01-01"` passes |
| `UseDateField.Display` | src/hooks/use-date-field.ts:49 | the string `set` shows is `""` exactly for an empty value, and otherwise the date itself |
| `UseDateField.DateFieldHook.constructor` | src/hooks/use-date-field.ts:38-43 | `value` is the normalised default, `dom` is `""` or the default string |
| `UseDateField.DateFieldHook.Set` | src/hooks/use-date-field.ts:45-50 | `value` is normalised and `dom` re-synced |
| `UseDateField.DateFieldHook.HandleChange` | src/hooks/use-date-field.ts:52-64 | `dom` takes the raw string; `value` is `EMPTY` on `""`, kept on a bad shape or invalid element, else the raw string; so it is old, `EMPTY` or date-shaped |
| `UseDateField.DateFieldHook.Clear` | src/hooks/use-date-field.ts:71 | back to the default with both tracks in sync; unchanged |
| `UseDateField.DateFieldHook.DefaultChanged` | src/hooks/use-date-field.ts:38 | a new default changes what `clear` and the flags use, not `value` or `dom` |
| `UseDateField.DateFieldHook.Label` | src/hooks/use-date-field.ts:72 | the label's `htmlFor` is the field name |
| `UseDateField.DateFieldHook.Input` | src/hooks/use-date-field.ts:73 | the input shows `dom` under the field's name |
| `UseDateField.DateFieldHook.Status` | src/hooks/use-date-field.ts:74-76 | `changed == !unchanged`; `empty` is `isEmpty(value)` |
| `UseToggle.PropsFor` | src/hooks/use-toggle.ts:42-54 | `aria-expanded` is `"true"` iff on, `aria-hidden` is `"false"` iff on; ids, roles and tab index as fixed |
| `UseToggle.ExpandedIsNotHidden` | src/hooks/use-toggle.ts:46-51 | `aria-expanded` and `aria-hidden` always differ |
| `UseToggle.ToggleHook.constructor` | src/hooks/use-toggle.ts:33-34 | `on` starts at `defaultValue`, false when omitted |
| `UseToggle.ToggleHook.Enable` | src/hooks/use-toggle.ts:36 | `on` becomes true, whatever it was (so enabling twice is enabling once) |
| `UseToggle.ToggleHook.Disable` | src/hooks/use-toggle.ts:37 | `on` becomes false, whatever it was |
| `UseToggle.ToggleHook.Toggle` | src/hooks/use-toggle.ts:38 | `on` flips |
| `UseToggle.ToggleHook.Off` | src/hooks/use-toggle.ts:40 | `off` is always the negation of `on` |
| `UseToggle.ToggleHook.Props` | src/hooks/use-toggle.ts:42-54 | the props are those of the current name and state |
| `UseToggle.ToggleTwice` | src/hooks/use-toggle.ts:38 | two toggles restore the original state |
| `UseToggle.ExtractUseToggle` | src/hooks/use-toggle.ts:59-67 | `toggle` holds exactly the six toggle keys, `rest` every other key, with their values |
| `UseToggle.ExtractRecombines` | src/hooks/use-toggle.ts:63-66 | the two parts are disjoint and merge back into the input object |
| `UseMutation.Reduce` | src/hooks/use-mutation.ts:39-46 | START gives loading, DONE done and RESET idle, each with a `null` error; ERROR gives the error state carrying exactly its error |
| `UseMutation.ReduceIgnoresState` | src/hooks/use-mutation.ts:39-46 | the reducer's result does not depend on the prior state |
| `UseMutation.RunKeepsWellFormed` | src/hooks/use-mutation.ts:43-46 | any sequence of actions keeps the error `null` outside the error state |
| `UseMutation.FlagsOf` | src/hooks/use-mutation.ts:89-92 | exactly one of `isIdle`/`isLoading`/`isError`/`isDone` holds, each iff its state |
| `UseMutation.AfterStart` | src/hooks/use-mutation.ts:59-76 | after START exactly one action follows: DONE iff the response is ok, else ERROR with the thrown value or `null` |
| `UseMutation.MutationEnds` | src/hooks/use-mutation.ts:56-78 | after START an ok response ends done, a not-ok one in error with `null`, a throw in error with the thrown value |
| `UseMutation.MutationHook.constructor` | src/hooks/use-mutation.ts:51 | the initial state is idle with a `null` error |
| `UseMutation.MutationHook.Dispatch` | src/hooks/use-mutation.ts:51 | dispatching applies the reducer to the current state |
| `UseMutation.MutationHook.Mutate` | src/hooks/use-mutation.ts:53-79 | nothing is dispatched while loading; otherwise START then the outcome's action; the response is returned only when ok |
| `UseMutation.MutationHook.Reset` | src/hooks/use-mutation.ts:95 | reset from any state yields idle with a `null` error |
| `UseMutation.MutationHook.Flags` | src/hooks/use-mutation.ts:86-92 | the returned flags are those of the current state |
| `UseFile.MaxSizeOf` | src/hooks/use-file.ts:63 | a missing limit is unlimited; a given one is kept |
| `UseFile.UnlimitedAcceptsAll` | src/hooks/use-file.ts:63 | without `maxSizeBytes` no file is too big |
| `UseFile.FileHook.constructor` | src/hooks/use-file.ts:62-67 | the hook starts idle with no file and key 0 |
| `UseFile.FileHook.SelectFile` | src/hooks/use-file.ts:69-85 | no first file changes nothing; too big moves to error keeping the file; else selected with that file, returned |
| `UseFile.FileHook.ClearFile` | src/hooks/use-file.ts:87-91 | back to idle with no file and the key one higher |
| `UseFile.FileHook.Matches` | src/hooks/use-file.ts:95-97 | `matches(states)` holds iff the current state is among `states` |
| `UseFile.FileHook.View` | src/hooks/use-file.ts:106-114 | each flag holds iff its state; `data` is the file exactly when selected |
| `UseFile.ViewFlagsExclusive` | src/hooks/use-file.ts:106-114 | exactly one of `isIdle`, `isSelected`, `isError` holds |
| `UseExitAction.ExitActionHook.constructor` | src/hooks/use-exit-action.ts:21-22 | the phase starts idle: visible, nothing attached, action not run |
| `UseExitAction.ExitActionHook.Trigger` | src/hooks/use-exit-action.ts:24-27 | idle moves to exiting; exiting and gone are left alone |
| `UseExitAction.ExitActionHook.OnAnimationEnd` | src/hooks/use-exit-action.ts:29-33 | a matching animation runs the action once and ends gone; any other changes nothing |
| `UseExitAction.ExitActionHook.Visible` | src/hooks/use-exit-action.ts:37 | visible iff the phase is not gone |
| `UseExitAction.ExitActionHook.AttachProps` | src/hooks/use-exit-action.ts:35 | `attach` is defined iff exiting, and then names the configured animation |
| `UseExitAction.ExitScenario` | src/hooks/use-exit-action.ts:24-33 | trigger twice, an unrelated animation, then the exit animation: the action runs exactly once and the element is gone |
| `Fields.AllUnchanged` | src/services/fields.ts:11-13 | true iff every field is unchanged |
| `Fields.AllEmpty` | src/services/fields.ts:20-22 | true iff every field is empty |
| `Fields.AnyEmpty` | src/services/fields.ts:29-31 | true iff some field is empty |
| `Fields.AnyUnchanged` | src/services/fields.ts:38-40 | true iff some field is unchanged |
| `Fields.AnyChanged` | src/services/fields.ts:47-49 | true iff some field is changed |
| `Fields.EmptyList` | src/services/fields.ts:11-49 | on no fields the `all*` checks hold and the `any*` checks fail |
| `Fields.AllEmptyImpliesAnyEmpty` | src/services/fields.ts:20-31 | on a non-empty list all empty implies some empty |
| `Fields.AnyChangedIsNotAllUnchanged` | src/services/fields.ts:11-49 | for hooks' flags, some changed iff not all unchanged |
| `Form.Pattern` | src/services/form.ts:13-21 | `required` defaults to true; the pattern for min only, both, max only, or none, with 0, `NaN` and missing bounds counting as absent (`Form.Truthy`, JavaScript truthiness of a bound) |
| `Form.PatternShape` | src/services/form.ts:15-19 | a pattern is `.{…}` and holds a comma iff the maximum is set |
| `Form.ZeroMinimumIsAbsent` | src/services/form.ts:15-21 | min 0 with max 5 gives `.{,5}` |
| `Pluralize.Pluralize` | src/services/pluralize.ts:19-40 | English: singular for 1, else plural or singular+"s"; Polish: singular for 1 or a missing count, else the foreign function on the `String` forms; other languages: singular |
| `Pluralize.PolishPluralsOnlyForPolish` | src/services/pluralize.ts:28-33 | the foreign function matters only for Polish counts other than 1 |
| `Pluralize.EnglishFallbackDiffers` | src/services/pluralize.ts:20-25 | without a plural, English counts other than 1 give singular+"s", never the singular |
| `Pluralize.PolishDefaults` | src/services/pluralize.ts:29-33 | a `null` Polish count gives the singular; a missing plural is passed on as `"undefined"` |
| `Translations.ReplaceAll` | src/services/translations.tsx:46-47 | replacing a placeholder by itself changes nothing; `ReplaceAllAbsent` and `ReplaceAllLeftmost` give the scan |
| `Translations.ApplyVariables` | src/services/translations.tsx:45-48 | variables whose values are their own placeholders leave the translation unchanged; `ApplyVariablesSnoc` gives the order |
| `Translations.ReplaceAllAbsent` | src/services/translations.tsx:45-48 | a placeholder that does not occur leaves the text unchanged |
| `Translations.ReplaceAllLeftmost` | src/services/translations.tsx:46-47 | the leftmost occurrence is replaced and the scan continues after it |
| `Translations.ApplyVariablesSnoc` | src/services/translations.tsx:45-48 | variables apply in entry order, each to the previous result |
| `Translations.ApplyAbsentVariables` | src/services/translations.tsx:45-48 | variables whose placeholders do not occur leave the translation unchanged |
| `Translations.Translate` | src/services/translations.tsx:33-50 | a missing or empty translation gives the key; no variables give the translation; else the variables applied |
| `Colorful.CssVar` | src/services/colorful.ts:4 | the value is `var(--` + token + `)` |
| `Colorful.CssVarRecoversToken` | src/services/colorful.ts:4 | the token can be read back from the CSS value |
| `Colorful.Colorful` | src/services/colorful.ts:3-16 | the color, background and both style forms all carry the CSS value |
| `Colorful.EmptyToken` | src/services/colorful.ts:3-16 | the empty token gives `var(--)` in all four places |
| `ETag.FromRevision` | src/services/etag.ts:4-5 | the single key `if-match` holds `String(revision)`, which never begins with `W` |
| `ETag.IntegerRevision` | src/services/etag.ts:5 | an integer revision prints in decimal; 5 gives `"5"` |
| `ETag.FromRevisionInjective` | src/services/etag.ts:5 | distinct revisions give distinct headers |
| `WeakETag.FromRevision` | src/services/weak-etag.ts:4-5 | the single key `if-match` holds a value starting with `W/` |
| `WeakETag.StripWeakIndicator` | src/services/weak-etag.ts:5 | dropping `W/` gives exactly the strong header's value |
| `WeakETag.WeakIsNotStrong` | src/services/weak-etag.ts:5 | a weak header never equals a strong one |
| `WeakETag.IntegerRevision` | src/services/weak-etag.ts:5 | an integer revision prints in decimal after `W/`; 5 gives `"W/5"` |
| `WeakETag.FromRevisionInjective` | src/services/weak-etag.ts:5 | distinct revisions give distinct headers |

## Left out

- React itself: re-rendering, stale closures inside handlers, `useCallback`/`useMemo` identity and effects other than the text field's default re-sync. Each operation applies at once to the hook's state.
- Event objects: the hooks read `currentTarget.value`, `valueAsNumber`, `validity.valid`, `files` and `animationName`, which are parameters here; `preventDefault` in `trigger` and `handleSubmit` is not modelled.
- Floating point: a finite number is the decimal it prints as; rounding is not modelled, and `String(n)` is modelled without the exponent form JavaScript uses below 1e-6 and from 1e21 up.
- `useMutation`: `perform` runs outside the model (its outcome is a parameter); the `onSuccess`/`onError` callbacks are assumed not to throw; the `autoResetDelayMs` timer and `handleSubmit` are not modelled; the reducer's "unknown action" throw cannot arise with a closed action type.
- `useFile`: the `preview` object URL is not modelled; `maxSizeBytes` is an integer or missing (a `NaN` limit is not modelled); a `File` is its name and size.
- `useExitAction`: `action` is counted (`actionCalls`), not run.
- `pluralize`: `polishPlurals` is a parameter and the `console.warn` for unsupported languages is not modelled.
- `translate`: the translations context, `useLanguage` and `usePluralize` are not modelled; the placeholder is matched as literal text, which is what `new RegExp("{{name}}", "g")` does only when the name holds no regular-expression metacharacter and is not a run of digits, `digits,` or `digits,digits` (which turn `{name}` into a quantifier, so `{{0}}` matches the lone `}`s instead); such names and `$` patterns in replacement values are not modelled, `Object.entries` order is the order of the given list, and inherited object properties of the translation table are not modelled; `console.warn` is not modelled.
- The DOM and event-wiring hooks, cookie, clipboard and network helpers, `use-field.ts` and `use-client-filter.ts` (wrappers of a module that is not part of this model) are not part of this model.
