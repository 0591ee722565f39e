# Preference form of the strategy recommender

This project models the preference form of a small client-side recommender of
no-investment income strategies. The user chooses weekly hours (a slider from
1 to 15), a skill level (beginner, intermediate, advanced) and the leverage
factors they can use (skills, time, network, content, automation). The form
keeps the current preferences. Every change is merged into them, stored, and
handed to the page through an `onChange` callback.

The model lives in module `PreferenceForm` (file `PreferenceForm.dfy`); the
`Option` type is in module `Wrappers`.

- `Lever`, `SkillLevel`, `Preferences` and `PartialPreferences` are the value
  types. In `PartialPreferences`, a field the update does not mention is `None`.
- `Merge` overlays a partial update on the current preferences.
- `Toggle` is the leverage toggle. It appends an inactive lever and removes
  an active one. It refuses to remove the only selected lever, returning
  `None` for "no update is issued". `Without` is its removal step: a filter
  that keeps the order of the remaining levers.
- `SkillLabel` and `LeverLabel` are the Italian display labels.
- Class `Form` is the component's state. `preferences` is the stored record
  and `emitted` is the list of records handed to `onChange`, oldest first.
  `Update` is the merge-store-notify step. `SelectHours`, `SelectSkill` and
  `ClickLever` are the three controls' handlers.

The invariant the form keeps is `ValidPreferences`: hours within 1..15, and
at least one lever with none selected twice. `ClickLever` preserves it
(through `ToggleKeepsValid`), and so do the two other handlers.

The floor of one lever depends on the selection having no repeats.
`ToggleEmptiesRepeatedLever` shows that a selection holding the same lever
twice is emptied by one click. The form's own controls never build such a
selection. The default selection has no repeats.

The selection is an ordered list in the code, not a set. The model keeps the
list, so order facts can be stated: an added lever goes at the end, and a
removed lever leaves the others in their order. The help text under the
lever buttons (app/src/components/PreferenceForm.tsx:119-121) asks for at
least two levers. The code refuses only the removal of the last one, and the
model follows the code.

## Model

| member | source | states |
|---|---|---|
| `PreferenceForm.DefaultPreferencesValid` | app/src/components/PreferenceForm.tsx:11-15 | the default preferences have 4 hours, inside the slider's 1..15 range, and three distinct levers |
| `PreferenceForm.Merge` | app/src/components/PreferenceForm.tsx:24-27 | each field of the result comes from the partial update when the update mentions it, and from the current preferences otherwise |
| `PreferenceForm.MergeNothing` | app/src/components/PreferenceForm.tsx:24-27 | an update that mentions no field leaves the preferences unchanged |
| `PreferenceForm.MergeIdempotent` | app/src/components/PreferenceForm.tsx:24-27 | applying the same partial update twice gives the same record as applying it once |
| `PreferenceForm.MergeOneField` | app/src/components/PreferenceForm.tsx:23-30 | an update naming only hours, only skill or only leverage changes that field and keeps the other two |
| `PreferenceForm.Without` | app/src/components/PreferenceForm.tsx:138 | the filtered list holds every other lever as often as before and the removed lever not at all |
| `PreferenceForm.WithoutConcat` | app/src/components/PreferenceForm.tsx:138 | filtering a concatenation is concatenating the filtered parts, so the remaining levers keep their relative order |
| `PreferenceForm.WithoutAbsent` | app/src/components/PreferenceForm.tsx:138 | filtering out a lever that is not in the list returns the list unchanged |
| `PreferenceForm.WithoutAt` | app/src/components/PreferenceForm.tsx:137-138 | in a list without repeats, filtering out the lever at index i gives the list with position i cut out |
| `PreferenceForm.WithoutDistinct` | app/src/components/PreferenceForm.tsx:138 | filtering never introduces a repeated lever |
| `PreferenceForm.Toggle` | app/src/components/PreferenceForm.tsx:128-141 | no update is issued exactly when the list is the clicked lever alone; otherwise the clicked lever's membership flips and every other lever's membership is kept |
| `PreferenceForm.ToggleAppendsInactive` | app/src/components/PreferenceForm.tsx:137-139 | clicking an inactive lever gives a list one longer whose earlier entries are the old list and whose last entry is the lever |
| `PreferenceForm.ToggleRefusesLast` | app/src/components/PreferenceForm.tsx:133-136 | clicking the only selected lever issues no update |
| `PreferenceForm.ToggleRemovesActive` | app/src/components/PreferenceForm.tsx:137-138 | with two or more distinct levers selected, clicking the one at index i gives the old list with position i cut out |
| `PreferenceForm.ToggleLength` | app/src/components/PreferenceForm.tsx:133-140 | on a list without repeats, an issued update is one shorter when the lever was active and one longer when it was not |
| `PreferenceForm.ToggleKeepsDistinct` | app/src/components/PreferenceForm.tsx:133-139 | a list without repeats stays without repeats, because a lever is appended only when it is absent |
| `PreferenceForm.ToggleKeepsNonEmpty` | app/src/components/PreferenceForm.tsx:134-140 | on a list without repeats, every issued update has at least one lever, even when the list was empty |
| `PreferenceForm.ToggleKeepsValid` | app/src/components/PreferenceForm.tsx:133-140 | a non-empty list without repeats stays non-empty and without repeats |
| `PreferenceForm.ToggleEmptiesRepeatedLever` | app/src/components/PreferenceForm.tsx:134-138 | a list holding one lever twice is emptied by clicking that lever, so the floor of one needs distinct levers |
| `PreferenceForm.ToggleUndoesAdd` | app/src/components/PreferenceForm.tsx:137-139 | on a non-empty list, adding an inactive lever and clicking it again restores the original list exactly |
| `PreferenceForm.ToggleReAddMovesToEnd` | app/src/components/PreferenceForm.tsx:137-139 | removing an active lever and clicking it again puts it at the end of the remaining levers |
| `PreferenceForm.SkillLabel` | app/src/components/PreferenceForm.tsx:143-152 | every skill level has a non-empty label |
| `PreferenceForm.LeverLabel` | app/src/components/PreferenceForm.tsx:154-167 | every lever has a non-empty label |
| `PreferenceForm.SkillLabelInjective` | app/src/components/PreferenceForm.tsx:143-152 | distinct skill levels get distinct labels |
| `PreferenceForm.LeverLabelInjective` | app/src/components/PreferenceForm.tsx:154-167 | distinct levers get distinct labels |
| `PreferenceForm.Form.constructor` | app/src/components/PreferenceForm.tsx:17-21 | the form starts from the given preferences, or from the valid defaults when none are given, with nothing handed to the page yet |
| `PreferenceForm.Form.Update` | app/src/components/PreferenceForm.tsx:23-30 | the stored preferences become the merge of the old ones with the update, and exactly that record is appended to what was handed to the page |
| `PreferenceForm.Form.SelectHours` | app/src/components/PreferenceForm.tsx:48-56 | moving the slider replaces the hours only, notifies the page with the new record, and keeps valid preferences valid |
| `PreferenceForm.Form.SelectSkill` | app/src/components/PreferenceForm.tsx:69-82 | choosing a skill level replaces the level only, notifies the page with the new record, and keeps valid preferences valid |
| `PreferenceForm.Form.ClickLever` | app/src/components/PreferenceForm.tsx:109-111 | clicking the only selected lever changes nothing and notifies nobody; any other click stores the toggled list and notifies the page; valid preferences stay valid |

## Left out

- The matching and ranking of strategies (`getMatchingStrategies` in `@/lib/recommendation`) and the strategy catalog with its types (`@/data/strategies`) are not part of this model. The value types here are inferred from how the form uses them.
- JSX rendering, CSS classes, the "active" highlighting of buttons and the React hooks. `useState` becomes the `preferences` field of `Form`.
- The `onChange` callback is foreign code. It is modelled as the `emitted` log of the records handed over; what the page does with them is not modelled.
- The slider's conversion `Number(event.target.value)`. `SelectHours` takes an integer in 1..15 as a precondition.
- A partial update that sets a key to `undefined` explicitly. Such a key would overwrite the field in the spread; the model treats every key as either present with a value or absent.
- The other components (page layout, strategy cards, plan summary), their label tables and the static content arrays of the page. They are display only.
