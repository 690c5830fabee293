# VirtualCall state slices in Dafny

VirtualCall is a React Native app that shows fake incoming calls. Its only
logic is three Redux Toolkit slices, each a pure `(state, action) -> state`
reducer:

- the **task store** holds the list of `ScheduledTask` records (fake calls
  planned for a time, possibly recurring);
- the **template store** holds the `CallTemplate` list (four built-in
  call-screen styles plus user templates);
- the **settings** slice holds the `AppSettings` singleton.

The model keeps each slice as an immutable value with a `Reduce` over an
action datatype. The task and template reducers are one function each, which
`Reduce` dispatches to; the six settings setters and `resetSettings` are the
arms of `SettingsSlice.Reduce`. The Immer draft writes in the
source become the returned value. The modules are:

- `Types` in `types.dfy`: the records.
- `SeqOps` in `seq_ops.dfy`: the array operations the reducers use. These are
  `findIndex`, `find`, `filter` and replacement of one position. A key
  projection drives each one.
- `TasksSlice`, `TemplatesSlice` and `SettingsSlice`: one module per slice
  file.

Ids are never assumed unique, because `addTask` and `addTemplate` never check
for duplicates. The contracts therefore say which match each reducer touches:
the first one for `findIndex`/`find`, every one for `filter`.

## Model

| member | source | states |
|---|---|---|
| SeqOps.FindIndexBy | VirtualCall/src/redux/slices/tasksSlice.ts:20 | `findIndex` returns -1 exactly when no element has the key; otherwise it returns an index that matches and before which nothing matches |
| SeqOps.FindBy | VirtualCall/src/redux/slices/templatesSlice.ts:55 | `find` returns nothing exactly when no element has the key; otherwise it returns a matching element with no earlier match |
| SeqOps.RemoveBy | VirtualCall/src/redux/slices/tasksSlice.ts:26 | the `!==` filter keeps exactly the elements whose key differs; length drops by the number of matching elements |
| SeqOps.ReplaceFirstBy | VirtualCall/src/redux/slices/tasksSlice.ts:19-24 | writing at the `findIndex` result changes only that position and keeps the length; with no match the list is unchanged |
| SeqOps.RemoveByIsSubsequence | VirtualCall/src/redux/slices/tasksSlice.ts:26 | the filter keeps the survivors in their original relative order |
| SeqOps.RemoveByAbsent | VirtualCall/src/redux/slices/tasksSlice.ts:26 | filtering by a key no element has returns the list unchanged |
| SeqOps.RemoveByIdempotent | VirtualCall/src/redux/slices/tasksSlice.ts:26 | filtering twice by the same key equals filtering once |
| SeqOps.RemoveByAppend | VirtualCall/src/redux/slices/tasksSlice.ts:26 | the filter distributes over concatenation |
| TasksSlice.AddTask | VirtualCall/src/redux/slices/tasksSlice.ts:16-18 | `addTask` grows the list by one; the payload goes last and every earlier task stays in place |
| TasksSlice.UpdateTask | VirtualCall/src/redux/slices/tasksSlice.ts:19-24 | `updateTask` replaces the first task with the payload's id, and only that one; with no such task the list is untouched |
| TasksSlice.RemoveTask | VirtualCall/src/redux/slices/tasksSlice.ts:25-27 | after `removeTask(id)` no task has the id; every other task survives; nothing new appears; length drops by the number of tasks with that id; the result is a subsequence of the input |
| TasksSlice.ToggleTaskActive | VirtualCall/src/redux/slices/tasksSlice.ts:28-33 | `toggleTaskActive` flips `isActive` of the first task with the id; all its other fields and every other task are unchanged; with an absent id it does nothing |
| TasksSlice.Reduce | VirtualCall/src/redux/slices/tasksSlice.ts:12-38 | `clearAllTasks` empties the list; only `addTask` grows the list; no action introduces an id other than its payload's |
| TasksSlice.InitialAndClear | VirtualCall/src/redux/slices/tasksSlice.ts:8-36 | the store starts empty (lines 8-10), and `clearAllTasks` (lines 34-36) returns it to that state from any state |
| TasksSlice.RemoveAbsentIsNoOp | VirtualCall/src/redux/slices/tasksSlice.ts:25-27 | removing an id no task carries leaves the list unchanged |
| TasksSlice.RemoveIdempotentAndOrdered | VirtualCall/src/redux/slices/tasksSlice.ts:25-27 | `removeTask` is idempotent and keeps the survivors in their relative order |
| TasksSlice.RemoveUndoesAdd | VirtualCall/src/redux/slices/tasksSlice.ts:16-27 | removing the id of a task just added equals removing that id before the add |
| TasksSlice.UpdateIdempotent | VirtualCall/src/redux/slices/tasksSlice.ts:19-24 | `updateTask` twice with the same payload equals once |
| TasksSlice.ToggleTwiceRestores | VirtualCall/src/redux/slices/tasksSlice.ts:28-33 | `toggleTaskActive` twice with the same id restores the original list |
| TemplatesSlice.DefaultTemplates | VirtualCall/src/redux/slices/templatesSlice.ts:9-34 | there are four built-in templates, with ids `ios`, `android`, `huawei`, `samsung` in that order; each style's name equals its id and none is `custom` |
| TemplatesSlice.AddTemplate | VirtualCall/src/redux/slices/templatesSlice.ts:44-46 | `addTemplate` appends the payload and leaves earlier templates in place |
| TemplatesSlice.UpdateTemplate | VirtualCall/src/redux/slices/templatesSlice.ts:47-52 | `updateTemplate` replaces only the first template with the payload's id; the length never changes; with an absent id it does nothing |
| TemplatesSlice.RemoveTemplate | VirtualCall/src/redux/slices/templatesSlice.ts:53-59 | `removeTemplate` does nothing if the id is absent or its first template is not `custom`; otherwise it drops every template with the id, one per occurrence |
| TemplatesSlice.ResetTemplates | VirtualCall/src/redux/slices/templatesSlice.ts:60-63 | after `resetTemplates` nothing is `custom`; every non-custom template is kept; nothing new appears; the length drops by exactly the number of custom templates; the result is a subsequence of the input, so duplicate entries are kept once per occurrence and in order |
| TemplatesSlice.Reduce | VirtualCall/src/redux/slices/templatesSlice.ts:40-65 | only `addTemplate` grows the list and `updateTemplate` keeps its length; a reset leaves no custom template; a removal from a list with no custom template is a no-op |
| TemplatesSlice.RemoveKeepsBuiltIns | VirtualCall/src/redux/slices/templatesSlice.ts:53-59 | a list with no `custom` template is never shrunk by `removeTemplate` |
| TemplatesSlice.RemoveFromInitialIsNoOp | VirtualCall/src/redux/slices/templatesSlice.ts:36-59 | no id removes anything from the initial list |
| TemplatesSlice.RemovePassedGuardIsFilter | VirtualCall/src/redux/slices/templatesSlice.ts:55-58 | when the first template with the id is `custom`, the result is the id filter; the survivors keep their order whatever their style |
| TemplatesSlice.RemoveDropsSharedIdBuiltIn | VirtualCall/src/redux/slices/templatesSlice.ts:55-57 | the guard inspects only the first match: an `ios`-style template sharing its id with an earlier custom one is removed too |
| TemplatesSlice.RemoveUndoesCustomAdd | VirtualCall/src/redux/slices/templatesSlice.ts:44-59 | a `custom` template added under a fresh id is removed again by `removeTemplate`, restoring the list |
| TemplatesSlice.ResetOrderedAndIdempotent | VirtualCall/src/redux/slices/templatesSlice.ts:60-63 | `resetTemplates` keeps the non-custom templates in their relative order and is idempotent |
| TemplatesSlice.RemoveAfterResetIsNoOp | VirtualCall/src/redux/slices/templatesSlice.ts:53-63 | after a reset no `removeTemplate` changes the list |
| TemplatesSlice.ResetInitialIsNoOp | VirtualCall/src/redux/slices/templatesSlice.ts:36-63 | resetting the initial list leaves it unchanged |
| TemplatesSlice.UpdateIdempotent | VirtualCall/src/redux/slices/templatesSlice.ts:47-52 | `updateTemplate` twice with the same payload equals once |
| SettingsSlice.Reduce | VirtualCall/src/redux/slices/settingsSlice.ts:17-35 | each setter writes its payload into its own field and leaves the other five unchanged; `resetSettings` returns the defaults whatever the prior state |
| SettingsSlice.InitialValues | VirtualCall/src/redux/slices/settingsSlice.ts:4-11 | the defaults are template `ios`, duration 30, vibration on, tutorial not completed, sound on, ringtone `default` |
| SettingsSlice.SetterIdempotent | VirtualCall/src/redux/slices/settingsSlice.ts:17-34 | a setter applied twice with the same payload equals applying it once |
| SettingsSlice.SettersOfDistinctFieldsCommute | VirtualCall/src/redux/slices/settingsSlice.ts:17-34 | setters of different fields commute |
| SettingsSlice.ReduceAllAppend | VirtualCall/src/redux/slices/settingsSlice.ts:13-37 | running two action sequences one after the other equals running their concatenation |
| SettingsSlice.ResetAfterAnything | VirtualCall/src/redux/slices/settingsSlice.ts:35 | any sequence of actions followed by `resetSettings` yields the defaults |
| SettingsSlice.DurationIsUnchecked | VirtualCall/src/redux/slices/settingsSlice.ts:20-22 | `setDefaultCallDuration` stores zero or a negative number as given |

## Left out

- Store wiring in `VirtualCall/src/redux/store.ts` is not modelled. This covers `combineReducers`, `redux-persist` with AsyncStorage, and the serializable-check middleware. It is library configuration with no logic of its own.
- Navigation, screens and app registration (`VirtualCall/src/navigation/index.tsx`, `App.tsx`, `index.js`) are not modelled. They are UI component trees, and every screen is a placeholder.
- Recurrence and firing of calls are not modelled. `RecurringPattern`, `isRecurring` and `scheduledTime` are plain data, and no code computes occurrences from them. No code in the app schedules or fires calls.
- `scheduledTime` is an opaque `Instant`, because the reducers only copy it. `Date` semantics are not modelled.
- `defaultCallDuration`, and the `days` and `date` fields of `RecurringPattern`, are unbounded integers. A JavaScript number can also be fractional, infinite or NaN, and floating point is not modelled. The reducers only copy `days` and `date`, so no behaviour depends on them.
- Validity rules that the records suggest are not assumed, because no reducer enforces them: unique ids, weekdays in 0..6, `isRecurring` only with a pattern, and a positive duration.
- Action creators and the action-type strings Redux Toolkit generates are not modelled. The `TaskAction`, `TemplateAction` and `SettingsAction` datatypes stand in for them.
