# Bill-entry list of the bill-payment form

The `App` component of `src/App.tsx` lets a user draft several recurring
bill payments at once. Each draft ("block") has six fields: amount, source
account, payee, date, repeat cadence and note. The component keeps the list
of blocks in React state. It starts with one default block. A block can be
appended with "Add Another Bill", edited one field at a time, or closed.
"Add Another Bill" is enabled only while every block is complete and fewer
than five blocks exist. The amount a block shows is filtered through the
regular expression `/^\d*\.?\d*$/`.

This project models that list in Dafny:

- `entry.dfy` (module `Entries`) holds the block record (`EditableProps`)
  and the default block (`createProperties`). It also holds the partial
  record an edit carries (`Partial<EditableProps>`), the object spread that
  applies it, and the per-block completeness test.
- `amount.dfy` (module `AmountText`) holds `getAmountNumber`. The regular
  expression is given twice: once as a description of the strings it
  accepts, once as a left-to-right scan. The two are proved to agree.
- `blocks.dfy` (module `Blocks`) holds the initial list and the three
  updaters handed to `setBlocks`, as functions from the previous list to
  the next. It also holds `checkAddBlockBtn` and `canAddBlock`, and a model
  of user actions whose runs are proved to stay within five blocks. The
  class `BillList` holds the current list, like the `blocks` state
  variable.

A date is an abstract type. The code only ever asks whether a date is
present (`null` is `None`).

## Model

| member | source | states |
|---|---|---|
| `Entries.Merge` | src/App.tsx:229 | every field present in the partial record is taken from it; every absent field keeps the block's old value |
| `Entries.Combine` | src/App.tsx:229 | spreading two partial records one after the other: the later one's fields win, the earlier one supplies the rest |
| `Entries.MergeEmpty` | src/App.tsx:229 | spreading an empty partial record leaves the block unchanged |
| `Entries.MergeIdempotent` | src/App.tsx:229 | spreading the same partial record twice equals spreading it once |
| `Entries.MergeCombine` | src/App.tsx:229 | two successive edits of one block equal one edit with the combined partial record |
| `Entries.TextPatch` | src/App.tsx:97-102 | the partial record for an edit of a text field holds that field with the new text and no other field |
| `Entries.DatePatch` | src/App.tsx:97-102 | the partial record from the date picker holds the date, possibly null, and no other field |
| `Entries.OneFieldEdit` | src/App.tsx:97-102 | a one-field edit sets that field to the new value and leaves the other five fields unchanged |
| `Entries.CreateProperties` | src/App.tsx:53-60 | the default block has amount "0.00", a null date and the four other fields empty, so it is not complete |
| `Entries.Complete` | src/App.tsx:203-209 | the per-block test of `checkAddBlockBtn` holds exactly when no field of the block is unset (an empty string or a null date) |
| `Entries.ChecksCoverAllFields` | src/App.tsx:204-209 | the six tests name every field once: together they hold exactly when no field is unset |
| `AmountText.MatchesIffPattern` | src/App.tsx:243 | the scan accepts a string exactly when it is a run of ASCII digits, or two such runs around a single dot |
| `AmountText.GetAmountNumber` | src/App.tsx:243 | a string that matches the pattern is returned unchanged; any other string gives "" |
| `AmountText.GetAmountNumberIdempotent` | src/App.tsx:243 | the filtered amount always matches the pattern, so filtering it again changes nothing |
| `AmountText.GetAmountNumberExamples` | src/App.tsx:243 | "12.5", "." , "" and "0.00" are kept; "12.5.6" and "abc" become "" |
| `Blocks.Initial` | src/App.tsx:214-216 | the list starts with exactly one block, the default one, and that block is incomplete |
| `Blocks.AddBlock` | src/App.tsx:218-222 | the list grows by one, the earlier blocks are unchanged, and the new last block is the default one |
| `Blocks.Change` | src/App.tsx:224-231 | the length is kept, the block at the index becomes the old block with the partial record spread over it, and every other block is unchanged |
| `Blocks.Close` | src/App.tsx:233-239 | the length drops by one, the blocks before the index are unchanged, and each block after it moves down one place |
| `Blocks.CheckAddBlockBtn` | src/App.tsx:201-211 | the recursive `every` holds exactly when every block of the list is complete |
| `Blocks.CanAddBlock` | src/App.tsx:241-242 | adding is allowed exactly when every block is complete and fewer than five blocks exist; with five or more it is never allowed |
| `Blocks.InitialCannotAdd` | src/App.tsx:214-216 | the button starts disabled, because the one default block has no date |
| `Blocks.AddBlockDisablesButton` | src/App.tsx:218-222 | right after a block is added, the completeness check and the button are both off, whatever the list held before |
| `Blocks.AddBlockWithinLimit` | src/App.tsx:241-242 | adding while the button is enabled gives at most five blocks |
| `Blocks.CloseUndoesAdd` | src/App.tsx:233-239 | closing the block just added gives back the earlier list |
| `Blocks.CloseRemovesOne` | src/App.tsx:233-239 | closing removes exactly the block at the index: the multiset of blocks loses that one block and nothing else |
| `Blocks.CloseKeepsCheck` | src/App.tsx:233-239 | closing a block of an all-complete list leaves an all-complete list |
| `Blocks.ChangeCheck` | src/App.tsx:224-231 | after an edit every block is complete exactly when the edited block is and all the others already were |
| `Blocks.ChangeEmpty` | src/App.tsx:224-231 | an edit with no field in it leaves the list unchanged |
| `Blocks.ChangeTwice` | src/App.tsx:224-231 | two edits of one block equal one edit with the combined partial record |
| `Blocks.ChangesCommute` | src/App.tsx:224-231 | edits of two different blocks give the same list in either order |
| `Blocks.ChangeOneField` | src/App.tsx:224-231 | a one-field edit changes that field of that block only; the list length and every other block are unchanged |
| `Blocks.FillThenAdd` | src/App.tsx:241-242 | filling all six fields of the first block enables the button; adding then gives two blocks, the second the default, and disables it |
| `Blocks.ButtonCanBeEnabled` | src/App.tsx:241-242 | the button is not off for good: some edit of the first block of the initial list enables it |
| `Blocks.CompleteIgnoresAmountFormat` | src/App.tsx:201-211 | a block with amount "abc" and the other fields set counts as complete, although its shown amount is "" |
| `Blocks.StepWithinLimit` | src/App.tsx:271-276 | no enabled action (add while the button is enabled, edit or close of an existing block) takes a list of at most five blocks past five |
| `Blocks.RunWithinLimit` | src/App.tsx:271-276 | any run of enabled actions keeps a list of at most five blocks at most five long |
| `Blocks.ReachableWithinLimit` | src/App.tsx:51 | every list reachable from the initial one holds at most `BLOCKS_LIMIT_MAX` = 5 blocks |
| `Blocks.BillList.constructor` | src/App.tsx:214-216 | the state starts as the initial one-block list, within the limit |
| `Blocks.BillList.CanAdd` | src/App.tsx:241-242 | the button's enabled flag is `canAddBlock` of the current list |
| `Blocks.BillList.AddBlocks` | src/App.tsx:218-222 | a click on the enabled button appends the default block, keeps the limit, and leaves the button disabled |
| `Blocks.BillList.HandleChange` | src/App.tsx:224-231 | an edit replaces the block at the index by the merged block, keeps the length and every other block, and keeps the limit |
| `Blocks.BillList.HandleClose` | src/App.tsx:233-239 | a close replaces the list by the blocks before the index followed by those after it, and keeps the limit |
| `Blocks.BillList.ShownAmount` | src/App.tsx:261 | a block whose stored amount matches the pattern shows it unchanged, any other block shows ""; what is shown always matches the pattern |

## Left out

- React plumbing: `useState`, `setBlocks` and re-rendering. Each updater is a
  function from the previous list to the next, and `BillList` replaces its
  list wholesale.
- The `key` strings given to the rendered blocks. Position is the only
  identity of a block.
- Styling and layout: `Block`, `TextFieldStyled`, and the markup of
  `AmountBlock` and `App`.
- The option lists of the selects and the payee helper text. The model
  treats account, payee and cadence as opaque strings.
- The 31-character note limit (`CHARACTER_LIMIT`). It is only an input
  attribute. `handleChange` stores whatever it is given, so the model claims
  no bound on the note.
- Date semantics and the date picker. `Date` is abstract, because only a
  date's presence is inspected.
- Hiding the close icon on the first block (`hasCloseIcon`). It is a display
  choice; `handleClose` itself accepts index 0, and the model lets the list
  become empty.
- Out-of-range or negative indices. `slice` and spread would give results for
  them, but the rendered blocks only pass their own index. The model makes
  the index a precondition.
- A partial record whose key is present with the value `undefined`. The
  spread would then store `undefined`; the model's partial records hold
  either no value or a real one.
- `AddBlock`: `handleAddBlocks` appends without any check, so the list
  itself is not bounded. The five-block bound comes only from the disabled
  button. It is proved for runs of enabled actions (`ReachableWithinLimit`)
  and kept by `BillList`. A disabled button never fires, so "add" is
  unavailable in a list where `CanAddBlock` fails (`Enabled`), rather than a
  no-op.
