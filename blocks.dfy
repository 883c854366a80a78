/** The list of bill blocks held by the `App` component: its initial value, the
    three updaters passed to `setBlocks` (add, change, close), and the two
    derived queries that decide whether "Add Another Bill" is enabled. Each
    updater is a function from the previous list to the next one, as in the
    source; `BillList` holds the current list. */
module Blocks {
  import opened Entries
  import AmountText

  /** `BLOCKS_LIMIT_MAX`: the button is disabled once this many blocks exist. */
  const BlocksLimitMax := 5

  /** The state `useState` starts from: one default block. */
  function Initial(): (s: seq<Entry>)
    ensures |s| == 1 && s[0] == CreateProperties()
    ensures !Complete(s[0])
  {
    [CreateProperties()]
  }

  /** `handleAddBlocks`: a default block is appended after the existing ones.
      Nothing here bounds the length; the bound lives in `CanAddBlock`. */
  function AddBlock(s: seq<Entry>): (r: seq<Entry>)
    ensures |r| == |s| + 1
    ensures r[..|s|] == s
    ensures r[|s|] == CreateProperties()
  {
    s + [CreateProperties()]
  }

  /** `handleChange(index, property)`: the block at `index` becomes
      `{ ...current, ...property }`; the blocks before and after it are
      copied over by `slice`. */
  function Change(s: seq<Entry>, index: nat, p: Patch): (r: seq<Entry>)
    requires index < |s|
    ensures |r| == |s|
    ensures r[index] == Merge(s[index], p)
    ensures forall j :: 0 <= j < |s| && j != index ==> r[j] == s[j]
  {
    s[..index] + [Merge(s[index], p)] + s[index + 1..]
  }

  /** `handleClose(index)`: the block at `index` is dropped and the ones after it
      move down one place. */
  function Close(s: seq<Entry>, index: nat): (r: seq<Entry>)
    requires index < |s|
    ensures |r| == |s| - 1
    ensures r[..index] == s[..index]
    ensures forall j :: index <= j < |r| ==> r[j] == s[j + 1]
  {
    s[..index] + s[index + 1..]
  }

  /** `checkAddBlockBtn`: `blocks.every(...)` written as the recursion over the
      list that `every` performs; its contract is the quantified reading. */
  function CheckAddBlockBtn(s: seq<Entry>): (ok: bool)
    ensures ok <==> forall i :: 0 <= i < |s| ==> Complete(s[i])
  {
    if s == [] then true
    else Complete(s[0]) && CheckAddBlockBtn(s[1..])
  }

  /** `canAddBlock`: every block complete and fewer than `BLOCKS_LIMIT_MAX`
      blocks. */
  function CanAddBlock(s: seq<Entry>): (ok: bool)
    ensures |s| >= BlocksLimitMax ==> !ok
    ensures ok <==> |s| < BlocksLimitMax && forall i :: 0 <= i < |s| ==> Complete(s[i])
  {
    CheckAddBlockBtn(s) && |s| < BlocksLimitMax
  }

  /** The button is disabled at the start: the one default block has no date. */
  lemma InitialCannotAdd()
    ensures !CheckAddBlockBtn(Initial()) && !CanAddBlock(Initial())
  {
  }

  /** Right after a block is added the button is disabled again, whatever the
      list held before: the new block is the incomplete default. */
  lemma AddBlockDisablesButton(s: seq<Entry>)
    ensures !CheckAddBlockBtn(AddBlock(s))
    ensures !CanAddBlock(AddBlock(s))
  {
  }

  /** Adding only while the button is enabled keeps the list within the limit. */
  lemma AddBlockWithinLimit(s: seq<Entry>)
    requires CanAddBlock(s)
    ensures |AddBlock(s)| <= BlocksLimitMax
  {
  }

  /** Closing the block just added gives back the list it was added to. */
  lemma CloseUndoesAdd(s: seq<Entry>)
    ensures Close(AddBlock(s), |s|) == s
  {
    assert Close(AddBlock(s), |s|) == AddBlock(s)[..|s|];
  }

  /** Closing removes exactly one block, the one at `index`, and keeps all
      the others. */
  lemma CloseRemovesOne(s: seq<Entry>, index: nat)
    requires index < |s|
    ensures multiset(Close(s, index)) + multiset{s[index]} == multiset(s)
  {
    assert s == s[..index] + [s[index]] + s[index + 1..];
  }

  /** Closing a block of a list whose blocks are all complete leaves a list
      whose blocks are all complete. */
  lemma CloseKeepsCheck(s: seq<Entry>, index: nat)
    requires index < |s| && CheckAddBlockBtn(s)
    ensures CheckAddBlockBtn(Close(s, index))
  {
  }

  /** After a change, every block is complete exactly when the changed block is
      complete and all the other blocks already were. */
  lemma ChangeCheck(s: seq<Entry>, index: nat, p: Patch)
    requires index < |s|
    ensures CheckAddBlockBtn(Change(s, index, p)) <==>
      Complete(Merge(s[index], p)) &&
      forall j :: 0 <= j < |s| && j != index ==> Complete(s[j])
  {
    var r := Change(s, index, p);
    if Complete(Merge(s[index], p)) && forall j :: 0 <= j < |s| && j != index ==> Complete(s[j]) {
      forall i | 0 <= i < |r| ensures Complete(r[i]) {
        if i != index { assert r[i] == s[i]; }
      }
    }
  }

  /** An edit with no field in it changes nothing. */
  lemma ChangeEmpty(s: seq<Entry>, index: nat)
    requires index < |s|
    ensures Change(s, index, EmptyPatch()) == s
  {
    MergeEmpty(s[index]);
  }

  /** Two edits of the same block are one edit with the combined fields. */
  lemma ChangeTwice(s: seq<Entry>, index: nat, p: Patch, q: Patch)
    requires index < |s|
    ensures Change(Change(s, index, p), index, q) == Change(s, index, Combine(p, q))
  {
    MergeCombine(s[index], p, q);
  }

  /** Edits of two different blocks do not interfere: either order gives the
      same list. */
  lemma ChangesCommute(s: seq<Entry>, i: nat, j: nat, p: Patch, q: Patch)
    requires i < |s| && j < |s| && i != j
    ensures Change(Change(s, i, p), j, q) == Change(Change(s, j, q), i, p)
  {
  }

  /** A one-field edit of block `index` alters that field of that block and
      nothing else in the list. */
  lemma ChangeOneField(s: seq<Entry>, index: nat, f: Field, v: Value)
    requires index < |s|
    requires f == When <==> v.Day?
    ensures var p := if f == When then DatePatch(v.day) else TextPatch(f, v.text);
      var r := Change(s, index, p);
      |r| == |s| &&
      Get(r[index], f) == v &&
      (forall g: Field :: g != f ==> Get(r[index], g) == Get(s[index], g)) &&
      (forall j :: 0 <= j < |s| && j != index ==> r[j] == s[j])
  {
    OneFieldEdit(s[index], f, v);
  }

  /** Filling in all six fields of the initial block enables the button; adding
      a block then gives two blocks, the second the default, and disables the
      button again. */
  lemma FillThenAdd(p: Patch)
    requires p.amount.Some? && |p.amount.value| > 0
    requires p.fromAccount.Some? && |p.fromAccount.value| > 0
    requires p.payee.Some? && |p.payee.value| > 0
    requires p.date.Some? && p.date.value.Some?
    requires p.repeat.Some? && |p.repeat.value| > 0
    requires p.note.Some? && |p.note.value| > 0
    ensures CanAddBlock(Change(Initial(), 0, p))
    ensures var t := AddBlock(Change(Initial(), 0, p));
      |t| == 2 && t[1] == CreateProperties() && !CanAddBlock(t)
  {
    AddBlockDisablesButton(Change(Initial(), 0, p));
  }

  /** Completeness asks only for a non-empty amount: a block whose amount is
      "abc" counts as complete, although the amount field shows it as empty. */
  lemma CompleteIgnoresAmountFormat(d: Date)
    ensures var e := Entry("abc", "1200", "London Hydro", Some(d), "2", "rent");
      Complete(e) && CheckAddBlockBtn([e]) && AmountText.GetAmountNumber(e.amount) == ""
  {
    AmountText.MatchesIffPattern("abc");
  }

  /** The button is not disabled for good: some edit of the first block enables
      it. */
  lemma ButtonCanBeEnabled()
    ensures exists p: Patch :: CanAddBlock(Change(Initial(), 0, p))
  {
    var d: Date :| true;
    var p := Patch(Some("12.50"), Some("1200"), Some("London Hydro"), Some(Some(d)), Some("2"), Some("rent"));
    FillThenAdd(p);
  }

  /** One user action on the list. */
  datatype Action = Add | Edit(index: nat, patch: Patch) | Remove(index: nat)

  /** When an action can be issued: "Add Another Bill" only while `CanAddBlock`
      holds (the button is disabled otherwise); an edit or a removal only for a
      block that is on screen. */
  predicate Enabled(s: seq<Entry>, a: Action)
  {
    match a
    case Add => CanAddBlock(s)
    case Edit(i, _) => i < |s|
    case Remove(i) => i < |s|
  }

  /** The list after one enabled action. */
  function Step(s: seq<Entry>, a: Action): seq<Entry>
    requires Enabled(s, a)
  {
    match a
    case Add => AddBlock(s)
    case Edit(i, p) => Change(s, i, p)
    case Remove(i) => Close(s, i)
  }

  /** Every action of `acts`, in turn, is enabled in the list it is applied to. */
  predicate Feasible(s: seq<Entry>, acts: seq<Action>)
    decreases |acts|
  {
    acts == [] || (Enabled(s, acts[0]) && Feasible(Step(s, acts[0]), acts[1..]))
  }

  /** The list after a feasible run of actions. */
  function Run(s: seq<Entry>, acts: seq<Action>): seq<Entry>
    requires Feasible(s, acts)
    decreases |acts|
  {
    if acts == [] then s else Run(Step(s, acts[0]), acts[1..])
  }

  /** No enabled action takes a list within the limit beyond it. */
  lemma StepWithinLimit(s: seq<Entry>, a: Action)
    requires |s| <= BlocksLimitMax && Enabled(s, a)
    ensures |Step(s, a)| <= BlocksLimitMax
  {
  }

  /** Any run of enabled actions keeps a list within the limit within it. */
  lemma {:induction false} RunWithinLimit(s: seq<Entry>, acts: seq<Action>)
    requires |s| <= BlocksLimitMax && Feasible(s, acts)
    ensures |Run(s, acts)| <= BlocksLimitMax
    decreases |acts|
  {
    if acts != [] {
      StepWithinLimit(s, acts[0]);
      RunWithinLimit(Step(s, acts[0]), acts[1..]);
    }
  }

  /** Every list the user can reach from the initial one holds at most
      `BLOCKS_LIMIT_MAX` blocks. */
  lemma ReachableWithinLimit(acts: seq<Action>)
    requires Feasible(Initial(), acts)
    ensures |Run(Initial(), acts)| <= BlocksLimitMax
  {
    RunWithinLimit(Initial(), acts);
  }

  /** The `blocks` state of the component. Every update replaces the whole list
      with the updater's result. */
  class BillList {
    var blocks: seq<Entry>

    /** The bound the disabled button maintains. */
    ghost predicate Valid()
      reads this
    {
      |blocks| <= BlocksLimitMax
    }

    constructor ()
      ensures blocks == Initial() && Valid()
    {
      blocks := Initial();
    }

    /** Whether "Add Another Bill" is enabled. */
    function CanAdd(): (ok: bool)
      reads this
      ensures ok <==> CanAddBlock(blocks)
    {
      CanAddBlock(blocks)
    }

    /** A click on the enabled "Add Another Bill" button. */
    method AddBlocks()
      requires Valid() && CanAdd()
      modifies this
      ensures Valid()
      ensures blocks == old(blocks) + [CreateProperties()]
      ensures !CanAdd()
    {
      blocks := AddBlock(blocks);
      AddBlockDisablesButton(old(blocks));
    }

    /** An edit coming from the block at `index`. */
    method HandleChange(index: nat, p: Patch)
      requires Valid() && index < |blocks|
      modifies this
      ensures Valid()
      ensures |blocks| == old(|blocks|)
      ensures blocks[index] == Merge(old(blocks[index]), p)
      ensures forall j :: 0 <= j < |blocks| && j != index ==> blocks[j] == old(blocks[j])
    {
      blocks := Change(blocks, index, p);
    }

    /** A click on the close icon of the block at `index`. */
    method HandleClose(index: nat)
      requires Valid() && index < |blocks|
      modifies this
      ensures Valid()
      ensures blocks == old(blocks[..index] + blocks[index + 1..])
    {
      blocks := Close(blocks, index);
    }

    /** The amount the block at `index` shows. */
    function ShownAmount(index: nat): (a: string)
      reads this
      requires index < |blocks|
      ensures AmountText.AmountPattern(blocks[index].amount) ==> a == blocks[index].amount
      ensures !AmountText.AmountPattern(blocks[index].amount) ==> a == ""
      ensures AmountText.AmountPattern(a)
    {
      AmountText.GetAmountNumberIdempotent(blocks[index].amount);
      AmountText.GetAmountNumber(blocks[index].amount)
    }
  }
}
