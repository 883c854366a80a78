/** One bill-payment draft (`EditableProps`), the default record handed out by
    `createProperties`, the partial records that edits carry, and the
    completeness test the "Add Another Bill" button is gated on. */
module Entries {

  datatype Option<+T> = None | Some(value: T)

  /** A picked calendar date. Only whether a date is present is ever looked at,
      so the value itself stays abstract; there is at least one date to pick. */
  type Date(00)

  /** The six fields of a bill entry. `date == None` is the source's `null`. */
  datatype Entry = Entry(
    amount: string,
    fromAccount: string,
    payee: string,
    date: Option<Date>,
    repeat: string,
    note: string)

  /** Names of the six fields, so that statements can range over all of them. */
  datatype Field = Amount | FromAccount | Payee | When | Repeat | Note

  /** The value of one field: the five text fields hold a string, the date field
      holds a possibly absent date. */
  datatype Value = Text(text: string) | Day(day: Option<Date>)

  /** A `Partial<EditableProps>`: each field is either absent (`None`) or present
      with its new value. A present date may itself be `None` (the source's
      `{ date: null }`), hence the nested option. */
  datatype Patch = Patch(
    amount: Option<string>,
    fromAccount: Option<string>,
    payee: Option<string>,
    date: Option<Option<Date>>,
    repeat: Option<string>,
    note: Option<string>)

  /** The entry every new block starts from: amount "0.00", no date, every other
      field empty. It is therefore not complete: only its amount is filled in. */
  function CreateProperties(): (e: Entry)
    ensures Get(e, Amount) == Text("0.00")
    ensures Get(e, When) == Day(None)
    ensures forall f: Field :: f != Amount && f != When ==> Get(e, f) == Text("")
    ensures !Complete(e)
  {
    Entry("0.00", "", "", None, "", "")
  }

  /** The value held in field `f` of `e`. */
  function Get(e: Entry, f: Field): Value
  {
    match f
    case Amount => Text(e.amount)
    case FromAccount => Text(e.fromAccount)
    case Payee => Text(e.payee)
    case When => Day(e.date)
    case Repeat => Text(e.repeat)
    case Note => Text(e.note)
  }

  /** The value `p` carries for field `f`, if `p` has that field at all. */
  function Lookup(p: Patch, f: Field): Option<Value>
  {
    match f
    case Amount => if p.amount.Some? then Some(Text(p.amount.value)) else None
    case FromAccount => if p.fromAccount.Some? then Some(Text(p.fromAccount.value)) else None
    case Payee => if p.payee.Some? then Some(Text(p.payee.value)) else None
    case When => if p.date.Some? then Some(Day(p.date.value)) else None
    case Repeat => if p.repeat.Some? then Some(Text(p.repeat.value)) else None
    case Note => if p.note.Some? then Some(Text(p.note.value)) else None
  }

  /** The patch with no field present (`{}`). */
  function EmptyPatch(): Patch
  {
    Patch(None, None, None, None, None, None)
  }

  /** Two entries agree on every field exactly when they are equal: the six
      fields are the whole record. */
  lemma FieldsDetermineEntry(e: Entry, e': Entry)
    requires forall f: Field :: Get(e, f) == Get(e', f)
    ensures e == e'
  {
    assert Get(e, Amount) == Get(e', Amount);
    assert Get(e, FromAccount) == Get(e', FromAccount);
    assert Get(e, Payee) == Get(e', Payee);
    assert Get(e, When) == Get(e', When);
    assert Get(e, Repeat) == Get(e', Repeat);
    assert Get(e, Note) == Get(e', Note);
  }

  /** `{ ...e, ...p }`: every field that `p` has is taken from `p`, every other
      field is kept from `e`. */
  function Merge(e: Entry, p: Patch): (r: Entry)
    ensures forall f: Field :: Lookup(p, f).Some? ==> Get(r, f) == Lookup(p, f).value
    ensures forall f: Field :: Lookup(p, f).None? ==> Get(r, f) == Get(e, f)
  {
    Entry(
      if p.amount.Some? then p.amount.value else e.amount,
      if p.fromAccount.Some? then p.fromAccount.value else e.fromAccount,
      if p.payee.Some? then p.payee.value else e.payee,
      if p.date.Some? then p.date.value else e.date,
      if p.repeat.Some? then p.repeat.value else e.repeat,
      if p.note.Some? then p.note.value else e.note)
  }

  /** `{ ...p, ...q }`: the fields of `q` win over those of `p`. */
  function Combine(p: Patch, q: Patch): (r: Patch)
    ensures forall f: Field :: Lookup(r, f) == if Lookup(q, f).Some? then Lookup(q, f) else Lookup(p, f)
  {
    Patch(
      if q.amount.Some? then q.amount else p.amount,
      if q.fromAccount.Some? then q.fromAccount else p.fromAccount,
      if q.payee.Some? then q.payee else p.payee,
      if q.date.Some? then q.date else p.date,
      if q.repeat.Some? then q.repeat else p.repeat,
      if q.note.Some? then q.note else p.note)
  }

  /** Spreading an empty object changes nothing. */
  lemma MergeEmpty(e: Entry)
    ensures Merge(e, EmptyPatch()) == e
  {
    FieldsDetermineEntry(Merge(e, EmptyPatch()), e);
  }

  /** Spreading the same patch twice is the same as spreading it once. */
  lemma MergeIdempotent(e: Entry, p: Patch)
    ensures Merge(Merge(e, p), p) == Merge(e, p)
  {
    FieldsDetermineEntry(Merge(Merge(e, p), p), Merge(e, p));
  }

  /** Two successive spreads are one spread of the combined patch. */
  lemma MergeCombine(e: Entry, p: Patch, q: Patch)
    ensures Merge(Merge(e, p), q) == Merge(e, Combine(p, q))
  {
    FieldsDetermineEntry(Merge(Merge(e, p), q), Merge(e, Combine(p, q)));
  }

  /** The one-field patch `{ [name]: value }` that an amount block sends for an
      edit of a text field. */
  function TextPatch(f: Field, s: string): (p: Patch)
    requires f != When
    ensures Lookup(p, f) == Some(Text(s))
    ensures forall g: Field :: g != f ==> Lookup(p, g).None?
  {
    match f
    case Amount => EmptyPatch().(amount := Some(s))
    case FromAccount => EmptyPatch().(fromAccount := Some(s))
    case Payee => EmptyPatch().(payee := Some(s))
    case Repeat => EmptyPatch().(repeat := Some(s))
    case Note => EmptyPatch().(note := Some(s))
  }

  /** The one-field patch `{ date: d }` that the date picker sends; `d` may be
      `None` when the picker is cleared. */
  function DatePatch(d: Option<Date>): (p: Patch)
    ensures Lookup(p, When) == Some(Day(d))
    ensures forall g: Field :: g != When ==> Lookup(p, g).None?
  {
    EmptyPatch().(date := Some(d))
  }

  /** A one-field edit sets that field and leaves the other five as they were. */
  lemma OneFieldEdit(e: Entry, f: Field, v: Value)
    requires f == When <==> v.Day?
    ensures var p := if f == When then DatePatch(v.day) else TextPatch(f, v.text);
      Get(Merge(e, p), f) == v &&
      forall g: Field :: g != f ==> Get(Merge(e, p), g) == Get(e, g)
  {
  }

  /** A field counts as unset when it holds the empty string or no date. */
  predicate Unset(v: Value)
  {
    v == Text("") || v == Day(None)
  }

  /** The completeness test applied to each block by `checkAddBlockBtn`: all
      five text fields non-empty and a date picked. The amount only has to be
      non-empty, not a well-formed number. */
  predicate Complete(e: Entry): (ok: bool)
    ensures ok <==> forall f: Field :: !Unset(Get(e, f))
  {
    ChecksCoverAllFields(e);
    |e.amount| > 0 && e.date.Some? && |e.note| > 0 && |e.payee| > 0 &&
    |e.fromAccount| > 0 && |e.repeat| > 0
  }

  /** The six tests of the completeness check name each field once: together
      they hold exactly when no field of the record is unset. */
  lemma ChecksCoverAllFields(e: Entry)
    ensures (|e.amount| > 0 && e.date.Some? && |e.note| > 0 && |e.payee| > 0 &&
             |e.fromAccount| > 0 && |e.repeat| > 0) <==>
            (forall f: Field :: !Unset(Get(e, f)))
  {
    if |e.amount| == 0 { assert Unset(Get(e, Amount)); }
    else if e.date.None? { assert Unset(Get(e, When)); }
    else if |e.note| == 0 { assert Unset(Get(e, Note)); }
    else if |e.payee| == 0 { assert Unset(Get(e, Payee)); }
    else if |e.fromAccount| == 0 { assert Unset(Get(e, FromAccount)); }
    else if |e.repeat| == 0 { assert Unset(Get(e, Repeat)); }
  }
}
