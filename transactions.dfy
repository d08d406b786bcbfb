/** Transactions, the payloads that create and change them, and the checks
    both trackers run before they write (add_transaction in both files,
    update_transaction in stop.py). Amounts are in cents. */
module Transactions {
  import opened Wrappers
  import opened Text
  import opened Dates

  datatype Kind = Income | Expense {
    /** The text stored in the `type` column. */
    function Name(): string {
      match this
      case Income => "income"
      case Expense => "expense"
    }
  }

  /** The kind a `type` value names; None unless it is "income" or "expense". */
  function KindNamed(s: string): (r: Option<Kind>)
    ensures r.Some? ==> r.value.Name() == s
    ensures r.None? <==> s != Income.Name() && s != Expense.Name()
  {
    if s == "income" then Some(Income)
    else if s == "expense" then Some(Expense)
    else None
  }

  /** One row of the transactions table. */
  datatype Transaction = Transaction(
    id: int,
    kind: Kind,
    amount: int,
    category: string,
    description: string,
    date: string,
    timestamp: string)

  /** What every stored row satisfies: the positive amount the table's
      CHECK constraint demands, and the zero-padded date the model's date
      check lets through (the schema itself has no date constraint). */
  predicate Stored(t: Transaction) {
    t.amount > 0 && IsIsoDate(t.date)
  }

  /** A value given for `amount`: a JSON number (in cents), or a string
      together with what Python's float() makes of it (None: it raises). */
  datatype AmountValue = Number(cents: int) | Numeral(text: string, parsed: Option<int>) {
    /** Python truthiness: 0 and "" are false. */
    predicate Truthy() {
      match this
      case Number(c) => c != 0
      case Numeral(t, _) => t != ""
    }

    /** float(value), in cents. */
    function ToCents(): Option<int> {
      match this
      case Number(c) => Some(c)
      case Numeral(_, p) => p
    }
  }

  /** The five fields a client supplies, in the order the checks visit them. */
  datatype Field = TypeField | AmountField | CategoryField | DescriptionField | DateField {
    function Rank(): nat {
      match this
      case TypeField => 0
      case AmountField => 1
      case CategoryField => 2
      case DescriptionField => 3
      case DateField => 4
    }
  }

  /** The ValueErrors the core raises. StorageError stands for a failure
      inside SQLite itself. */
  datatype Error =
    | MissingField(field: Field)
    | InvalidType
    | NotANumber
    | NonPositiveAmount
    | InvalidDate
    | NotFound
    | NoFieldsToUpdate
    | NotAList
    | NotAnObject
    | StorageError

  /** A JSON object sent to add_transaction: each of the five keys present
      (Some) or absent (None), and the names of any other keys, which the
      tracker ignores. */
  datatype Submission = Submission(
    kind: Option<string>,
    amount: Option<AmountValue>,
    category: Option<string>,
    description: Option<string>,
    date: Option<string>,
    otherKeys: set<string>)

  /** `field in data and data[field]` is true: present and truthy. */
  predicate Present(data: Submission, f: Field) {
    match f
    case TypeField => data.kind.Some? && data.kind.value != ""
    case AmountField => data.amount.Some? && data.amount.value.Truthy()
    case CategoryField => data.category.Some? && data.category.value != ""
    case DescriptionField => data.description.Some? && data.description.value != ""
    case DateField => data.date.Some? && data.date.value != ""
  }

  predicate AllPresent(data: Submission) {
    && Present(data, TypeField) && Present(data, AmountField) && Present(data, CategoryField)
    && Present(data, DescriptionField) && Present(data, DateField)
  }

  /** `f` is the first required field, in the order of the check loop,
      that is missing or empty. */
  predicate FirstMissing(data: Submission, f: Field) {
    !Present(data, f) && forall g: Field :: g.Rank() < f.Rank() ==> Present(data, g)
  }

  /** The checked fields of a new row, with category and description
      stripped as the INSERT stores them. */
  datatype Draft = Draft(kind: Kind, amount: int, category: string, description: string, date: string)

  /** The row an INSERT of `d` creates with the given id and clock reading. */
  function Row(d: Draft, id: int, now: string): (t: Transaction)
    ensures t.id == id && t.timestamp == now
    ensures t.kind == d.kind && t.amount == d.amount && t.date == d.date
    ensures t.category == d.category && t.description == d.description
  {
    Transaction(id, d.kind, d.amount, d.category, d.description, d.date, now)
  }

  /** A submission add_transaction accepts: every field present, a known
      type, an amount float() reads and that is above zero, and a
      zero-padded calendar date. */
  predicate Acceptable(data: Submission) {
    && AllPresent(data)
    && KindNamed(data.kind.value).Some?
    && data.amount.value.ToCents().Some?
    && data.amount.value.ToCents().value > 0
    && IsIsoDate(data.date.value)
  }

  /** The checks of add_transaction, in their order: the required-field
      loop, the type, float(amount), amount > 0, the date. On success the
      draft holds the stripped category and description. */
  function CheckSubmission(data: Submission): (r: Result<Draft, Error>)
    ensures r.Ok? <==> Acceptable(data)
    ensures forall f: Field :: r == Err(MissingField(f)) <==> FirstMissing(data, f)
    ensures r == Err(InvalidType) <==> AllPresent(data) && KindNamed(data.kind.value).None?
    ensures r == Err(NotANumber) <==>
      AllPresent(data) && KindNamed(data.kind.value).Some? && data.amount.value.ToCents().None?
    ensures r == Err(NonPositiveAmount) <==>
      && AllPresent(data) && KindNamed(data.kind.value).Some?
      && data.amount.value.ToCents().Some? && data.amount.value.ToCents().value <= 0
    ensures r == Err(InvalidDate) <==>
      && AllPresent(data) && KindNamed(data.kind.value).Some?
      && data.amount.value.ToCents().Some? && data.amount.value.ToCents().value > 0
      && !IsIsoDate(data.date.value)
    ensures r.Ok? ==>
      && r.value.kind.Name() == data.kind.value
      && r.value.amount == data.amount.value.ToCents().value && r.value.amount > 0
      && r.value.category == Strip(data.category.value)
      && r.value.description == Strip(data.description.value)
      && r.value.date == data.date.value
  {
    if !Present(data, TypeField) then Err(MissingField(TypeField))
    else if !Present(data, AmountField) then Err(MissingField(AmountField))
    else if !Present(data, CategoryField) then Err(MissingField(CategoryField))
    else if !Present(data, DescriptionField) then Err(MissingField(DescriptionField))
    else if !Present(data, DateField) then Err(MissingField(DateField))
    else
      match KindNamed(data.kind.value)
      case None => Err(InvalidType)
      case Some(kind) =>
        match data.amount.value.ToCents()
        case None => Err(NotANumber)
        case Some(amount) =>
          if amount <= 0 then Err(NonPositiveAmount)
          else if !IsIsoDate(data.date.value) then Err(InvalidDate)
          else Ok(Draft(kind, amount, Strip(data.category.value), Strip(data.description.value), data.date.value))
  }

  /** The JSON object sent to update_transaction: which of the five keys it
      carries (presence, not truthiness, is what the update checks), and
      the names of any other keys, which it ignores. */
  datatype Changes = Changes(
    kind: Option<string>,
    amount: Option<AmountValue>,
    category: Option<string>,
    description: Option<string>,
    date: Option<string>,
    otherKeys: set<string>)

  predicate NoKnownKey(c: Changes) {
    c.kind.None? && c.amount.None? && c.category.None? && c.description.None? && c.date.None?
  }

  /** The checked changes: the kind and amount parsed, the rest as given. */
  datatype Patch = Patch(
    kind: Option<Kind>,
    amount: Option<int>,
    category: Option<string>,
    description: Option<string>,
    date: Option<string>)

  /** Changes update_transaction accepts once the id is known to exist. */
  predicate ChangesAcceptable(c: Changes) {
    && (c.amount.Some? ==> c.amount.value.ToCents().Some? && c.amount.value.ToCents().value > 0)
    && (c.kind.Some? ==> KindNamed(c.kind.value).Some?)
    && (c.date.Some? ==> IsIsoDate(c.date.value))
    && !NoKnownKey(c)
  }

  /** The value checks of update_transaction, in their order: float(amount)
      and amount > 0, the type, the date. Only keys that are present are
      checked; on success the patch holds the parsed kind and amount and
      the other values as given. */
  function CheckValues(c: Changes): (r: Result<Patch, Error>)
    ensures r.Ok? <==>
      && (c.amount.Some? ==> c.amount.value.ToCents().Some? && c.amount.value.ToCents().value > 0)
      && (c.kind.Some? ==> KindNamed(c.kind.value).Some?)
      && (c.date.Some? ==> IsIsoDate(c.date.value))
    ensures r == Err(NotANumber) <==> c.amount.Some? && c.amount.value.ToCents().None?
    ensures r == Err(NonPositiveAmount) <==>
      c.amount.Some? && c.amount.value.ToCents().Some? && c.amount.value.ToCents().value <= 0
    ensures r == Err(InvalidType) <==>
      && (c.amount.Some? ==> c.amount.value.ToCents().Some? && c.amount.value.ToCents().value > 0)
      && c.kind.Some? && KindNamed(c.kind.value).None?
    ensures r.Err? ==> r.error in {NotANumber, NonPositiveAmount, InvalidType, InvalidDate}
    ensures r.Ok? ==>
      && (r.value.kind.Some? <==> c.kind.Some?)
      && (r.value.kind.Some? ==> r.value.kind.value.Name() == c.kind.value)
      && (r.value.amount.Some? <==> c.amount.Some?)
      && (r.value.amount.Some? ==> r.value.amount.value > 0 && Some(r.value.amount.value) == c.amount.value.ToCents())
      && r.value.category == c.category
      && r.value.description == c.description
      && r.value.date == c.date
      && (r.value.date.Some? ==> IsIsoDate(r.value.date.value))
  {
    if c.amount.Some? && c.amount.value.ToCents().None? then Err(NotANumber)
    else if c.amount.Some? && c.amount.value.ToCents().value <= 0 then Err(NonPositiveAmount)
    else if c.kind.Some? && KindNamed(c.kind.value).None? then Err(InvalidType)
    else if c.date.Some? && !IsIsoDate(c.date.value) then Err(InvalidDate)
    else
      var kind := if c.kind.Some? then KindNamed(c.kind.value) else None;
      var amount := if c.amount.Some? then c.amount.value.ToCents() else None;
      Ok(Patch(kind, amount, c.category, c.description, c.date))
  }

  /** Everything update_transaction checks once the id is known to exist:
      the value checks, then "No valid fields to update" when none of the
      five keys is present. */
  function CheckChanges(c: Changes): (r: Result<Patch, Error>)
    ensures r.Ok? <==> ChangesAcceptable(c)
    ensures r == Err(NoFieldsToUpdate) <==> CheckValues(c).Ok? && NoKnownKey(c)
    ensures NoKnownKey(c) ==> r == Err(NoFieldsToUpdate)
    ensures r.Err? && r.error != NoFieldsToUpdate ==> r == CheckValues(c)
    ensures r.Ok? ==> r == CheckValues(c)
  {
    match CheckValues(c)
    case Err(e) => Err(e)
    case Ok(p) => if NoKnownKey(c) then Err(NoFieldsToUpdate) else Ok(p)
  }

  /** The row after `UPDATE ... SET` of the patched columns and the new
      timestamp. */
  function Patched(t: Transaction, p: Patch, now: string): (u: Transaction)
    ensures u.id == t.id && u.timestamp == now
    ensures u.kind == (if p.kind.Some? then p.kind.value else t.kind)
    ensures u.amount == (if p.amount.Some? then p.amount.value else t.amount)
    ensures u.category == (if p.category.Some? then p.category.value else t.category)
    ensures u.description == (if p.description.Some? then p.description.value else t.description)
    ensures u.date == (if p.date.Some? then p.date.value else t.date)
  {
    Transaction(
      t.id,
      if p.kind.Some? then p.kind.value else t.kind,
      if p.amount.Some? then p.amount.value else t.amount,
      if p.category.Some? then p.category.value else t.category,
      if p.description.Some? then p.description.value else t.description,
      if p.date.Some? then p.date.value else t.date,
      now)
  }

  /** Where the corrected date check departs from strptime as written: a
      submission that passes every other check and whose date strptime
      accepts but is not zero-padded ("2024-1-5") is refused with
      InvalidDate, where the trackers as written store it. */
  lemma UnpaddedDateRefused(data: Submission)
    requires AllPresent(data) && KindNamed(data.kind.value).Some?
    requires data.amount.value.ToCents().Some? && data.amount.value.ToCents().value > 0
    requires StrptimeAccepts(data.date.value) && !IsIsoDate(data.date.value)
    ensures CheckSubmission(data) == Err(InvalidDate)
  {
  }

  /** An accepted submission makes a row that satisfies the table's
      constraints, and the stripped text fields keep no surrounding
      whitespace. */
  lemma AcceptedRowIsStored(data: Submission, id: int, now: string)
    requires CheckSubmission(data).Ok?
    ensures var t := Row(CheckSubmission(data).value, id, now);
      && Stored(t)
      && t.category == Strip(t.category)
      && t.description == Strip(t.description)
  {
    var d := CheckSubmission(data).value;
    var category, description := data.category.value, data.description.value;
    assert d.category == Strip(category) && d.description == Strip(description);
    assert d.amount > 0 && d.date == data.date.value && IsIsoDate(d.date);
    StripIdempotent(category);
    StripIdempotent(description);
    var t := Row(d, id, now);
    assert t.category == Strip(t.category) && t.description == Strip(t.description);
  }

  /** The required-field check tests the raw value, not the stripped one:
      a category of blanks is non-empty when checked, passes, and is
      stored stripped to the empty string. */
  lemma BlankCategoryStoredEmpty(data: Submission)
    requires Acceptable(data)
    requires AllSpace(data.category.value)
    ensures CheckSubmission(data).Ok? && CheckSubmission(data).value.category == ""
  {
    StripEmpty(data.category.value);
  }

  /** A patch keeps a stored row stored: the checks demand what the table's
      constraints and the date format demand. */
  lemma PatchKeepsStored(t: Transaction, c: Changes, now: string)
    requires Stored(t) && CheckChanges(c).Ok?
    ensures Stored(Patched(t, CheckChanges(c).value, now))
  {
  }
}
