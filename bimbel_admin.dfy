/**
 * The admin page for tutoring classes (frontend/src/admin/AdminBimbelManager.tsx):
 * the partial form is checked and normalised into a payload, saved either
 * as an update of the class being edited or as a new class, and the form is
 * reset after a successful save; the published and hot switches of a class
 * are flipped one at a time.
 */
module BimbelAdmin {
  import opened Wrappers
  import opened Text

  /** A row of `bimbel_classes`; `None` is SQL `null` (or a column the database fills in). */
  datatype BimbelClass = BimbelClass(
    id: string,
    title: string,
    description: string,
    imgUrl: Option<string>,
    mentorName: string,
    price: int,
    category: string,
    gformLink: string,
    isPublished: bool,
    isHot: bool,
    createdAt: Option<string>)

  /** The form state: any subset of a class's fields (`Partial<BimbelClass>`). */
  datatype Form = Form(
    id: Option<string>,
    title: Option<string>,
    description: Option<string>,
    imgUrl: Option<string>,
    mentorName: Option<string>,
    price: Option<int>,
    category: Option<string>,
    gformLink: Option<string>,
    isPublished: Option<bool>,
    isHot: Option<bool>,
    createdAt: Option<string>)

  /** What is sent to the store: the form spread, with the normalised fields filled in. */
  datatype Payload = Payload(
    id: Option<string>,
    title: string,
    description: string,
    imgUrl: Option<string>,
    mentorName: string,
    price: int,
    category: string,
    gformLink: string,
    isPublished: bool,
    isHot: bool,
    createdAt: Option<string>)

  const DefaultCategory := "KOS"
  const MissingFieldsMessage := "Judul dan kategori wajib diisi!"
  const SaveErrorPrefix := "Gagal menyimpan data: "
  const ToggleErrorPrefix := "Gagal update status: "

  /** `{ category: "KOS", price: 0 }`, the form's initial and reset state. */
  const EmptyForm := Form(None, None, None, None, None, Some(0), Some(DefaultCategory), None, None, None, None)

  /** `field?.trim() ?? ""`. */
  function TrimmedOrEmpty(field: Option<string>): (r: string)
    ensures field.None? ==> r == ""
    ensures field.Some? ==> r == Trim(field.value)
  {
    if field.Some? then Trim(field.value) else ""
  }

  /** `field?.trim() || fallback`: the trimmed text, or `fallback` when it is missing or blank. */
  function TrimmedOr(field: Option<string>, fallback: string): (r: string)
    ensures field.Some? && !IsBlank(field.value) ==> r == Trim(field.value) && r != ""
    ensures field.None? || IsBlank(field.value) ==> r == fallback
  {
    if field.Some? then
      TrimEmptyIffBlank(field.value);
      if Trim(field.value) == "" then fallback else Trim(field.value)
    else fallback
  }

  /**
   * The validation and payload construction of `handleSubmit`: `None` when
   * the trimmed title or category is empty, otherwise the payload.
   */
  function BuildPayload(form: Form): (r: Option<Payload>)
    ensures r.None? <==> TrimmedOrEmpty(form.title) == "" || TrimmedOrEmpty(form.category) == ""
    ensures r.Some? ==> var p := r.value;
      && p.title == Trim(form.title.value) && p.title != ""
      && p.category == Upper(Trim(form.category.value)) && p.category != ""
      && p.price == form.price.GetOr(0)
      && p.description == TrimmedOr(form.description, "-") && p.description != ""
      && p.mentorName == TrimmedOr(form.mentorName, "-") && p.mentorName != ""
      && p.gformLink == TrimmedOr(form.gformLink, "")
      && p.isPublished == form.isPublished.GetOr(false) && p.isHot == form.isHot.GetOr(false)
      && p.id == form.id && p.imgUrl == form.imgUrl && p.createdAt == form.createdAt
  {
    var title := TrimmedOrEmpty(form.title);
    var category := Upper(TrimmedOrEmpty(form.category));
    if title == "" || category == "" then None
    else
      Some(Payload(
        form.id, title, TrimmedOr(form.description, "-"), form.imgUrl, TrimmedOr(form.mentorName, "-"),
        form.price.GetOr(0), category, TrimmedOr(form.gformLink, ""),
        form.isPublished.GetOr(false), form.isHot.GetOr(false), form.createdAt))
  }

  /** The form an already normalised payload came from, every field filled in. */
  function FormOf(p: Payload): Form
  {
    Form(p.id, Some(p.title), Some(p.description), p.imgUrl, Some(p.mentorName), Some(p.price),
      Some(p.category), Some(p.gformLink), Some(p.isPublished), Some(p.isHot), p.createdAt)
  }

  /** Normalising is idempotent: submitting a saved payload again yields the same payload. */
  lemma PayloadIsNormalised(form: Form)
    requires BuildPayload(form).Some?
    ensures BuildPayload(FormOf(BuildPayload(form).value)) == BuildPayload(form)
  {
    var p := BuildPayload(form).value;
    TrimIsIdempotent(form.title.value);
    TrimIsIdempotent(form.category.value);
    UpperOfTrimmed(Trim(form.category.value));
    assert Trim(p.title) == p.title && Trim(p.category) == p.category && Upper(p.category) == p.category;
    var again := BuildPayload(FormOf(p));
    assert again.Some?;
    FallbacksAreTrimmed();
    NormalisedTextIsStable(form.description, "-");
    NormalisedTextIsStable(form.mentorName, "-");
    NormalisedTextIsStable(form.gformLink, "");
    assert again.value.description == p.description && again.value.mentorName == p.mentorName;
    assert again.value.gformLink == p.gformLink;
  }

  lemma FallbacksAreTrimmed()
    ensures Trim("-") == "-" && Trim("") == ""
  {
    TrimOfUnpadded("-");
  }

  lemma NormalisedTextIsStable(field: Option<string>, fallback: string)
    requires Trim(fallback) == fallback
    ensures TrimmedOr(Some(TrimmedOr(field, fallback)), fallback) == TrimmedOr(field, fallback)
  {
    if field.Some? {
      TrimIsIdempotent(field.value);
      TrimEmptyIffBlank(Trim(field.value));
    }
    TrimEmptyIffBlank(fallback);
  }

  /** A class editable in the form: `setForm(cls)`. */
  function FormOfClass(c: BimbelClass): Form
  {
    Form(Some(c.id), Some(c.title), Some(c.description), c.imgUrl, Some(c.mentorName), Some(c.price),
      Some(c.category), Some(c.gformLink), Some(c.isPublished), Some(c.isHot), c.createdAt)
  }

  /** `update(payload)` applied to one row: each payload field overwrites the column of the same name. */
  function Apply(c: BimbelClass, p: Payload): (r: BimbelClass)
    ensures r.id == p.id.GetOr(c.id) && r.imgUrl == (if p.imgUrl.Some? then p.imgUrl else c.imgUrl)
    ensures r.createdAt == (if p.createdAt.Some? then p.createdAt else c.createdAt)
    ensures r.title == p.title && r.description == p.description && r.mentorName == p.mentorName
    ensures r.price == p.price && r.category == p.category && r.gformLink == p.gformLink
    ensures r.isPublished == p.isPublished && r.isHot == p.isHot
  {
    BimbelClass(
      p.id.GetOr(c.id), p.title, p.description, if p.imgUrl.Some? then p.imgUrl else c.imgUrl,
      p.mentorName, p.price, p.category, p.gformLink, p.isPublished, p.isHot,
      if p.createdAt.Some? then p.createdAt else c.createdAt)
  }

  /** `update(payload).eq("id", id)`: the rows with that id are overwritten, all others stay. */
  function UpdateWhere(table: seq<BimbelClass>, id: string, p: Payload): (r: seq<BimbelClass>)
    ensures |r| == |table|
    ensures forall i :: 0 <= i < |table| ==> r[i] == if table[i].id == id then Apply(table[i], p) else table[i]
  {
    seq(|table|, i requires 0 <= i < |table| => if table[i].id == id then Apply(table[i], p) else table[i])
  }

  /** `insert([payload])`: a new row; the database assigns the id when the payload has none. */
  function NewRow(p: Payload, freshId: string): (r: BimbelClass)
    ensures r == Apply(BimbelClass(freshId, "", "", None, "", 0, "", "", false, false, None), p)
  {
    BimbelClass(p.id.GetOr(freshId), p.title, p.description, p.imgUrl, p.mentorName, p.price,
      p.category, p.gformLink, p.isPublished, p.isHot, p.createdAt)
  }

  /** The payload the form of class `c` produces when `c` is already normalised. */
  function PayloadOfClass(c: BimbelClass): Payload
  {
    Payload(Some(c.id), c.title, c.description, c.imgUrl, c.mentorName, c.price, c.category,
      c.gformLink, c.isPublished, c.isHot, c.createdAt)
  }

  /** Updating the rows of a class with that class's own values (an unchanged edit of a normalised class) leaves the table as it was. */
  lemma SavingAnUnchangedEditKeepsTheTable(table: seq<BimbelClass>, c: BimbelClass)
    requires forall i :: 0 <= i < |table| && table[i].id == c.id ==> table[i] == c
    ensures UpdateWhere(table, c.id, PayloadOfClass(c)) == table
  {
    var r := UpdateWhere(table, c.id, PayloadOfClass(c));
    assert forall i :: 0 <= i < |table| ==> r[i] == table[i];
  }

  datatype Switch = Published | Hot

  function SwitchValue(c: BimbelClass, s: Switch): bool
  {
    match s
    case Published => c.isPublished
    case Hot => c.isHot
  }

  /** `update({ [field]: value }).eq("id", id)`: that switch of the rows with that id, nothing else. */
  function SetSwitch(table: seq<BimbelClass>, id: string, s: Switch, value: bool): (r: seq<BimbelClass>)
    ensures |r| == |table|
    ensures forall i :: 0 <= i < |table| && table[i].id != id ==> r[i] == table[i]
    ensures forall i :: 0 <= i < |table| && table[i].id == id ==>
      SwitchValue(r[i], s) == value
      && r[i] == (match s case Published => table[i].(isPublished := value) case Hot => table[i].(isHot := value))
  {
    seq(|table|, i requires 0 <= i < |table| =>
      if table[i].id != id then table[i]
      else match s
        case Published => table[i].(isPublished := value)
        case Hot => table[i].(isHot := value))
  }

  /** Flipping a switch from the value on screen and then back from the new value restores the rows. */
  lemma ToggleTwiceRestores(table: seq<BimbelClass>, id: string, s: Switch, value: bool)
    requires forall i :: 0 <= i < |table| && table[i].id == id ==> SwitchValue(table[i], s) == value
    ensures SetSwitch(SetSwitch(table, id, s, !value), id, s, value) == table
  {
    var r := SetSwitch(SetSwitch(table, id, s, !value), id, s, value);
    assert forall i :: 0 <= i < |table| ==> r[i] == table[i];
  }

  datatype SubmitOutcome = Invalid | Saved | SaveFailed(message: string)

  /** The manager's state: the stored classes, the form and the id being edited. */
  class Manager {
    var table: seq<BimbelClass>
    var form: Form
    var editingId: Option<string>

    constructor (table: seq<BimbelClass>)
      ensures this.table == table && form == EmptyForm && editingId == None
    {
      this.table, form, editingId := table, EmptyForm, None;
    }

    /** The Edit button: the form takes the whole class, id included. */
    method StartEdit(c: BimbelClass)
      modifies this
      ensures form == FormOfClass(c) && editingId == Some(c.id) && table == old(table)
    {
      editingId, form := Some(c.id), FormOfClass(c);
    }

    /** The Cancel button. */
    method CancelEdit()
      modifies this
      ensures form == EmptyForm && editingId == None && table == old(table)
    {
      editingId, form := None, EmptyForm;
    }

    /**
     * `handleSubmit`: an invalid form is refused with nothing written; a
     * store error is reported and keeps both the table and the form; a
     * successful save updates the edited rows, or appends one row, and
     * resets the form.
     */
    method HandleSubmit(storeError: Option<string>, freshId: string) returns (outcome: SubmitOutcome)
      modifies this
      ensures BuildPayload(old(form)).None? ==>
        outcome == Invalid && table == old(table) && form == old(form) && editingId == old(editingId)
      ensures BuildPayload(old(form)).Some? && storeError.Some? ==>
        outcome == SaveFailed(SaveErrorPrefix + storeError.value)
        && table == old(table) && form == old(form) && editingId == old(editingId)
      ensures BuildPayload(old(form)).Some? && storeError.None? ==>
        var p := BuildPayload(old(form)).value;
        && outcome == Saved && form == EmptyForm && editingId == None
        && table == if Truthy(old(editingId)) then UpdateWhere(old(table), old(editingId).value, p)
                    else old(table) + [NewRow(p, freshId)]
    {
      var payload := BuildPayload(form);
      if payload.None? {
        return Invalid;
      }
      if storeError.Some? {
        return SaveFailed(SaveErrorPrefix + storeError.value);
      }
      if Truthy(editingId) {
        table := UpdateWhere(table, editingId.value, payload.value);
      } else {
        table := table + [NewRow(payload.value, freshId)];
      }
      form, editingId := EmptyForm, None;
      return Saved;
    }

    /** `toggleField`: writes the negation of the shown value; on a store error nothing changes. */
    method ToggleField(id: string, s: Switch, value: bool, storeError: Option<string>) returns (alert: Option<string>)
      modifies this
      ensures table == if storeError.Some? then old(table) else SetSwitch(old(table), id, s, !value)
      ensures alert == if storeError.Some? then Some(ToggleErrorPrefix + storeError.value) else None
      ensures form == old(form) && editingId == old(editingId)
    {
      if storeError.Some? {
        return Some(ToggleErrorPrefix + storeError.value);
      }
      table := SetSwitch(table, id, s, !value);
      return None;
    }
  }
}
