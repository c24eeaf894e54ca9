/**
 * The task form's draft. The draft starts empty, is overwritten field by
 * field as the user types, is replaced by the dashboard's seed whenever one
 * is supplied, and is cleared after a submit in create mode.
 */
module TaskFormView {
  import opened TaskTypes

  /** The draft a fresh form, and a form after a create, shows. */
  function EmptyDraft(): (d: TaskFormData)
    ensures d.title == "" && d.description == "" && d.priority == Medium
  {
    TaskFormData("", "", Medium)
  }

  /** The three named inputs of the form. */
  datatype Field = TitleField | DescriptionField | PriorityField

  /** A change event: the input's `name` and its new `value`. */
  datatype FieldChange = FieldChange(name: Field, value: string)

  /** The text the input named `f` shows for draft `d`. */
  function FieldValue(d: TaskFormData, f: Field): string
  {
    match f
    case TitleField => d.title
    case DescriptionField => d.description
    case PriorityField => PriorityName(d.priority)
  }

  /** The priority select only offers the three priority literals. */
  predicate WellFormedChange(c: FieldChange)
  {
    c.name == PriorityField ==> c.value in {"Low", "Medium", "High"}
  }

  /**
   * `{ ...prev, [name]: value }`: the named input shows the new value and
   * the other two inputs keep theirs.
   */
  function ApplyChange(d: TaskFormData, c: FieldChange): (r: TaskFormData)
    requires WellFormedChange(c)
    ensures FieldValue(r, c.name) == c.value
    ensures forall f :: f != c.name ==> FieldValue(r, f) == FieldValue(d, f)
  {
    match c.name
    case TitleField => d.(title := c.value)
    case DescriptionField => d.(description := c.value)
    case PriorityField =>
      var p := ParsePriority(c.value);
      d.(priority := p.value)
  }

  /** The inputs determine the draft: drafts showing the same text are equal. */
  lemma FieldValuesDetermineDraft(d: TaskFormData, e: TaskFormData)
    requires forall f :: FieldValue(d, f) == FieldValue(e, f)
    ensures d == e
  {
    assert FieldValue(d, TitleField) == FieldValue(e, TitleField);
    assert FieldValue(d, DescriptionField) == FieldValue(e, DescriptionField);
    assert FieldValue(d, PriorityField) == FieldValue(e, PriorityField);
    ParsePriorityName(d.priority);
    ParsePriorityName(e.priority);
  }

  /** Retyping a field's current text leaves the draft as it was. */
  lemma ChangeToSameValue(d: TaskFormData, f: Field)
    ensures WellFormedChange(FieldChange(f, FieldValue(d, f)))
    ensures ApplyChange(d, FieldChange(f, FieldValue(d, f))) == d
  {
    var c := FieldChange(f, FieldValue(d, f));
    var r := ApplyChange(d, c);
    forall g
      ensures FieldValue(r, g) == FieldValue(d, g)
    {
    }
    FieldValuesDetermineDraft(r, d);
  }

  /** The cancel button is rendered only in edit mode with a cancel handler. */
  function CancelShown(isEditing: bool, hasCancel: bool): bool
  {
    isEditing && hasCancel
  }

  class TaskForm {
    /** The draft the inputs show. */
    var formData: TaskFormData

    /** A fresh form shows the empty draft. */
    constructor ()
      ensures formData == EmptyDraft()
    {
      formData := EmptyDraft();
    }

    /** A supplied seed replaces the draft wholesale; none leaves it alone. */
    method SyncInitialData(initialData: Option<TaskFormData>)
      modifies this
      ensures formData == if initialData.Some? then initialData.value else old(formData)
    {
      if initialData.Some? {
        formData := initialData.value;
      }
    }

    /**
     * Submits the draft. An empty title blocks the submission: the handler
     * is not called and nothing changes. Otherwise the handler is called
     * once with the draft (returned here), and in create mode the draft is
     * cleared straight away, whatever becomes of the call.
     */
    method Submit(isEditing: bool) returns (submitted: Option<TaskFormData>)
      modifies this
      ensures old(formData).title == "" ==> submitted == None && formData == old(formData)
      ensures old(formData).title != "" ==> submitted == Some(old(formData))
      ensures old(formData).title != "" ==>
        formData == if isEditing then old(formData) else EmptyDraft()
    {
      if formData.title == "" {
        return None;
      }
      submitted := Some(formData);
      if !isEditing {
        formData := EmptyDraft();
      }
    }

    /** One input changed: only that field of the draft takes the new value. */
    method Change(c: FieldChange)
      requires WellFormedChange(c)
      modifies this
      ensures formData == ApplyChange(old(formData), c)
    {
      formData := ApplyChange(formData, c);
    }
  }
}
