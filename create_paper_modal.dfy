/**
 * The "Create New Research Paper" dialog: a five-field form that is submitted
 * or closed, and reset to empty either way.
 */
module CreatePaperModal {

  datatype FormData = FormData(
    title: string,
    topic: string,
    kind: string,
    dueDate: string,
    description: string)

  /** The form as it starts and as it is reset: all five fields empty. */
  function EmptyForm(): (f: FormData)
    ensures f.title == "" && f.topic == "" && f.kind == "" && f.dueDate == "" && f.description == ""
  {
    FormData("", "", "", "", "")
  }

  /** The submit button is enabled exactly when title, topic and type are all filled in. */
  predicate CanSubmit(f: FormData) {
    f.title != "" && f.topic != "" && f.kind != ""
  }

  /** Neither the due date nor the description decides whether the form can be submitted. */
  lemma SubmitIgnoresDueDateAndDescription(f: FormData, dueDate: string, description: string)
    ensures CanSubmit(f.(dueDate := dueDate, description := description)) == CanSubmit(f)
  {
  }

  /** The empty form cannot be submitted. */
  lemma EmptyFormCannotSubmit()
    ensures !CanSubmit(EmptyForm())
  {
  }

  datatype Field = Title | Topic | Kind | DueDate | Description

  function Get(f: FormData, field: Field): string {
    match field
    case Title => f.title
    case Topic => f.topic
    case Kind => f.kind
    case DueDate => f.dueDate
    case Description => f.description
  }

  /** `setFormData({ ...formData, [field]: value })`: one field replaced, the other four kept. */
  function With(f: FormData, field: Field, value: string): (g: FormData)
    ensures Get(g, field) == value
    ensures forall other :: other != field ==> Get(g, other) == Get(f, other)
  {
    match field
    case Title => f.(title := value)
    case Topic => f.(topic := value)
    case Kind => f.(kind := value)
    case DueDate => f.(dueDate := value)
    case Description => f.(description := value)
  }

  /** Typing a title, a topic and a type into any form, in that order, enables the submit button. */
  lemma FillingRequiredFieldsEnablesSubmit(f: FormData, title: string, topic: string, kind: string)
    requires title != "" && topic != "" && kind != ""
    ensures CanSubmit(With(With(With(f, Title, title), Topic, topic), Kind, kind))
  {
  }

  /** Clearing the title, the topic or the type disables the submit button again. */
  lemma ClearingRequiredFieldDisablesSubmit(f: FormData, field: Field)
    requires field == Title || field == Topic || field == Kind
    ensures !CanSubmit(With(f, field, ""))
  {
  }

  class CreatePaperForm {
    var formData: FormData

    constructor()
      ensures formData == EmptyForm()
    {
      formData := EmptyForm();
    }

    /** An input's change handler. */
    method SetField(field: Field, value: string)
      modifies this
      ensures formData == With(old(formData), field, value)
    {
      formData := With(formData, field, value);
    }

    /** `handleSubmit`: hands the current form to the caller, then empties the form. */
    method HandleSubmit() returns (submitted: FormData)
      modifies this
      ensures submitted == old(formData)
      ensures formData == EmptyForm()
    {
      submitted := formData;
      formData := EmptyForm();
    }

    /** `handleClose`: empties the form; the caller then closes the dialog. */
    method HandleClose()
      modifies this
      ensures formData == EmptyForm()
    {
      formData := EmptyForm();
    }
  }
}
