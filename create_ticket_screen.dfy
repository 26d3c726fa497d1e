/**
 * pages/Ticketeria/CreateTicket/index.tsx: the ticket form. `validate`
 * flags each field that is too short or empty and stores the flags in
 * `errors`; `handleSubmit` hands the four fields to useCreateTicket only
 * when nothing was flagged; the submit button is disabled while a field is
 * empty; `getPriorityLabel` looks a priority up in the picker's table.
 */
module CreateTicketScreen {
  import opened Wrappers
  import CreateTicketHook
  import MockServer
  import Remote
  import ExportService

  const TitleMessage := "O t\U{00ED}tulo deve ter no m\U{00ED}nimo 5 caracteres"
  const DescriptionMessage := "A descri\U{00E7}\U{00E3}o deve ter no m\U{00ED}nimo 10 caracteres"
  const CategoryMessage := "Selecione uma categoria"

  /** The `errors` object: one optional message per field. */
  datatype FormErrors = FormErrors(title: Option<string>, description: Option<string>, category: Option<string>)

  const NoErrors := FormErrors(None, None, None)

  /** The four inputs of the form. */
  datatype Form = Form(title: string, description: string, category: string, priority: string)

  /** The errors `validate` computes for a form. */
  function ErrorsOf(f: Form): FormErrors {
    FormErrors(
      if |f.title| < 5 then Some(TitleMessage) else None,
      if |f.description| < 10 then Some(DescriptionMessage) else None,
      if f.category == "" then Some(CategoryMessage) else None)
  }

  /** The form passes `validate`. */
  predicate Valid(f: Form) {
    ErrorsOf(f) == NoErrors
  }

  /** `disabled={!title || !description || !category}` */
  predicate SubmitDisabled(f: Form) {
    f.title == "" || f.description == "" || f.category == ""
  }

  /** The picker's priorities, as (label, value) pairs. */
  const Priorities: seq<(string, string)> :=
    [("Baixa", "low"), ("M\U{00E9}dia", "medium"), ("Alta", "high"), ("Cr\U{00ED}tica", "critical")]

  /** `priorities.find(p => p.value === value)` over the pairs `ps`. */
  function FindPriority(ps: seq<(string, string)>, value: string): (r: Option<nat>)
    ensures r.None? <==> forall i :: 0 <= i < |ps| ==> ps[i].1 != value
    ensures r.Some? ==> r.value < |ps| && ps[r.value].1 == value && forall j :: 0 <= j < r.value ==> ps[j].1 != value
  {
    if ps == [] then None
    else if ps[0].1 == value then Some(0)
    else match FindPriority(ps[1..], value)
      case None => None
      case Some(i) => Some(i + 1)
  }

  /** `getPriorityLabel(value)` */
  function PriorityLabel(value: string): string {
    match FindPriority(Priorities, value)
    case Some(i) => Priorities[i].0
    case None => value
  }

  /** The screen's state. */
  class Screen {
    var form: Form
    var errors: FormErrors

    /** Empty fields, priority 'medium', no errors. */
    constructor ()
      ensures form == Form("", "", "", "medium") && errors == NoErrors
    {
      form := Form("", "", "", "medium");
      errors := NoErrors;
    }

    /** validate(): fills `newErrors` field by field, stores it, and reports whether it stayed empty. */
    method Validate() returns (ok: bool)
      modifies this
      ensures form == old(form) && errors == ErrorsOf(form)
      ensures ok <==> Valid(form)
    {
      var newErrors := NoErrors;
      if |form.title| < 5 {
        newErrors := newErrors.(title := Some(TitleMessage));
      }
      if |form.description| < 10 {
        newErrors := newErrors.(description := Some(DescriptionMessage));
      }
      if form.category == "" {
        newErrors := newErrors.(category := Some(CategoryMessage));
      }
      errors := newErrors;
      ok := newErrors == NoErrors;
    }

    /** handleSubmit(): the data passed to createNewTicket, or nothing when validation fails. */
    method HandleSubmit() returns (sent: Option<CreateTicketHook.CreateTicketData>)
      modifies this
      ensures form == old(form) && errors == ErrorsOf(form)
      ensures sent.Some? <==> Valid(form)
      ensures sent.Some? ==> sent.value == SubmittedData(form)
    {
      var ok := Validate();
      if !ok {
        return None;
      }
      sent := Some(CreateTicketHook.CreateTicketData(form.title, form.description, form.category, form.priority));
    }
  }

  /** `{ title, description, category, priority }` */
  function SubmittedData(f: Form): CreateTicketHook.CreateTicketData {
    CreateTicketHook.CreateTicketData(f.title, f.description, f.category, f.priority)
  }

  // ---------------------------------------------------------------------
  // Properties

  /**
   * Each flag is raised exactly by its own condition, and the form is
   * valid exactly when the title has 5 characters, the description 10
   * and a category is chosen.
   */
  lemma ValidIff(f: Form)
    ensures ErrorsOf(f).title.Some? <==> |f.title| < 5
    ensures ErrorsOf(f).description.Some? <==> |f.description| < 10
    ensures ErrorsOf(f).category.Some? <==> f.category == ""
    ensures Valid(f) <==> |f.title| >= 5 && |f.description| >= 10 && f.category != ""
  {
  }

  /** A disabled button never hides a valid form: an empty field always fails validation. */
  lemma DisabledImpliesInvalid(f: Form)
    ensures SubmitDisabled(f) ==> !Valid(f)
  {
  }

  /** A known value gets its label; any other value is shown as it is. */
  lemma PriorityLabels(value: string)
    ensures PriorityLabel("low") == "Baixa" && PriorityLabel("medium") == "M\U{00E9}dia"
    ensures PriorityLabel("high") == "Alta" && PriorityLabel("critical") == "Cr\U{00ED}tica"
    ensures value !in {"low", "medium", "high", "critical"} ==> PriorityLabel(value) == value
  {
  }

  /**
   * The fields of every form the screen submits pass the mock server's
   * create checks when they reach the handler as a JSON body.
   */
  lemma SubmittedFormAccepted(f: Form)
    requires Valid(f)
    ensures MockServer.CreateError(MockServer.CreateBody(Some(f.title), Some(f.description), Some(f.category), Some(f.priority))) == None
  {
  }

  /**
   * The client does not send them as JSON: the create request carries the
   * submitted fields as multipart form data, which the JSON-only mock
   * server reads, with the body parser of Express 4, as a body without
   * fields, so it answers 400 for the title whatever the form held.
   */
  lemma SubmittedFormRefusedAsMultipart(f: Form)
    ensures var call := Remote.CreateCall(CreateTicketHook.DataFields(SubmittedData(f)));
      call.CreateTicketCall? && call.title == f.title && call.description == f.description
      && call.category == f.category && call.priority == f.priority
      && MockServer.CreateError(MockServer.ReceivedCreateBody(call)) == Some(MockServer.TitleTooShort)
  {
  }

  /**
   * The form offers 'critical', which the export service's priority table
   * does not know: such a ticket is labelled 'Crítica' here and exported
   * under its raw value.
   */
  lemma CriticalLabelledOnlyHere()
    ensures PriorityLabel("critical") != "critical"
    ensures ExportService.PriorityLabel("critical") == "critical"
  {
  }
}
