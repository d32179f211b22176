/**
 * The fund creation form: the length limits its validation applies, the payload it submits,
 * the slug suggested from the name while the slug field is untouched, and the two terms
 * checkboxes kept in the component state.
 */
module CreateFundForm {
  import opened Wrappers

  /** The three text fields of the form. */
  datatype Field = NameField | SlugField | DescriptionField

  const AllFields: set<Field> := {NameField, SlugField, DescriptionField}

  /** The form's values; every field starts empty. */
  datatype FormValues = FormValues(name: string, description: string, slug: string)

  const InitialValues: FormValues := FormValues("", "", "")

  /** The longest accepted name, slug and description. */
  const MaxNameLength: nat := 50
  const MaxSlugLength: nat := 30
  const MaxDescriptionLength: nat := 160

  function FieldValue(v: FormValues, f: Field): string
  {
    match f
    case NameField => v.name
    case SlugField => v.slug
    case DescriptionField => v.description
  }

  function MaxLength(f: Field): nat
  {
    match f
    case NameField => MaxNameLength
    case SlugField => MaxSlugLength
    case DescriptionField => MaxDescriptionLength
  }

  /** The error message of each field, in the default locale. */
  function ErrorMessage(f: Field): string
  {
    match f
    case NameField => "Please use fewer than 50 characters"
    case SlugField => "Please use fewer than 30 characters"
    case DescriptionField => "Please use fewer than 160 characters"
  }

  /** The errors the values deserve: one per field that is longer than its limit. */
  function Validate(v: FormValues): (errors: map<Field, string>)
    ensures NameField in errors <==> |v.name| > MaxNameLength
    ensures SlugField in errors <==> |v.slug| > MaxSlugLength
    ensures DescriptionField in errors <==> |v.description| > MaxDescriptionLength
    ensures errors == map[] <==>
      |v.name| <= MaxNameLength && |v.slug| <= MaxSlugLength && |v.description| <= MaxDescriptionLength
    ensures forall f | f in errors :: errors[f] == ErrorMessage(f)
  {
    var errors := map f | f in AllFields && |FieldValue(v, f)| > MaxLength(f) :: ErrorMessage(f);
    assert |v.name| > MaxNameLength ==> NameField in errors;
    assert |v.slug| > MaxSlugLength ==> SlugField in errors;
    assert |v.description| > MaxDescriptionLength ==> DescriptionField in errors;
    errors
  }

  /** `validate`: the error object filled by three checks, one per field. */
  method ValidateValues(values: FormValues) returns (errors: map<Field, string>)
    ensures errors == Validate(values)
  {
    errors := map[];
    if |values.name| > 50 {
      errors := errors[NameField := ErrorMessage(NameField)];
    }
    if |values.slug| > 30 {
      errors := errors[SlugField := ErrorMessage(SlugField)];
    }
    if |values.description| > 160 {
      errors := errors[DescriptionField := ErrorMessage(DescriptionField)];
    }
  }

  /** What `submit` hands to the page's `onSubmit`. */
  datatype FundSubmission = FundSubmission(name: string, description: string, slug: string, tos: bool, hostTos: bool)

  /** `submit`: the three values as they are, with the current `tos` and `hostTos`. */
  function SubmitPayload(values: FormValues, tos: bool, hostTos: bool): (r: FundSubmission)
    ensures r.name == values.name && r.description == values.description && r.slug == values.slug
    ensures r.tos == tos && r.hostTos == hostTos
  {
    FundSubmission(values.name, values.description, values.slug, tos, hostTos)
  }

  /** The form as a whole: values, touched fields, and the component's checkbox state. */
  datatype FormState = FormState(values: FormValues, touched: set<Field>, tos: bool, hostTos: bool)

  const InitialForm: FormState := FormState(InitialValues, {}, false, false)

  /** The events of the form. `slugify` is the slug library, as the suggestion applies it. */
  datatype FormEvent =
    | NameChanged(name: string)
    | SlugChanged(slug: string)
    | DescriptionChanged(description: string)
    | Blurred(field: Field)
    | TosChanged(checked: bool)
    | HostTosChanged(checked: bool)
    | SubmitAttempted

  /**
   * One event. Typing a name also suggests a slug, unless the slug field was touched. A
   * submit attempt marks every field touched (as the form library does before validating).
   */
  function FormStep(s: FormState, ev: FormEvent, slugify: string -> string): (t: FormState)
    ensures !ev.SubmitAttempted? ==> s.touched <= t.touched
    ensures ev.SubmitAttempted? ==> t.touched == AllFields
    ensures !ev.TosChanged? ==> t.tos == s.tos
    ensures !ev.HostTosChanged? ==> t.hostTos == s.hostTos
    ensures ev.NameChanged? ==> t.values.name == ev.name
    ensures ev.NameChanged? && SlugField !in s.touched ==> t.values.slug == slugify(ev.name)
    ensures !ev.SlugChanged? && SlugField in s.touched ==> t.values.slug == s.values.slug
  {
    match ev
    case NameChanged(n) =>
      var named := s.values.(name := n);
      s.(values := if SlugField !in s.touched then named.(slug := slugify(n)) else named)
    case SlugChanged(v) => s.(values := s.values.(slug := v))
    case DescriptionChanged(d) => s.(values := s.values.(description := d))
    case Blurred(f) => s.(touched := s.touched + {f})
    case TosChanged(c) => s.(tos := c)
    case HostTosChanged(c) => s.(hostTos := c)
    case SubmitAttempted => s.(touched := AllFields)
  }

  function FormRun(s: FormState, evs: seq<FormEvent>, slugify: string -> string): FormState
    decreases |evs|
  {
    if evs == [] then s else FormRun(FormStep(s, evs[0], slugify), evs[1..], slugify)
  }

  /** Once the slug field is touched, only typing in it changes the slug: names no longer suggest one. */
  lemma {:induction false} TouchedSlugIsKept(s: FormState, evs: seq<FormEvent>, slugify: string -> string)
    requires SlugField in s.touched
    requires forall i | 0 <= i < |evs| :: !evs[i].SlugChanged?
    ensures FormRun(s, evs, slugify).values.slug == s.values.slug
    ensures SlugField in FormRun(s, evs, slugify).touched
    decreases |evs|
  {
    if evs != [] {
      TouchedSlugIsKept(FormStep(s, evs[0], slugify), evs[1..], slugify);
    }
  }

  /** `tos` and `hostTos` start false and only their checkboxes change them. */
  lemma {:induction false} TermsOnlyByCheckboxes(s: FormState, evs: seq<FormEvent>, slugify: string -> string)
    requires forall i | 0 <= i < |evs| :: !evs[i].TosChanged? && !evs[i].HostTosChanged?
    ensures FormRun(s, evs, slugify).tos == s.tos && FormRun(s, evs, slugify).hostTos == s.hostTos
    decreases |evs|
  {
    if evs != [] {
      TermsOnlyByCheckboxes(FormStep(s, evs[0], slugify), evs[1..], slugify);
    }
  }

  /**
   * If the slug was untouched when the latest name was typed, and since then nothing typed in
   * the slug field, left it or attempted a submit, the slug is the suggestion for that name.
   */
  lemma {:induction false} UntouchedSlugFollowsName(s: FormState, evs: seq<FormEvent>, slugify: string -> string, i: nat)
    requires i < |evs| && evs[i].NameChanged?
    requires forall j | i < j < |evs| :: !evs[j].SlugChanged? && !evs[j].NameChanged? && evs[j] != Blurred(SlugField) && !evs[j].SubmitAttempted?
    requires SlugField !in FormRun(s, evs[..i], slugify).touched
    ensures FormRun(s, evs, slugify).values.slug == slugify(evs[i].name)
    ensures FormRun(s, evs, slugify).values.name == evs[i].name
    decreases |evs|
  {
    if i == 0 {
      assert evs[..0] == [];
      KeepsNameAndSlug(FormStep(s, evs[0], slugify), evs[1..], slugify);
    } else {
      assert evs[1..][..i - 1] == evs[..i][1..];
      UntouchedSlugFollowsName(FormStep(s, evs[0], slugify), evs[1..], slugify, i - 1);
    }
  }

  /** Events that neither type a name or slug, nor touch the slug field, leave name and slug alone. */
  lemma {:induction false} KeepsNameAndSlug(s: FormState, evs: seq<FormEvent>, slugify: string -> string)
    requires forall j | 0 <= j < |evs| :: !evs[j].SlugChanged? && !evs[j].NameChanged? && evs[j] != Blurred(SlugField) && !evs[j].SubmitAttempted?
    ensures FormRun(s, evs, slugify).values.slug == s.values.slug
    ensures FormRun(s, evs, slugify).values.name == s.values.name
    decreases |evs|
  {
    if evs != [] {
      KeepsNameAndSlug(FormStep(s, evs[0], slugify), evs[1..], slugify);
    }
  }

  /** The form component: Formik's values and touched fields, and the component's `tos`/`hostTos` state. */
  class FundForm {
    /** Whether the host has terms: the host-terms checkbox is rendered only then. */
    const hostHasTerms: bool
    var values: FormValues
    var touched: set<Field>
    var tos: bool
    var hostTos: bool

    ghost function State(): FormState
      reads this
    {
      FormState(values, touched, tos, hostTos)
    }

    constructor(hostHasTerms: bool)
      ensures this.hostHasTerms == hostHasTerms
      ensures State() == InitialForm
    {
      this.hostHasTerms := hostHasTerms;
      values := InitialValues;
      touched := {};
      tos := false;
      hostTos := false;
    }

    /** The error shown under a field: only once the field is touched. */
    function DisplayedError(f: Field): (r: Option<string>)
      reads this
      ensures r.Some? <==> f in touched && |FieldValue(values, f)| > MaxLength(f)
      ensures r.Some? ==> r.value == ErrorMessage(f)
    {
      var errors := Validate(values);
      if f in touched && f in errors then Some(errors[f]) else None
    }

    /** Typing a name: the form library stores it, then `handleSlugChange` suggests a slug while the slug is untouched. */
    method OnNameChange(name: string, slugify: string -> string)
      modifies this
      ensures State() == FormStep(old(State()), NameChanged(name), slugify)
    {
      values := values.(name := name);
      if SlugField !in touched {
        values := values.(slug := slugify(name));
      }
    }

    /** Typing in the slug field. */
    method OnSlugChange(slug: string)
      modifies this
      ensures State() == FormStep(old(State()), SlugChanged(slug), x => x)
    {
      values := values.(slug := slug);
    }

    /** Typing a description. */
    method OnDescriptionChange(description: string)
      modifies this
      ensures State() == FormStep(old(State()), DescriptionChanged(description), x => x)
    {
      values := values.(description := description);
    }

    /** Leaving a field marks it touched. */
    method OnBlur(f: Field)
      modifies this
      ensures State() == FormStep(old(State()), Blurred(f), x => x)
    {
      touched := touched + {f};
    }

    /** The terms-of-service checkbox. */
    method OnTosChange(checked: bool)
      modifies this
      ensures State() == FormStep(old(State()), TosChanged(checked), x => x)
    {
      tos := checked;
    }

    /** The host-terms checkbox, rendered only when the host has terms. */
    method OnHostTosChange(checked: bool)
      requires hostHasTerms
      modifies this
      ensures State() == FormStep(old(State()), HostTosChanged(checked), x => x)
    {
      hostTos := checked;
    }

    /**
     * A submit attempt: every field is marked touched, the values are validated, and `submit`
     * runs only when there is no error, producing the payload for `onSubmit`.
     */
    method OnSubmit() returns (r: Option<FundSubmission>)
      modifies this
      ensures State() == FormStep(old(State()), SubmitAttempted, x => x)
      ensures r.Some? <==> Validate(values) == map[]
      ensures r.Some? ==> r.value == SubmitPayload(values, tos, hostTos)
    {
      touched := AllFields;
      var errors := ValidateValues(values);
      if errors == map[] {
        r := Some(SubmitPayload(values, tos, hostTos));
      } else {
        r := None;
      }
    }
  }
}
