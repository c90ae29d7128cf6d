/**
 * The contact form: a record of three fields edited one at a time, and a
 * simulated submission that shows "sending", then "success" with the fields
 * cleared, then nothing again.
 *
 * The two `setTimeout` callbacks are modelled as explicit events: submitting
 * schedules the success callback, the success callback schedules the clear
 * callback, and the environment may fire any scheduled callback later. The
 * entrance animation and the event objects themselves are not modelled.
 */
module Contact {
  import opened Wrappers
  import opened Translations
  import opened LanguageContext

  /** The status shown after a submission: `null` or `'success'`. */
  const SuccessStatus: string := "success"

  /** The three fields of the form, as the inputs name them. */
  const FieldNames: set<string> := {"name", "email", "message"}

  /** The form as first rendered and as reset after a submission. */
  const EmptyForm: map<string, string> := map["name" := "", "email" := "", "message" := ""]

  /**
   * `handleChange`: a copy of the form with the field named by the input set
   * to the input's value; every other field is kept.
   */
  function WithField(form: map<string, string>, name: string, value: string): (r: map<string, string>)
    ensures name in r && r[name] == value
    ensures forall k :: k in form && k != name ==> k in r && r[k] == form[k]
    ensures r.Keys == form.Keys + {name}
  {
    form[name := value]
  }

  /** Editing one of the three inputs keeps the form's key set and changes nothing else. */
  lemma {:induction false} ChangeKeepsFields(form: map<string, string>, name: string, value: string)
    requires form.Keys == FieldNames && name in FieldNames
    ensures WithField(form, name, value).Keys == FieldNames
    ensures forall k :: k in FieldNames && k != name ==> WithField(form, name, value)[k] == form[k]
  {
  }

  /** Typing the same value twice is the same as typing it once. */
  lemma {:induction false} ChangeIdempotent(form: map<string, string>, name: string, value: string)
    ensures WithField(WithField(form, name, value), name, value) == WithField(form, name, value)
  {
    assert WithField(WithField(form, name, value), name, value).Keys == WithField(form, name, value).Keys;
  }

  /** Edits of two different fields commute. */
  lemma {:induction false} ChangesCommute(form: map<string, string>, a: string, x: string, b: string, y: string)
    requires a != b
    ensures WithField(WithField(form, a, x), b, y) == WithField(WithField(form, b, y), a, x)
  {
    assert WithField(WithField(form, a, x), b, y).Keys == WithField(WithField(form, b, y), a, x).Keys;
  }

  /** A scheduled `setTimeout` callback of the form. */
  datatype Timer = SuccessTimer | ClearTimer

  class ContactForm {
    var formData: map<string, string>
    var isSubmitting: bool
    var submitStatus: Option<string>
    /** Callbacks scheduled and not yet fired; none is ever cancelled. */
    var pending: multiset<Timer>
    ghost var submissions: nat
    ghost var successes: nat
    ghost var clears: nat

    /**
     * The status is only ever `null` or `'success'`, and every submission has
     * one success callback, pending or fired, and every fired success callback
     * one clear callback, pending or fired.
     */
    ghost predicate Valid()
      reads this
    {
      && (submitStatus == None || submitStatus == Some(SuccessStatus))
      && pending[SuccessTimer] + successes == submissions
      && pending[ClearTimer] + clears == successes
    }

    constructor ()
      ensures Valid()
      ensures formData == EmptyForm && !isSubmitting && submitStatus == None
      ensures pending == multiset{} && submissions == 0
    {
      formData := EmptyForm;
      isSubmitting := false;
      submitStatus := None;
      pending := multiset{};
      submissions := 0;
      successes := 0;
      clears := 0;
    }

    /** `handleChange`: only the named field takes the new value. */
    method HandleChange(name: string, value: string)
      requires Valid()
      modifies this
      ensures Valid()
      ensures formData == WithField(old(formData), name, value)
      ensures isSubmitting == old(isSubmitting) && submitStatus == old(submitStatus) && pending == old(pending)
      ensures submissions == old(submissions) && successes == old(successes) && clears == old(clears)
    {
      formData := WithField(formData, name, value);
    }

    /** `handleSubmit`: submitting at once, status cleared, the success callback scheduled. */
    method HandleSubmit()
      requires Valid()
      modifies this
      ensures Valid()
      ensures isSubmitting && submitStatus == None
      ensures formData == old(formData)
      ensures pending == old(pending) + multiset{SuccessTimer}
      ensures submissions == old(submissions) + 1 && successes == old(successes) && clears == old(clears)
    {
      isSubmitting := true;
      submitStatus := None;
      pending := pending + multiset{SuccessTimer};
      submissions := submissions + 1;
    }

    /**
     * The first callback, a second after submitting: no longer submitting,
     * status success, all fields emptied, and the clear callback scheduled.
     */
    method FireSuccessTimer()
      requires Valid() && SuccessTimer in pending
      modifies this
      ensures Valid()
      ensures !isSubmitting && submitStatus == Some(SuccessStatus) && formData == EmptyForm
      ensures pending == old(pending) - multiset{SuccessTimer} + multiset{ClearTimer}
      ensures submissions == old(submissions) && successes == old(successes) + 1 && clears == old(clears)
    {
      isSubmitting := false;
      submitStatus := Some(SuccessStatus);
      formData := EmptyForm;
      pending := pending - multiset{SuccessTimer} + multiset{ClearTimer};
      successes := successes + 1;
    }

    /** The second callback, five seconds later: the status is cleared; nothing else changes. */
    method FireClearTimer()
      requires Valid() && ClearTimer in pending
      modifies this
      ensures Valid()
      ensures submitStatus == None
      ensures isSubmitting == old(isSubmitting) && formData == old(formData)
      ensures pending == old(pending) - multiset{ClearTimer}
      ensures submissions == old(submissions) && successes == old(successes) && clears == old(clears) + 1
    {
      submitStatus := None;
      pending := pending - multiset{ClearTimer};
      clears := clears + 1;
    }
  }

  /** `contact.<k>` is the dotted pair of the section name and `k`. */
  lemma ContactKeyIsDotted(k: string)
    ensures "contact." + k == "contact" + "." + k
  {
    assert "contact." == "contact" + ".";
  }

  /** The alert's key is the dotted pair `contact.success`. */
  lemma SuccessKeyIsDotted()
    ensures "contact.success" == "contact." + "success"
  {
  }

  /** The contact section of each shipped language, as a map of its own. */
  lemma PtContactSection()
    ensures Table["pt"] == Obj(Pt.props) && "contact" in Pt.props && Table["pt"].props["contact"] == Obj(PtContact)
  {
    TableLookups();
    PtLookups();
  }

  lemma EnContactSection()
    ensures Table["en"] == Obj(En.props) && "contact" in En.props && Table["en"].props["contact"] == Obj(EnContact)
  {
    TableLookups();
    EnLookups();
  }

  /** The shipped table resolves `contact.<k>` to its non-empty string in either language. */
  lemma ContactLeafResolves(language: string, k: string)
    requires language in Table
    requires k in PtContact
    ensures Table[language].props["contact"].Obj? && k in Table[language].props["contact"].props
    ensures var leaf := Table[language].props["contact"].props[k];
            leaf.Str? && leaf.s != "" && Translate(Table, language, "contact." + k) == leaf
  {
    if language == "pt" {
      PtContactSection();
    } else {
      EnContactSection();
      ContactKeysAgree();
    }
    ContactKeyIsDotted(k);
    ShippedTwoSegmentKeysResolve(language, "contact", k);
  }

  /** The submit button: disabled, and announced as disabled, exactly while submitting. */
  datatype SubmitButton = SubmitButton(disabled: bool, ariaDisabled: bool, text: JsValue)

  /** The entry of the contact section the submit button shows. */
  function SubmitLabelField(isSubmitting: bool): (field: string)
    ensures field in PtContact && field in EnContact
    ensures field == "sending" <==> isSubmitting
  {
    if isSubmitting then "sending" else "send"
  }

  function RenderSubmitButton(language: string, isSubmitting: bool): (button: SubmitButton)
    ensures button.disabled <==> isSubmitting
    ensures button.ariaDisabled == button.disabled
    ensures button.text == Translate(Table, language, "contact." + SubmitLabelField(isSubmitting))
  {
    SubmitButton(isSubmitting, isSubmitting, Translate(Table, language, "contact." + SubmitLabelField(isSubmitting)))
  }

  /**
   * In both shipped languages the button shows the table's non-empty
   * "sending" text while submitting and its "send" text otherwise.
   */
  lemma {:induction false} SubmitLabelIsTranslated(language: string, isSubmitting: bool)
    requires language in Table
    ensures var section := Table[language].props["contact"];
            section.Obj? && SubmitLabelField(isSubmitting) in section.props &&
            RenderSubmitButton(language, isSubmitting).text == section.props[SubmitLabelField(isSubmitting)]
    ensures RenderSubmitButton(language, isSubmitting).text.Str?
    ensures RenderSubmitButton(language, isSubmitting).text.s != ""
  {
    ContactLeafResolves(language, SubmitLabelField(isSubmitting));
  }

  /** The alert under the form: the translated success text exactly while the status is success. */
  function SuccessMessage(language: string, submitStatus: Option<string>): (message: Option<JsValue>)
    ensures message.Some? <==> submitStatus == Some(SuccessStatus)
    ensures message.Some? ==> message.value == Translate(Table, language, "contact.success")
  {
    if submitStatus == Some(SuccessStatus) then Some(Translate(Table, language, "contact.success")) else None
  }

  /** In both shipped languages the alert shows the table's non-empty success sentence. */
  lemma {:induction false} SuccessMessageIsTranslated(language: string)
    requires language in Table
    ensures var section := Table[language].props["contact"];
            section.Obj? && "success" in section.props &&
            SuccessMessage(language, Some(SuccessStatus)) == Some(section.props["success"])
    ensures SuccessMessage(language, Some(SuccessStatus)).value.Str?
    ensures SuccessMessage(language, Some(SuccessStatus)).value.s != ""
  {
    SuccessKeyIsDotted();
    ContactLeafResolves(language, "success");
  }
}
