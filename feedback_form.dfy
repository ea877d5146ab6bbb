/**
 * The submission form (frontend/src/components/FeedbackForm.tsx). `handleSubmit` is split at
 * its `await`: `Submit` runs the validation and, when it passes, marks the form as submitting
 * and hands the request to the API; `Complete` runs once the API call has succeeded or
 * failed. The 3-second timer armed by a success is the explicit `DismissBanner` event.
 */
module FeedbackForm {
  import opened Wrappers
  import opened Types

  const EmptyForm: FeedbackSubmission := FeedbackSubmission("", "", "", "")

  /** The options of the category select, after the empty "Select a category". */
  const Categories: seq<string> := ["Bug Report", "Feature Request", "General Feedback", "Usability", "Performance", "Other"]

  /** The guard of `handleSubmit`: product, feedback and category must be non-empty. */
  predicate RequiredFilled(d: FeedbackSubmission) {
    d.product != "" && d.feedback != "" && d.category != ""
  }

  /** The name is optional: it plays no part in the guard. */
  lemma NameNotRequired(d: FeedbackSubmission, name: string)
    ensures RequiredFilled(d.(name := name)) == RequiredFilled(d)
  {
  }

  /** Each of the three required fields, left empty, blocks the submission on its own. */
  lemma EmptyRequiredFieldBlocks(d: FeedbackSubmission)
    ensures d.product == "" || d.feedback == "" || d.category == "" <==> !RequiredFilled(d)
  {
  }

  /** The form's four inputs. */
  datatype Field = NameField | ProductField | FeedbackField | CategoryField

  /** `setFormData({ ...formData, [field]: value })`. */
  function WithField(d: FeedbackSubmission, field: Field, value: string): (r: FeedbackSubmission)
    ensures field == NameField ==> r == d.(name := value)
    ensures field == ProductField ==> r == d.(product := value)
    ensures field == FeedbackField ==> r == d.(feedback := value)
    ensures field == CategoryField ==> r == d.(category := value)
  {
    match field
    case NameField => d.(name := value)
    case ProductField => d.(product := value)
    case FeedbackField => d.(feedback := value)
    case CategoryField => d.(category := value)
  }

  class FormState {
    var formData: FeedbackSubmission
    var isSubmitting: bool
    var submitSuccess: bool
    /** Dismissal timers armed by successful submissions that have not fired yet. */
    var pendingDismissals: nat

    constructor ()
      ensures formData == EmptyForm && !isSubmitting && !submitSuccess && pendingDismissals == 0
    {
      formData := EmptyForm;
      isSubmitting := false;
      submitSuccess := false;
      pendingDismissals := 0;
    }

    /** The submit button is disabled exactly while a submission is in flight. */
    predicate SubmitDisabled()
      reads this
    {
      isSubmitting
    }

    /** The submit button's caption. */
    function ButtonCaption(): string
      reads this
    {
      if isSubmitting then "Submitting..." else "Submit Feedback"
    }

    /** The success banner is shown while `submitSuccess` is set. */
    predicate BannerVisible()
      reads this
    {
      submitSuccess
    }

    /** An input's change handler. */
    method Edit(field: Field, value: string)
      modifies this
      ensures formData == WithField(old(formData), field, value)
      ensures isSubmitting == old(isSubmitting) && submitSuccess == old(submitSuccess)
      ensures pendingDismissals == old(pendingDismissals)
    {
      formData := WithField(formData, field, value);
    }

    /**
     * `handleSubmit` up to the API call. With a required field empty it returns at once:
     * no request and no state change. Otherwise the form is marked as submitting and its
     * data is the request.
     */
    method Submit() returns (request: Option<FeedbackSubmission>)
      modifies this
      ensures !RequiredFilled(old(formData)) ==> request == None && isSubmitting == old(isSubmitting)
      ensures RequiredFilled(old(formData)) ==> request == Some(old(formData)) && isSubmitting
      ensures formData == old(formData) && submitSuccess == old(submitSuccess)
      ensures pendingDismissals == old(pendingDismissals)
    {
      if !RequiredFilled(formData) {
        return None;
      }
      isSubmitting := true;
      request := Some(formData);
    }

    /**
     * `handleSubmit` after the API call. On success the banner is shown, all four fields are
     * cleared, `onSubmitSuccess` is called (the result says whether it was) and a dismissal
     * timer is armed. On failure the fields and the banner stay as they were and the callback
     * is not called. Either way the form is no longer submitting.
     */
    method Complete(succeeded: bool) returns (notified: bool)
      modifies this
      ensures !isSubmitting
      ensures notified == succeeded
      ensures succeeded ==> submitSuccess && formData == EmptyForm && pendingDismissals == old(pendingDismissals) + 1
      ensures !succeeded ==> formData == old(formData) && submitSuccess == old(submitSuccess)
      ensures !succeeded ==> pendingDismissals == old(pendingDismissals)
    {
      notified := false;
      if succeeded {
        submitSuccess := true;
        formData := EmptyForm;
        notified := true;
        pendingDismissals := pendingDismissals + 1;
      }
      isSubmitting := false;
    }

    /** A dismissal timer fires: the banner is hidden and nothing else changes. */
    method DismissBanner()
      requires pendingDismissals > 0
      modifies this
      ensures !submitSuccess && pendingDismissals == old(pendingDismissals) - 1
      ensures formData == old(formData) && isSubmitting == old(isSubmitting)
    {
      submitSuccess := false;
      pendingDismissals := pendingDismissals - 1;
    }
  }
}
