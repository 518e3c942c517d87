/**
 * The main form page as a three-page wizard: the draft, the current page and
 * the loading flag, with the handlers that change them.
 */
module MainFormPage {
  import opened DraftRules
  import opened SubmitPayload
  import opened Wrappers

  /** What the submit collaborator hands back: a reply with its status flag and message, or a thrown error. */
  datatype SubmitReply =
    | Replied(status: bool, message: string)  // `message` is "" when the reply carries none
    | Threw(message: string)                  // the thrown value's `Message` property, "" when absent

  /** The notification shown after a submit attempt. */
  datatype Toast = ToastSuccess(text: string) | ToastError(text: string)

  /** `a || b` on strings: the first when it is not empty. */
  function OrElse(a: string, b: string): (r: string)
    ensures r == a || r == b
    ensures r != "" <== a != "" || b != ""
    ensures a != "" ==> r == a
  {
    if a != "" then a else b
  }

  /** The toast an attempt produces: the reply's own message when it has one, else a fixed text per outcome. */
  function SubmitToast(reply: SubmitReply): (t: Toast)
    ensures t.ToastSuccess? <==> reply.Replied? && reply.status
    ensures t.text != ""
    ensures reply.message != "" ==> t.text == reply.message
  {
    match reply
    case Replied(status, message) =>
      if status then ToastSuccess(OrElse(message, "Form submitted successfully!"))
      else ToastError(OrElse(message, "Invalid Inputs."))
    case Threw(message) => ToastError(OrElse(message, "Submission failed. Please try again."))
  }

  /** The page `nextPage` leads to: forward from 1 or 2 when that page is valid, otherwise where it was. */
  function NextPageOf(page: int, d: Draft): int
  {
    if page == 1 && IsPage1Valid(d) then 2
    else if page == 2 && IsPage2Valid(d) then 3
    else page
  }

  /** The page `prevPage` leads to. */
  function PrevPageOf(page: int): int
  {
    if page > 1 then page - 1 else page
  }

  /** The Next button's `disabled` expression. */
  predicate NextDisabled(page: int, d: Draft)
  {
    (page == 1 && !IsPage1Valid(d)) || (page == 2 && !IsPage2Valid(d))
  }

  /** The Submit button, shown on page 3: whether it is enabled and its caption. */
  datatype SubmitButton = SubmitButton(enabled: bool, caption: string)

  function SubmitButtonOf(d: Draft, loading: bool): (b: SubmitButton)
    ensures b.enabled <==> IsPage3Valid(d)
    ensures b.caption == (if loading then "Submitting ..." else "Submit")
  {
    SubmitButton(IsPage3Valid(d), if loading then "Submitting ..." else "Submit")
  }

  /**
   * On pages 1 and 2 the Next button is enabled exactly when a click moves
   * forward by one page; a click it would have refused leaves the page where
   * it is. Both moves keep the page within 1..3.
   */
  lemma NextButtonMatchesNextPage(page: int, d: Draft)
    requires 1 <= page <= 3
    ensures page < 3 ==> (!NextDisabled(page, d) <==> NextPageOf(page, d) == page + 1)
    ensures NextDisabled(page, d) ==> NextPageOf(page, d) == page
    ensures NextPageOf(page, d) == 3 <==> page == 3 || (page == 2 && IsPage2Valid(d))
    ensures 1 <= NextPageOf(page, d) <= 3 && 1 <= PrevPageOf(page) <= 3
  {
  }

  /** The loading flag changes only the caption: it never disables a second submit. */
  lemma LoadingDoesNotBlockSubmit(d: Draft)
    ensures SubmitButtonOf(d, true).enabled == SubmitButtonOf(d, false).enabled
    ensures SubmitButtonOf(d, true).caption != SubmitButtonOf(d, false).caption
  {
  }

  class RegistrationWizard {
    var draft: Draft
    var page: int
    var loading: bool
    /** Set once a submit has been accepted and the app has moved on to the final page. */
    var finished: bool

    ghost predicate Valid()
      reads this
    {
      1 <= page <= 3
    }

    constructor ()
      ensures Valid()
      ensures draft == EmptyDraft && page == 1 && !loading && !finished
    {
      draft := EmptyDraft;
      page := 1;
      loading := false;
      finished := false;
    }

    /** `handleInputChange`: only the named field changes. */
    method HandleInputChange(field: Field, value: string)
      requires Valid()
      modifies this`draft
      ensures Valid()
      ensures draft == old(draft).With(field, value)
      ensures draft.Get(field) == value
      ensures forall g :: g != field ==> draft.Get(g) == old(draft).Get(g)
    {
      draft := draft.With(field, value);
    }

    /** `handleSelectChange`: a paired selector clears its "Other" text unless the new value is "Other". */
    method HandleSelectChange(field: Field, value: string)
      requires Valid()
      modifies this`draft
      ensures Valid()
      ensures draft == SelectChange(old(draft), field, value)
      ensures draft.Get(field) == value
      ensures OtherText(field).Some? && value != "Other" ==> draft.Get(OtherText(field).value) == ""
      ensures forall g :: g != field && OtherText(field) != Some(g) ==> draft.Get(g) == old(draft).Get(g)
    {
      if field == DepartureCity || field == ArrivalCity || field == MealPreference {
        draft := SelectChange(draft, field, value);
      } else {
        HandleInputChange(field, value);
      }
    }

    /** `nextPage`. */
    method NextPage()
      requires Valid()
      modifies this`page
      ensures Valid()
      ensures page == NextPageOf(old(page), draft)
      ensures page != old(page) <==> !NextDisabled(old(page), draft) && old(page) < 3
    {
      if page == 1 && IsPage1Valid(draft) {
        page := 2;
      } else if page == 2 && IsPage2Valid(draft) {
        page := 3;
      }
    }

    /** `prevPage`. */
    method PrevPage()
      requires Valid()
      modifies this`page
      ensures Valid()
      ensures page == PrevPageOf(old(page))
      ensures page == old(page) - 1 <==> old(page) > 1
    {
      if page > 1 {
        page := page - 1;
      }
    }

    /**
     * `handleSubmit` with the collaborator's answer as a parameter: it sends
     * the body built from the draft, moves on to the final page on an accepted
     * reply, and clears the loading flag whatever the outcome. The draft and
     * the page are left as they were.
     */
    method HandleSubmit(reply: SubmitReply) returns (sent: seq<Entry>, toast: Toast)
      requires Valid()
      modifies this`loading, this`finished
      ensures Valid()
      ensures sent == Payload(draft)
      ensures !loading
      ensures finished == (old(finished) || (reply.Replied? && reply.status))
      ensures toast == SubmitToast(reply)
    {
      loading := true;
      sent := BuildFormData(draft);
      toast := SubmitToast(reply);
      if reply.Replied? && reply.status {
        finished := true;
      }
      loading := false;
    }
  }
}
