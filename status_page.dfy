/** The seller's application status page: the four-step progress train, the
    text that explains the current status and the actions offered for it. */
module StatusPage {

  const Submitted := "submitted"
  const InReview := "in_review"
  const NeedsClarification := "needs_clarification"
  const ClarificationSubmitted := "clarification_submitted"
  const Approved := "approved"
  const Rejected := "rejected"

  /** The six statuses an application can be in. */
  predicate KnownStatus(status: string) {
    status in {Submitted, InReview, NeedsClarification, ClarificationSubmitted, Approved, Rejected}
  }

  /** `getStepFromStatus`: the step of the train a status sits on. An unknown
      status is shown on the first step. */
  function StepOf(status: string): (step: int)
    ensures 1 <= step <= 4
    ensures step == 2 <==> status == InReview
    ensures step == 3 <==> status == NeedsClarification || status == ClarificationSubmitted
    ensures step == 4 <==> status == Approved || status == Rejected
    ensures step == 1 <==> !(status in {InReview, NeedsClarification, ClarificationSubmitted, Approved, Rejected})
  {
    if status == Submitted then 1
    else if status == InReview then 2
    else if status == NeedsClarification || status == ClarificationSubmitted then 3
    else if status == Approved || status == Rejected then 4
    else 1
  }

  /** One step of the train as the page draws it. */
  datatype Step = Step(number: int, title: string, isComplete: bool, isCurrent: bool)

  /** The title of the third step. */
  function ThirdTitle(status: string): string {
    if status == NeedsClarification then "Clarifications" else "Processing"
  }

  /** The title of the fourth step. */
  function FourthTitle(status: string): string {
    if status == Approved then "Approved" else if status == Rejected then "Rejected" else "Pending"
  }

  function StepFor(status: string, number: int, title: string): Step {
    var current := StepOf(status);
    Step(number, title, current >= number, current == number)
  }

  /** The four steps: step `n` is complete when the current step is `n` or
      later, and current when it is `n`. */
  function Train(status: string): (steps: seq<Step>)
    ensures |steps| == 4
    ensures forall n :: 0 <= n < 4 ==> steps[n].number == n + 1
    ensures forall n :: 0 <= n < 4 ==>
      steps[n].isComplete == (StepOf(status) >= n + 1) && steps[n].isCurrent == (StepOf(status) == n + 1)
  {
    [StepFor(status, 1, "Submitted"), StepFor(status, 2, "In Review"),
     StepFor(status, 3, ThirdTitle(status)), StepFor(status, 4, FourthTitle(status))]
  }

  /** Exactly one step is current, and it is also marked complete, together
      with every step before it. */
  lemma OneCurrentStep(status: string)
    ensures var steps := Train(status);
      exists n :: 0 <= n < 4 && steps[n].isCurrent && steps[n].isComplete
        && (forall m :: 0 <= m < 4 && steps[m].isCurrent ==> m == n)
        && (forall m :: 0 <= m <= n ==> steps[m].isComplete)
        && (forall m :: n < m < 4 ==> !steps[m].isComplete)
  {
    var steps := Train(status);
    var n := StepOf(status) - 1;
    assert steps[n].isCurrent;
  }

  /** The third step is titled "Clarifications" exactly while clarifications
      are requested; the fourth names the decision once there is one. */
  lemma StepTitles(status: string)
    ensures Train(status)[2].title == "Clarifications" <==> status == NeedsClarification
    ensures Train(status)[3].title == "Approved" <==> status == Approved
    ensures Train(status)[3].title == "Rejected" <==> status == Rejected
    ensures Train(status)[3].title == "Pending" <==> status != Approved && status != Rejected
  {
  }

  const SubmittedText := "Your application has been submitted and is in the queue for review. Our team will begin reviewing it shortly."
  const InReviewText := "Our team is currently reviewing your application and verifying the submitted documents. This typically takes 48-72 business hours."
  const ClarificationText := "We need some additional information to process your application. Please check the messages above and provide the requested clarifications."
  const ClarifiedText := "Thank you for providing the clarifications. Our team will review them and update your status soon."
  const ApprovedText := "Congratulations! Your application has been approved. You can now access your seller dashboard and start listing products."
  const RejectedText := "Unfortunately, we were unable to approve your application at this time. Please check the messages for more information."
  const FallbackText := "Processing your application..."

  /** `getStatusDescription`. */
  function Description(status: string): string {
    if status == Submitted then SubmittedText
    else if status == InReview then InReviewText
    else if status == NeedsClarification then ClarificationText
    else if status == ClarificationSubmitted then ClarifiedText
    else if status == Approved then ApprovedText
    else if status == Rejected then RejectedText
    else FallbackText
  }

  /** Each of the six statuses has its own text, and none of them shows the
      fallback. */
  lemma DescriptionsDistinct(s1: string, s2: string)
    requires KnownStatus(s1) && s1 != s2
    ensures Description(s1) != Description(s2)
  {
    assert |Description(s1)| != |Description(s2)|;
  }

  /** The actions card: clarifications can be provided only while they are
      requested, and the dashboard link appears only once approved. */
  datatype Actions = Actions(provideClarifications: bool, dashboardLink: bool)

  function ActionsFor(status: string): (a: Actions)
    ensures a.provideClarifications <==> status == NeedsClarification
    ensures a.dashboardLink <==> status == Approved
    ensures !(a.provideClarifications && a.dashboardLink)
  {
    Actions(status == NeedsClarification, status == Approved)
  }
}
