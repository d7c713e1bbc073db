/**
 * The plan modal: the payment-proof form's submit guard, its submit and close
 * transitions, and the label shown for the current plan's status.
 */
module PlanModal {
  import opened Wrappers
  import opened Types
  import opened UserPlans
  import Text

  const SEND_FAILED := "Erro ao enviar comprovante: "

  /** The label of the "Status do seu plano" line. */
  function StatusLabel(status: PlanStatus): (shown: string)
    ensures status == Active ==> shown == "Plano ativo"
    ensures status == Pending ==> shown == "Aguardando aprovação"
    ensures status == Expired ==> shown == "Plano expirado"
  {
    match status
    case Active => "Plano ativo"
    case Pending => "Aguardando aprovação"
    case Expired => "Plano expirado"
  }

  /** Each status has its own label, so the label tells the status. */
  lemma StatusLabelsDistinct(a: PlanStatus, b: PlanStatus)
    requires StatusLabel(a) == StatusLabel(b)
    ensures a == b
  {
    assert "Plano ativo" != "Aguardando aprovação" && "Plano ativo" != "Plano expirado";
    assert "Aguardando aprovação" != "Plano expirado";
  }

  /** `loading || !paymentProofUrl.trim()`: busy, or a proof URL of whitespace only. */
  function SubmitDisabled(loading: bool, proofUrl: string): (disabled: bool)
    ensures disabled <==> loading || forall i :: 0 <= i < |proofUrl| ==> Text.IsAsciiSpace(proofUrl[i])
  {
    Text.TrimEmptyIffAllSpace(proofUrl);
    loading || Text.Trim(proofUrl) == ""
  }

  datatype ModalView =
    | Hidden
    | Sent
    | Form(submitDisabled: bool, spinner: bool, planStatus: Option<string>)

  /** What the modal shows: nothing when closed, the confirmation after a submit, else the form. */
  function Render(isOpen: bool, success: bool, loading: bool, proofUrl: string, userPlan: Option<UserPlan>)
    : (v: ModalView)
    ensures !isOpen <==> v == Hidden
    ensures isOpen && success <==> v == Sent
    ensures v.Form? ==> v.submitDisabled == SubmitDisabled(loading, proofUrl) && v.spinner == loading
    ensures v.Form? ==> (v.planStatus.Some? <==> userPlan.Some?)
    ensures v.Form? && userPlan.Some? ==> v.planStatus == Some(StatusLabel(userPlan.value.status))
  {
    if !isOpen then Hidden
    else if success then Sent
    else Form(SubmitDisabled(loading, proofUrl), loading,
      if userPlan.Some? then Some(StatusLabel(userPlan.value.status)) else None)
  }

  /** The modal's state; `closeRequests` counts the calls of its `onClose` callback. */
  class Modal {
    const plans: UserPlanHook
    var paymentProofUrl: string
    var loading: bool
    var success: bool
    var closeRequests: nat

    constructor (plans: UserPlanHook)
      ensures this.plans == plans
      ensures paymentProofUrl == "" && !loading && !success && closeRequests == 0
    {
      this.plans := plans;
      paymentProofUrl := "";
      loading := false;
      success := false;
      closeRequests := 0;
    }

    /** The URL input's `onChange`. */
    method EditProofUrl(url: string)
      modifies this
      ensures paymentProofUrl == url
      ensures loading == old(loading) && success == old(success) && closeRequests == old(closeRequests)
    {
      paymentProofUrl := url;
    }

    /**
     * `handleSubmit`: sends the plan request. On success the confirmation is
     * shown and the URL cleared; on failure an alert is raised and the URL
     * kept. `loading` ends false either way.
     */
    method HandleSubmit(user: Option<User>, now: Timestamp, fault: Option<StoreError>)
      returns (alert: Option<string>)
      modifies this, plans, plans.store
      ensures user.Some? && fault.None? ==> (alert.None? && success && paymentProofUrl == ""
        && plans.store.rows == old(plans.store.rows) + [PlanRequest(user.value.id, old(paymentProofUrl), now)]
        && plans.userPlan == Some(PlanRequest(user.value.id, old(paymentProofUrl), now)))
      ensures user.None? ==> (alert == Some(SEND_FAILED + NOT_SIGNED_IN) && plans.store.rows == old(plans.store.rows))
      ensures user.Some? && fault.Some? ==>
        (alert == Some(SEND_FAILED + ThrownMessage(fault.value, REQUEST_FAILED))
        && plans.store.rows == old(plans.store.rows))
      ensures alert.Some? ==> success == old(success) && paymentProofUrl == old(paymentProofUrl)
      ensures alert.Some? ==> plans.userPlan == old(plans.userPlan)
      ensures plans.loading == old(plans.loading)
      ensures !loading && closeRequests == old(closeRequests)
      ensures plans.hasActivePlan == old(plans.hasActivePlan)
    {
      loading := true;
      var r := plans.CreatePlanRequest(user, paymentProofUrl, now, fault);
      if r.Ok? {
        success := true;
        paymentProofUrl := "";
        alert := None;
      } else {
        alert := Some(SEND_FAILED + r.error);
      }
      loading := false;
    }

    /** `handleClose`: clears the confirmation and the URL, then calls `onClose`. */
    method HandleClose()
      modifies this
      ensures !success && paymentProofUrl == ""
      ensures closeRequests == old(closeRequests) + 1 && loading == old(loading)
    {
      success := false;
      paymentProofUrl := "";
      closeRequests := closeRequests + 1;
    }

    function View(isOpen: bool): ModalView
      reads this, plans
    {
      Render(isOpen, success, loading, paymentProofUrl, plans.userPlan)
    }
  }
}
