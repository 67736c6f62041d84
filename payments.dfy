/**
 * The payments list: the table from a deal's stage to the status shown
 * for it, the "pending" test that decides whether the pay button is
 * offered, and the state the panel keeps while marking a payment as paid.
 */
module Payments {
  import opened Wrappers
  import opened Text
  import opened Deals

  const PaidLabel: string := "Оплачено"
  const RejectedLabel: string := "Отклонено"
  const InvoiceLabel: string := "Выставлен счет"
  const PrepaymentLabel: string := "Предоплата"
  const WorkLabel: string := "В работе"
  const PreparationLabel: string := "Подготовка"
  const NewLabel: string := "Новый"
  const ProcessingLabel: string := "В обработке"

  const PaidStage: string := "WON"
  const PaidComment: string := "Платеж получен"
  const MarkedMessage: string := "Платеж отмечен как оплаченный"
  const UpdateFallback: string := "Ошибка обновления платежа"
  const FetchFailedMessage: string := "Ошибка загрузки платежей"

  datatype Status = Status(caption: string, color: string)

  /** `getPaymentStatus`: the stage is compared in lower case against the seven known stages. */
  function PaymentStatus(stageId: string): Status
  {
    var stage := ToLower(stageId);
    if stage == "won" then Status(PaidLabel, "bg-green-100 text-green-800")
    else if stage == "lose" then Status(RejectedLabel, "bg-red-100 text-red-800")
    else if stage == "final_invoice" then Status(InvoiceLabel, "bg-indigo-100 text-indigo-800")
    else if stage == "prepayment_invoice" then Status(PrepaymentLabel, "bg-orange-100 text-orange-800")
    else if stage == "work" then Status(WorkLabel, "bg-purple-100 text-purple-800")
    else if stage == "preparation" then Status(PreparationLabel, "bg-yellow-100 text-yellow-800")
    else if stage == "new" then Status(NewLabel, "bg-blue-100 text-blue-800")
    else Status(ProcessingLabel, "bg-gray-100 text-gray-800")
  }

  /** `isPaymentPending`: every stage but won and lose, in any case. */
  predicate IsPaymentPending(stageId: string)
  {
    ToLower(stageId) !in ["won", "lose"]
  }

  /** The stages the table knows; every other stage is shown as being processed. */
  const KnownStages: seq<string> := ["won", "lose", "final_invoice", "prepayment_invoice", "work", "preparation", "new"]

  /** Letter case does not matter to the status: a stage and its lower case get the same one. */
  lemma StatusIgnoresCase(stageId: string)
    ensures PaymentStatus(stageId) == PaymentStatus(ToLower(stageId))
    ensures IsPaymentPending(stageId) == IsPaymentPending(ToLower(stageId))
  {
    ToLowerIdempotent(stageId);
  }

  /** Two spellings of one stage that differ only in case get the same status. */
  lemma SameStageSameStatus(a: string, b: string)
    requires ToLower(a) == ToLower(b)
    ensures PaymentStatus(a) == PaymentStatus(b) && IsPaymentPending(a) == IsPaymentPending(b)
  {
  }

  /** `WON` as the update writes it is the paid stage. */
  lemma WonIsPaid()
    ensures ToLower(PaidStage) == "won"
    ensures PaymentStatus(PaidStage).caption == PaidLabel
    ensures !IsPaymentPending(PaidStage)
  {
    assert ToLower(PaidStage) == "won";
  }

  /** The keys of the switch: lower-case ASCII letters and `_`. */
  predicate LowerKey(s: string)
  {
    forall i :: 0 <= i < |s| ==> 'a' <= s[i] <= 'z' || s[i] == '_'
  }

  lemma LowerKeyFixed(s: string)
    requires LowerKey(s)
    ensures ToLower(s) == s
  {
  }

  /**
   * Every case of the switch is reachable: each known stage is its own lower
   * case, gets a status other than the default, and is pending exactly when
   * it is neither won nor lose.
   */
  lemma KnownStageReached(i: nat)
    requires i < |KnownStages|
    ensures ToLower(KnownStages[i]) == KnownStages[i]
    ensures PaymentStatus(KnownStages[i]).caption != ProcessingLabel
    ensures IsPaymentPending(KnownStages[i]) <==> i >= 2
  {
    var k := KnownStages[i];
    assert LowerKey(k);
    LowerKeyFixed(k);
    OpenLabels();
    assert ProcessingLabel[1] != InvoiceLabel[1] && |ProcessingLabel| != |WorkLabel|;
    assert ProcessingLabel != PrepaymentLabel && ProcessingLabel != PreparationLabel && ProcessingLabel != NewLabel;
  }

  /** A stage unknown to the table is shown as processing, in gray, and is pending. */
  lemma UnknownStage(stageId: string)
    requires ToLower(stageId) !in KnownStages
    ensures PaymentStatus(stageId) == Status(ProcessingLabel, "bg-gray-100 text-gray-800")
    ensures IsPaymentPending(stageId)
  {
  }

  /** The labels a pending stage can show: neither paid nor rejected. */
  lemma OpenLabels()
    ensures InvoiceLabel != PaidLabel && InvoiceLabel != RejectedLabel
    ensures PrepaymentLabel != PaidLabel && PrepaymentLabel != RejectedLabel
    ensures WorkLabel != PaidLabel && WorkLabel != RejectedLabel
    ensures PreparationLabel != PaidLabel && PreparationLabel != RejectedLabel
    ensures NewLabel != PaidLabel && NewLabel != RejectedLabel
    ensures ProcessingLabel != PaidLabel && ProcessingLabel != RejectedLabel
    ensures PaidLabel != RejectedLabel
  {
    assert InvoiceLabel[0] != PaidLabel[0] && InvoiceLabel[0] != RejectedLabel[0];
    assert PrepaymentLabel[0] != PaidLabel[0] && PrepaymentLabel[0] != RejectedLabel[0];
    assert WorkLabel[0] != PaidLabel[0] && WorkLabel[0] != RejectedLabel[0];
    assert PreparationLabel[0] != PaidLabel[0] && PreparationLabel[0] != RejectedLabel[0];
    assert NewLabel[0] != PaidLabel[0] && NewLabel[0] != RejectedLabel[0];
    assert ProcessingLabel[0] != PaidLabel[0] && ProcessingLabel[0] != RejectedLabel[0];
    assert PaidLabel[1] != RejectedLabel[1];
  }

  /** The two tests agree: a stage is pending exactly when its label is neither paid nor rejected. */
  lemma PendingIffOpenLabel(stageId: string)
    ensures IsPaymentPending(stageId) <==> PaymentStatus(stageId).caption != PaidLabel && PaymentStatus(stageId).caption != RejectedLabel
  {
    OpenLabels();
  }

  // ---------------------------------------------------------------------------
  // The panel
  // ---------------------------------------------------------------------------

  /** A row of the list: the deal's id and its stage. */
  datatype Payment = Payment(id: int, stageId: string)

  /** The stage update `handleMarkAsPaid` sends. */
  datatype StageUpdate = StageUpdate(stageId: string, comments: string)

  /** How the update request failed: with a server response, perhaps carrying a message, or without one. */
  datatype UpdateError = UpdateError(hasResponse: bool, message: Option<string>)

  datatype UpdateReply = Updated | UpdateFailed(error: UpdateError)

  datatype FetchReply = Fetched(items: seq<Payment>) | FetchFailed

  /** The page's error text for a failed update: the server's message if there is one, else the fallback. */
  function UpdateErrorMessage(e: UpdateError): (m: string)
    ensures m != ""
    ensures m == UpdateFallback || (e.hasResponse && Truthy(e.message) && m == e.message.value)
    ensures e.hasResponse && Truthy(e.message) ==> m == e.message.value
  {
    var errorMsg := if e.hasResponse then e.message else Some(UpdateFallback);
    if Truthy(errorMsg) then errorMsg.value else UpdateFallback
  }

  class PaymentsPanel {
    var payments: seq<Payment>
    var isLoading: bool
    var errorMessage: string
    var successMessage: string
    var isUpdating: Option<int>

    constructor ()
      ensures payments == [] && isLoading && errorMessage == "" && successMessage == "" && isUpdating == None
    {
      payments := [];
      isLoading := true;
      errorMessage := "";
      successMessage := "";
      isUpdating := None;
    }

    /** The pay button is offered for pending rows only, and disabled for the row being updated. */
    predicate PayButtonEnabled(p: Payment)
      reads this
    {
      IsPaymentPending(p.stageId) && isUpdating != Some(p.id)
    }

    /** A row whose status reads paid or rejected never offers the pay button. */
    lemma SettledRowNoButton(p: Payment)
      requires PaymentStatus(p.stageId).caption == PaidLabel || PaymentStatus(p.stageId).caption == RejectedLabel
      ensures !PayButtonEnabled(p)
    {
      PendingIffOpenLabel(p.stageId);
    }

    /** `fetchPayments` up to the request: loading, with the error cleared. */
    method FetchStart() returns (call: DealsCall)
      modifies this`isLoading, this`errorMessage
      ensures isLoading && errorMessage == ""
      ensures call == GetDeals(None) && Route(call) == (Get, DealsPath)
    {
      isLoading := true;
      errorMessage := "";
      call := GetDeals(None);
      assert QueryPairs(None) == [] && DealsPath + "" == DealsPath;
    }

    /** The rest of `fetchPayments`: the items, or the load error, and loading over either way. */
    method FetchFinish(reply: FetchReply)
      modifies this`payments, this`errorMessage, this`isLoading
      ensures !isLoading
      ensures reply.Fetched? ==> payments == reply.items && errorMessage == old(errorMessage)
      ensures reply.FetchFailed? ==> payments == old(payments) && errorMessage == FetchFailedMessage
    {
      if reply.Fetched? {
        payments := reply.items;
      } else {
        errorMessage := FetchFailedMessage;
      }
      isLoading := false;
    }

    /** `handleMarkAsPaid` up to the update: the row is marked as updating and both messages cleared. */
    method MarkAsPaidStart(dealId: int) returns (call: DealsCall, update: StageUpdate)
      modifies this`isUpdating, this`errorMessage, this`successMessage
      ensures isUpdating == Some(dealId) && errorMessage == "" && successMessage == ""
      ensures call == UpdateDeal(dealId) && Route(call) == (Put, DealPath(dealId))
      ensures update == StageUpdate(PaidStage, PaidComment) && !IsPaymentPending(update.stageId)
      ensures forall stageId :: !PayButtonEnabled(Payment(dealId, stageId))
    {
      isUpdating := Some(dealId);
      errorMessage := "";
      successMessage := "";
      call := UpdateDeal(dealId);
      update := StageUpdate(PaidStage, PaidComment);
      WonIsPaid();
    }

    /**
     * The update's reply. A success shows the confirmation and reloads the
     * list, returning the reload request; a failure shows the error and
     * ends the update.
     */
    method MarkAsPaidUpdated(reply: UpdateReply) returns (reload: Option<DealsCall>)
      modifies this`isUpdating, this`errorMessage, this`successMessage, this`isLoading
      ensures reply.Updated? ==>
        successMessage == MarkedMessage && isLoading && errorMessage == ""
        && isUpdating == old(isUpdating) && reload == Some(GetDeals(None))
      ensures reply.UpdateFailed? ==>
        errorMessage == UpdateErrorMessage(reply.error) && isUpdating == None
        && successMessage == old(successMessage) && isLoading == old(isLoading) && reload == None
    {
      if reply.Updated? {
        successMessage := MarkedMessage;
        var call := FetchStart();
        reload := Some(call);
      } else {
        errorMessage := UpdateErrorMessage(reply.error);
        isUpdating := None;
        reload := None;
      }
    }

    /** The reload after a successful update: the list is refreshed and the update ends. */
    method MarkAsPaidReloaded(reply: FetchReply)
      modifies this`payments, this`errorMessage, this`isLoading, this`isUpdating
      ensures !isLoading && isUpdating == None
      ensures reply.Fetched? ==> payments == reply.items && errorMessage == old(errorMessage)
      ensures reply.FetchFailed? ==> payments == old(payments) && errorMessage == FetchFailedMessage
    {
      FetchFinish(reply);
      isUpdating := None;
    }
  }
}
