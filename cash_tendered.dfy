/**
 * The cash payment dialog (src/app/dashboard/sales/components/CashTenderedDialog.tsx).
 * Amounts are integers in cents. The text typed into the amount box enters
 * the model as the result of `parseFloat` on it: None when it is not a
 * number (an empty box included).
 */
module CashTendered {
  import opened Wrappers

  /** The three values the dialog derives from the input and the total. */
  datatype TenderSummary = TenderSummary(tendered: int, changeDue: int, confirmDisabled: bool)

  /** `parseFloat(amountTenderedStr) || 0`: NaN (and 0) give 0. */
  function TenderedAmount(parsed: Option<int>): (t: int)
    ensures parsed.None? ==> t == 0
    ensures parsed.Some? ==> t == parsed.value
  {
    if parsed.Some? && parsed.value != 0 then parsed.value else 0
  }

  /** The memoised summary: change is tendered minus total; confirm is disabled while too little is tendered. */
  function Summary(parsed: Option<int>, totalPrice: int): (s: TenderSummary)
    ensures s.tendered == TenderedAmount(parsed)
    ensures s.tendered == s.changeDue + totalPrice
    ensures s.confirmDisabled <==> s.changeDue < 0
  {
    var tendered := TenderedAmount(parsed);
    var change := tendered - totalPrice;
    TenderSummary(tendered, change, tendered < totalPrice)
  }

  /** The change shown: a shortfall shows as 0. */
  function DisplayedChange(changeDue: int): (shown: int)
    ensures shown >= 0
    ensures shown >= changeDue
    ensures changeDue >= 0 ==> shown == changeDue
    ensures changeDue < 0 ==> shown == 0
  {
    if changeDue < 0 then 0 else changeDue
  }

  /** Paying exactly the total is accepted with no change; any less is refused. */
  lemma ExactTenderAccepted(parsed: Option<int>, totalPrice: int)
    ensures TenderedAmount(parsed) == totalPrice ==>
      !Summary(parsed, totalPrice).confirmDisabled && DisplayedChange(Summary(parsed, totalPrice).changeDue) == 0
    ensures TenderedAmount(parsed) < totalPrice ==>
      Summary(parsed, totalPrice).confirmDisabled && DisplayedChange(Summary(parsed, totalPrice).changeDue) == 0
  {
  }

  /** Whenever confirm is enabled, the change shown is the real change and the tender covers the total. */
  lemma ShownChangeWhenEnabled(parsed: Option<int>, totalPrice: int)
    requires !Summary(parsed, totalPrice).confirmDisabled
    ensures DisplayedChange(Summary(parsed, totalPrice).changeDue) + totalPrice == TenderedAmount(parsed)
  {
  }

  /** The dialog's own state. */
  class CashTenderedDialog {
    var amountTendered: Option<int>
    var isSubmitting: bool

    constructor ()
      ensures amountTendered == None && !isSubmitting
    {
      amountTendered := None;
      isSubmitting := false;
    }

    /** The confirm button's `disabled` binding. */
    function ConfirmButtonDisabled(totalPrice: int): (disabled: bool)
      reads this
      ensures disabled <==> TenderedAmount(amountTendered) < totalPrice || isSubmitting
    {
      Summary(amountTendered, totalPrice).confirmDisabled || isSubmitting
    }

    /** Typing in the amount box. */
    method SetAmountTendered(parsed: Option<int>)
      modifies this
      ensures amountTendered == parsed && isSubmitting == old(isSubmitting)
    {
      amountTendered := parsed;
    }

    /** The effect on `isOpen`: opening clears the input and the submitting flag; closing changes nothing. */
    method OnOpenChanged(isOpen: bool)
      modifies this
      ensures isOpen ==> amountTendered == None && !isSubmitting
      ensures !isOpen ==> amountTendered == old(amountTendered) && isSubmitting == old(isSubmitting)
    {
      if isOpen {
        amountTendered := None;
        isSubmitting := false;
      }
    }

    /**
     * `handleConfirm`, for a confirmation that throws or not. Returns how
     * many times `onConfirmSale` was called.
     */
    method HandleConfirm(totalPrice: int, confirmThrows: bool) returns (confirmCalls: nat)
      modifies this
      ensures amountTendered == old(amountTendered)
      ensures Summary(amountTendered, totalPrice).confirmDisabled ==> confirmCalls == 0 && isSubmitting == old(isSubmitting)
      ensures !Summary(amountTendered, totalPrice).confirmDisabled ==> confirmCalls == 1 && isSubmitting == !confirmThrows
    {
      var summary := Summary(amountTendered, totalPrice);
      if summary.confirmDisabled {
        return 0;
      }
      isSubmitting := true;
      confirmCalls := 1;
      if confirmThrows {
        isSubmitting := false;
      }
    }
  }
}
