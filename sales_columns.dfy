/**
 * The sales history table (src/app/dashboard/sales-history/components/columns.tsx):
 * the status badge, the customer cell, and the actions offered for a sale.
 */
module SalesColumns {
  import opened Wrappers
  import opened Types

  const CompletedStatus: string := "Completed"
  const RefundedStatus: string := "Refunded"
  const NoCustomer: string := "N/A"

  datatype BadgeVariant = Default | Destructive | Outline

  function StatusBadge(status: string): (v: BadgeVariant)
    ensures v == Default <==> status == CompletedStatus
    ensures v == Destructive <==> status == RefundedStatus
    ensures v == Outline <==> status != CompletedStatus && status != RefundedStatus
  {
    if status == CompletedStatus then Default
    else if status == RefundedStatus then Destructive
    else Outline
  }

  /** `customer?.name || "N/A"`. */
  function CustomerCell(sale: Sale): (cell: string)
    ensures cell != ""
    ensures sale.customer.Some? && sale.customer.value.name != "" ==> cell == sale.customer.value.name
    ensures sale.customer.None? || sale.customer.value.name == "" ==> cell == NoCustomer
  {
    if sale.customer.Some? && sale.customer.value.name != "" then sale.customer.value.name else NoCustomer
  }

  /** A menu item with the callback it triggers: details take the sale id, a refund the whole sale. */
  datatype SaleAction = ViewDetails(saleId: int) | ProcessRefund(sale: Sale)

  /** The actions menu of a row: details always, a refund only for a completed sale. */
  function Actions(sale: Sale): (acts: seq<SaleAction>)
    ensures |acts| >= 1 && acts[0] == ViewDetails(sale.id)
    ensures ProcessRefund(sale) in acts <==> sale.status == CompletedStatus
    ensures forall a :: a in acts ==> a == ViewDetails(sale.id) || a == ProcessRefund(sale)
  {
    [ViewDetails(sale.id)] + (if sale.status == CompletedStatus then [ProcessRefund(sale)] else [])
  }

  /** A refund is offered exactly for sales that show the default badge, and never for one already refunded. */
  lemma RefundOnlyForDefaultBadge(sale: Sale)
    ensures ProcessRefund(sale) in Actions(sale) <==> StatusBadge(sale.status) == Default
    ensures ProcessRefund(sale) in Actions(sale) ==> sale.status != RefundedStatus
  {
  }
}
