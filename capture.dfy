/** The handler for the payment processor's `payment_attempt.capture_requested`
    webhook: it records a capture that already happened at the processor as an
    offline-capture invoice on the order the payment intent belongs to.

    Amounts are fixed-point integers (minor units of the currency). */
module CaptureWebhook {
  import opened Wrappers

  /** The event name this handler is registered under. */
  const WEBHOOK_NAME: string := "payment_attempt.capture_requested"

  /** Magento's requested capture cases for an invoice. */
  datatype CaptureCase = NotCapture | CaptureOnline | CaptureOffline

  datatype Invoice = Invoice(
    subtotal: int,
    baseSubtotal: int,
    grandTotal: int,
    baseGrandTotal: int,
    transactionId: string,
    requestedCaptureCase: CaptureCase)

  /** The values of an order that the handler reads or writes. */
  datatype OrderState = OrderState(
    grandTotal: int,
    baseGrandTotal: int,
    totalPaid: int,
    baseTotalPaid: int,
    invoices: seq<Invoice>,
    customerNoteNotify: bool,
    isInProcess: bool)

  /** The `data` object of a capture_requested event. */
  datatype CaptureData = CaptureData(paymentIntentId: string, capturedAmount: int)

  datatype WebhookError = WebhookException(message: string)

  /** An object handed to a database transaction, as it is when saved. */
  datatype Document = InvoiceDoc(invoice: Invoice) | OrderDoc(order: OrderState)

  /** What is left to pay on the order, in the base currency. */
  function Remaining(s: OrderState): int {
    s.baseGrandTotal - s.baseTotalPaid
  }

  /** The idempotence guard: nothing is left to pay. */
  predicate FullyPaid(s: OrderState) {
    Remaining(s) == 0
  }

  function NotFoundMessage(paymentIntentId: string): string {
    "Payment Intent: " + paymentIntentId + ": Can't find Order"
  }

  /** The invoice InvoiceService::prepareInvoice drafts for the order (a platform
      service; here its totals are the unpaid amounts and nothing else is set). */
  function DraftInvoice(s: OrderState): Invoice {
    Invoice(s.grandTotal - s.totalPaid, Remaining(s), s.grandTotal - s.totalPaid, Remaining(s), "", NotCapture)
  }

  /** An invoice recording the event's capture: every total is the captured
      amount, it carries the payment intent id and is captured offline. */
  predicate IsCaptureInvoiceFor(inv: Invoice, d: CaptureData) {
    && inv.subtotal == d.capturedAmount
    && inv.baseSubtotal == d.capturedAmount
    && inv.grandTotal == d.capturedAmount
    && inv.baseGrandTotal == d.capturedAmount
    && inv.transactionId == d.paymentIntentId
    && inv.requestedCaptureCase == CaptureOffline
  }

  /** The draft after the handler's setters have run. */
  function CaptureInvoice(s: OrderState, d: CaptureData): (inv: Invoice)
    ensures IsCaptureInvoiceFor(inv, d)
  {
    DraftInvoice(s).(
      subtotal := d.capturedAmount,
      baseSubtotal := d.capturedAmount,
      grandTotal := d.capturedAmount,
      transactionId := d.paymentIntentId,
      baseGrandTotal := d.capturedAmount,
      requestedCaptureCase := CaptureOffline)
  }

  /** The invoice does not depend on the order: nothing in it is compared with,
      or bounded by, what is left to pay. */
  lemma CaptureInvoiceIgnoresOrder(s: OrderState, t: OrderState, d: CaptureData)
    ensures CaptureInvoice(s, d) == CaptureInvoice(t, d)
  {
  }

  /** Invoice::register for an offline capture (a platform service; this is the
      model's assumption about it): the order pays the invoice and lists it. */
  function Registered(s: OrderState, inv: Invoice): OrderState {
    s.(totalPaid := s.totalPaid + inv.grandTotal,
       baseTotalPaid := s.baseTotalPaid + inv.baseGrandTotal,
       invoices := s.invoices + [inv])
  }

  /** The order after the handler has processed one event for it. */
  function ApplyCapture(s: OrderState, d: CaptureData): (r: OrderState)
    ensures FullyPaid(s) ==> r == s
    ensures !FullyPaid(s) ==>
      && |r.invoices| == |s.invoices| + 1
      && r.invoices[..|s.invoices|] == s.invoices
      && IsCaptureInvoiceFor(r.invoices[|s.invoices|], d)
    ensures !FullyPaid(s) ==>
      && r.baseTotalPaid == s.baseTotalPaid + d.capturedAmount
      && r.totalPaid == s.totalPaid + d.capturedAmount
      && r.grandTotal == s.grandTotal && r.baseGrandTotal == s.baseGrandTotal
      && !r.customerNoteNotify && r.isInProcess
  {
    if FullyPaid(s) then s
    else Registered(s, CaptureInvoice(s, d)).(customerNoteNotify := false, isInProcess := true)
  }

  /** The batches the handler saves for one event: the invoice and its order
      together, or nothing. */
  function SavedBatches(s: OrderState, d: CaptureData): (b: seq<seq<Document>>)
    ensures FullyPaid(s) <==> b == []
    ensures !FullyPaid(s) ==>
      && |b| == 1 && |b[0]| == 2 && b[0][0].InvoiceDoc? && b[0][1].OrderDoc?
      && b[0][1].order == ApplyCapture(s, d)
      && |b[0][1].order.invoices| > 0
      && b[0][1].order.invoices[|b[0][1].order.invoices| - 1] == b[0][0].invoice
  {
    if FullyPaid(s) then [] else [[InvoiceDoc(CaptureInvoice(s, d)), OrderDoc(ApplyCapture(s, d))]]
  }

  /** The same event delivered `n` times in a row. */
  function Redeliver(s: OrderState, d: CaptureData, n: nat): OrderState
    decreases n
  {
    if n == 0 then s else Redeliver(ApplyCapture(s, d), d, n - 1)
  }

  /** The captured amount is used as given: a capture for more than is left to
      pay is invoiced in full and leaves the order overpaid. */
  lemma OverCaptureIsNotClamped(s: OrderState, d: CaptureData)
    requires !FullyPaid(s) && d.capturedAmount > Remaining(s)
    ensures var r := ApplyCapture(s, d);
      r.invoices[|s.invoices|].baseGrandTotal == d.capturedAmount && Remaining(r) < 0
  {
  }

  /** A second delivery of the same event changes nothing exactly when the first
      left nothing to pay: when the order was already paid, or the captured
      amount was the whole remainder. */
  lemma SecondDeliveryIsNoOpIff(s: OrderState, d: CaptureData)
    ensures ApplyCapture(ApplyCapture(s, d), d) == ApplyCapture(s, d)
        <==> FullyPaid(s) || d.capturedAmount == Remaining(s)
  {
    var once := ApplyCapture(s, d);
    if !FullyPaid(s) && d.capturedAmount != Remaining(s) {
      assert !FullyPaid(once);
      assert |ApplyCapture(once, d).invoices| == |once.invoices| + 1;
    }
  }

  /** Any number of deliveries, one after another, of an event that settles the
      order leave one invoice. */
  lemma {:induction false} RedeliveryKeepsOneInvoice(s: OrderState, d: CaptureData, n: nat)
    requires n >= 1
    requires FullyPaid(s) || d.capturedAmount == Remaining(s)
    ensures Redeliver(s, d, n) == ApplyCapture(s, d)
    ensures |Redeliver(s, d, n).invoices| <= |s.invoices| + 1
    decreases n
  {
    if n > 1 {
      var once := ApplyCapture(s, d);
      assert FullyPaid(once);
      RedeliveryKeepsOneInvoice(once, d, n - 1);
      assert Redeliver(once, d, n - 1) == once;
    }
  }

  /** A partial capture delivered twice is invoiced twice. */
  lemma PartialCaptureRedeliveredIsInvoicedTwice(s: OrderState, d: CaptureData)
    requires !FullyPaid(s) && d.capturedAmount != Remaining(s)
    ensures var r := Redeliver(s, d, 2);
      |r.invoices| == |s.invoices| + 2
      && r.baseTotalPaid == s.baseTotalPaid + 2 * d.capturedAmount
  {
    var once := ApplyCapture(s, d);
    assert !FullyPaid(once);
    assert Redeliver(s, d, 2) == ApplyCapture(once, d);
  }

  /** An order of 50.00 with nothing paid and a capture of 50.00 for int_1, delivered twice. */
  lemma CaptureScenario()
    ensures var s := OrderState(5000, 5000, 0, 0, [], true, false);
      var d := CaptureData("int_1", 5000);
      && ApplyCapture(s, d).invoices == [Invoice(5000, 5000, 5000, 5000, "int_1", CaptureOffline)]
      && ApplyCapture(s, d).isInProcess
      && Redeliver(s, d, 2) == ApplyCapture(s, d)
  {
    var s := OrderState(5000, 5000, 0, 0, [], true, false);
    var d := CaptureData("int_1", 5000);
    RedeliveryKeepsOneInvoice(s, d, 2);
  }

  /** A sales order; the handler's setters and Invoice::register update it in place. */
  class Order {
    var grandTotal: int
    var baseGrandTotal: int
    var totalPaid: int
    var baseTotalPaid: int
    var invoices: seq<Invoice>
    var customerNoteNotify: bool
    var isInProcess: bool

    function State(): OrderState
      reads this
    {
      OrderState(grandTotal, baseGrandTotal, totalPaid, baseTotalPaid, invoices, customerNoteNotify, isInProcess)
    }

    constructor (s: OrderState)
      ensures State() == s
    {
      grandTotal, baseGrandTotal := s.grandTotal, s.baseGrandTotal;
      totalPaid, baseTotalPaid := s.totalPaid, s.baseTotalPaid;
      invoices := s.invoices;
      customerNoteNotify, isInProcess := s.customerNoteNotify, s.isInProcess;
    }

    /** Invoice::register, acting on the invoice's order. */
    method Register(invoice: Invoice)
      requires invoice.requestedCaptureCase == CaptureOffline
      modifies this
      ensures State() == Registered(old(State()), invoice)
    {
      totalPaid := totalPaid + invoice.grandTotal;
      baseTotalPaid := baseTotalPaid + invoice.baseGrandTotal;
      invoices := invoices + [invoice];
    }
  }

  /** The persisted store: each committed transaction is one batch of documents. */
  class Database {
    var committed: seq<seq<Document>>

    constructor ()
      ensures committed == []
    {
      committed := [];
    }
  }

  /** A database transaction: objects are added, then saved all together. */
  class Transaction {
    var objects: seq<Document>

    constructor ()
      ensures objects == []
    {
      objects := [];
    }

    method AddObject(d: Document)
      modifies this
      ensures objects == old(objects) + [d]
    {
      objects := objects + [d];
    }

    /** Commits every added object as one batch. */
    method Save(db: Database)
      modifies db
      ensures db.committed == old(db.committed) + [objects]
    {
      db.committed := db.committed + [objects];
    }
  }

  class Capture {
    /** The payment intent store: payment intent id to its order. */
    const intents: map<string, Order>
    const db: Database

    constructor (intents: map<string, Order>, db: Database)
      ensures this.intents == intents && this.db == db
    {
      this.intents := intents;
      this.db := db;
    }

    /** The orders one event may touch: the one its payment intent belongs to. */
    function Touched(paymentIntentId: string): set<Order> {
      if paymentIntentId in intents then {intents[paymentIntentId]} else {}
    }

    method Execute(data: CaptureData) returns (r: Outcome<WebhookError>)
      modifies db, Touched(data.paymentIntentId)
      ensures data.paymentIntentId !in intents ==>
        r == Fail(WebhookException(NotFoundMessage(data.paymentIntentId))) && unchanged(db)
      ensures data.paymentIntentId in intents ==>
        && r == Pass
        && intents[data.paymentIntentId].State() == ApplyCapture(old(intents[data.paymentIntentId].State()), data)
        && db.committed == old(db.committed) + SavedBatches(old(intents[data.paymentIntentId].State()), data)
    {
      if data.paymentIntentId !in intents {
        return Fail(WebhookException(NotFoundMessage(data.paymentIntentId)));
      }
      var order := intents[data.paymentIntentId];
      ghost var before := order.State();

      var paid := order.baseGrandTotal - order.baseTotalPaid;
      if paid == 0 {
        return Pass;
      }

      var amount := data.capturedAmount;
      var invoice := DraftInvoice(order.State());
      invoice := invoice.(subtotal := amount);
      invoice := invoice.(baseSubtotal := amount);
      invoice := invoice.(grandTotal := amount);
      invoice := invoice.(transactionId := data.paymentIntentId);
      invoice := invoice.(baseGrandTotal := amount);
      invoice := invoice.(requestedCaptureCase := CaptureOffline);
      assert invoice == CaptureInvoice(before, data);
      order.Register(invoice);
      order.customerNoteNotify := false;
      order.isInProcess := true;
      assert order.State() == ApplyCapture(before, data);

      var transactionSave := new Transaction();
      transactionSave.AddObject(InvoiceDoc(invoice));
      transactionSave.AddObject(OrderDoc(order.State()));
      assert transactionSave.objects == SavedBatches(before, data)[0];
      transactionSave.Save(db);
      return Pass;
    }
  }
}
