/** The tables and payloads of the pipeline (ar_pipeline/db/models.py, ar_pipeline/schema/canonical.py).

    Money is an integer number of paise: the Numeric(14, 2) columns hold two decimals.
    Tables whose rows are never deleted are sequences, and a row's id is its position. */
module Models {

  datatype Option<+T> = None | Some(value: T)

  type Money = int

  const TOLERANCE: Money := 2

  function Abs(x: int): nat { if x < 0 then -x else x }

  // ----- canonical payload -----

  datatype Date = Date(year: int, month: int, day: int)

  datatype DeductionType = Tds | CreditNote | DebitNote | AdvanceAdjustment | Discount | Rounding | Other

  datatype Deduction = Deduction(reason: DeductionType, amount: nat)

  datatype LineKind = InvoiceLine | AdjustmentLine

  /** A missing optional text (`applies_to`, `payment_reference`) is the empty string. */
  datatype LineItem = LineItem(
    number: string, date: Option<Date>, invoiceAmount: Money, deductions: seq<Deduction>,
    paid: Money, kind: LineKind, appliesTo: string)

  datatype Header = Header(
    payer: string, reference: string, referenceType: Option<string>, date: Option<Date>,
    currency: string, total: Money, deductions: seq<Deduction>)

  datatype Payload = Payload(envelopeId: nat, reviewedBy: Option<string>, header: Header, lines: seq<LineItem>)

  function Deducted(ds: seq<Deduction>): nat {
    if ds == [] then 0 else ds[0].amount + Deducted(ds[1..])
  }

  // ----- ledger -----

  datatype InvoiceSource = Books | FromEmail

  datatype Invoice = Invoice(
    number: string, payer: string, date: Option<Date>, amount: Money, currency: string,
    source: InvoiceSource, paidBefore: Money)

  datatype RowKind = PaymentRow | AdjustmentRow

  /** One approved line applied to the invoice with number key `key`. */
  datatype Row = Row(
    key: string, extraction: nat, line: nat, kind: RowKind, paid: Money, settled: Money,
    currency: string, reference: string)

  /** Invoices by number key (unique in the table), and the payment rows in the order written. */
  datatype Ledger = Ledger(invoices: map<string, Invoice>, rows: seq<Row>)

  // ----- flags -----

  datatype Flag =
    // normalize/validators.py
    | OverInvoice(line: nat, number: string, invoiceAmount: Money, deducted: Money, paid: Money)
    | TotalMismatch(total: Money, lines: Money, deducted: Money)
    | NegativeInvoice(line: nat, amount: Money)
    | NegativePaid(line: nat, amount: Money)
    | NegativeTotal(amount: Money)
    | RepeatedNumber(number: string)
    | EmptyNumber(line: nat)
    | NotRupees(currency: string)
    | UnknownReferenceType(name: string)
    | PayerMissing
    | BackDated(line: nat, payment: Date, invoiced: Date)
    | FutureDated(payment: Date, cutoff: int)
    | AdjustmentShape(line: nat)
    // ledger/checks.py
    | DidYouMean(line: nat, number: string)
    | NotInBooks(line: nat, number: string)
    | PartialOfEmail(line: nat, number: string, settled: Money, invoiceAmount: Money)
    | OtherCurrency(line: nat, number: string, currency: string, invoiceCurrency: string)
    | OtherPayer(line: nat, number: string, owner: string, payer: string)
    | AmountDiffers(line: nat, number: string, stated: Money, known: Money, source: InvoiceSource)
    | AlreadyApproved(line: nat, number: string, reference: string, paid: Money)
    | AlreadyPaid(line: nat, number: string)
    | Overpays(line: nat, number: string, settled: Money, outstanding: Money)
    | PartialOfUnverified(line: nat, number: string, settled: Money, outstanding: Money)
    | AdjustsPaid(line: nat, number: string)
    | AdjustsTooMuch(line: nat, number: string, amount: Money, outstanding: Money)
    | AdjustsOtherCurrency(line: nat, amount: Money, currency: string, invoiceCurrency: string)
    | AdjustsOtherPayer(line: nat, number: string, owner: string, payer: string)
    // ledger/adjustments.py
    | AdjustsUnknown(line: nat, amount: Money, target: string)
    | WhichInvoice(line: nat, amount: Money, offered: seq<string>)
    // threads/dedupe.py
    | ReferenceUsed(key: PaymentKey, usedFor: Option<Money>, currency: string, of: nat)
    | PossibleDuplicate(of: nat)
    | RejectedBefore(day: int, reviewer: Option<string>, reason: string)
    | EarlierMessage
    | BeforeGoLive
    // threads/backfill.py
    | SameReference(of: nat)
    // known only to the original read; tables/totals.py; the check against client names
    | Truncated
    | DraftSkipped(draft: nat)
    | NothingRead(text: string)
    | TotalsDiffer(what: string, printed: Money, extracted: Money)
    | OutsideCheck(text: string)

  // ----- extractions, deliveries, emails -----

  datatype PaymentKey =
    | BankRef(ref: string)
    | ChequeRef(payer: string, ref: string)
    | DocumentRef(payer: string, ref: string, year: Option<int>)
    | Soft(payer: string, total: Money, date: Option<Date>)

  datatype Strength = Strong | Weak

  datatype Claim = Claim(key: PaymentKey, strength: Strength)

  datatype ExtractionStatus = PendingReview | Approved | Rejected | Superseded | AlreadyRecorded | Duplicate

  /** `canonical` is None for the empty row written when nothing was read; `message` is a position
      in the email's messages, None for emails read whole. */
  datatype Extraction = Extraction(
    email: nat, message: Option<nat>, canonical: Option<Payload>, confidence: nat, isRemittance: bool,
    flags: seq<Flag>, status: ExtractionStatus, reviewedBy: Option<string>, reviewedAt: Option<int>,
    rejectReason: string, claim: Option<Claim>, historical: bool, duplicateOf: Option<nat>)

  datatype DeliveryStatus = DeliveryPending | Delivered | DeliveryFailed

  datatype Delivery = Delivery(extraction: nat, status: DeliveryStatus, attempts: nat, nextAttempt: Option<int>)

  datatype EmailStatus = New | Classified | Extracted | Review | Done | Error

  datatype MessageStatus = MessageNew | Seen | NoContent | MessageFailed

  /** One thing to read in an email; `raws` counts its raw extractions. */
  datatype Source = Source(message: Option<nat>, skipped: bool, raws: nat)

  /** A message's position is its index; 0 is the newest. */
  datatype Email = Email(status: EmailStatus, messages: seq<MessageStatus>, sources: seq<Source>)

  datatype Db = Db(
    ledger: Ledger, extractions: seq<Extraction>, deliveries: seq<Delivery>, emails: seq<Email>)

  /** The database the service functions work on through their session. */
  class Database {
    var invoices: map<string, Invoice>
    var rows: seq<Row>
    var extractions: seq<Extraction>
    var deliveries: seq<Delivery>
    var emails: seq<Email>

    function Books(): Ledger
      reads this
    {
      Ledger(invoices, rows)
    }

    function View(): Db
      reads this
    {
      Db(Books(), extractions, deliveries, emails)
    }
  }
}
