/** Three-way match of an invoice with its purchase order and receipt, and invoice qualification.
    Decimals are exact reals; `None` is a value that is missing or not a decimal. */
module Matching {
  import opened Common

  datatype Verdict = Qualified | Incomplete | Mismatched | Ambiguous | Duplicate

  datatype Money = Money(amount: real, currency: string)

  datatype InvoiceLine = InvoiceLine(quantity: real, unitPrice: Money)

  datatype Invoice = Invoice(
    vendorName: Option<string>, vendorRef: Option<string>, vendorTaxId: Option<string>,
    number: Option<string>, total: Option<Money>, poNumber: Option<string>,
    lines: seq<InvoiceLine>, digest: Option<string>)

  /** An entry of a list received from outside, which may be of any shape. */
  datatype OrderLine = OrderLine(quantity: Option<real>, unitPrice: Option<real>, currency: Option<string>) | NotALine

  datatype ReceiptLine = ReceiptLine(quantity: Option<real>) | NotALine

  datatype Lines<T> = Absent | NotAList | Items(items: seq<T>)

  datatype Order = Order(
    currency: Option<string>, poNumber: Option<string>, vendorRef: Option<string>, vendorTaxId: Option<string>,
    total: Option<real>, receiptRef: Option<string>, lines: Lines<OrderLine>)

  datatype Receipt = Receipt(receiptRef: Option<string>, lines: Lines<ReceiptLine>)

  // ---------- What a qualified match means ----------

  predicate Truthy(s: Option<string>) {
    s.Some? && s.value != ""
  }

  predicate Compatible(a: Option<string>, b: Option<string>) {
    Truthy(a) && Truthy(b) ==> a == b
  }

  predicate HeaderAgrees(i: Invoice, o: Order, r: Receipt) {
    && i.total.Some? && Some(i.total.value.currency) == o.currency
    && i.poNumber == o.poNumber
    && Compatible(i.vendorRef, o.vendorRef) && Compatible(i.vendorTaxId, o.vendorTaxId)
    && o.total == Some(i.total.value.amount)
    && o.receiptRef == r.receiptRef
  }

  predicate LineAgrees(i: InvoiceLine, o: OrderLine) {
    o == OrderLine(Some(i.quantity), Some(i.unitPrice.amount), Some(i.unitPrice.currency))
  }

  predicate LineReceived(i: InvoiceLine, r: ReceiptLine) {
    r.ReceiptLine? && r.quantity.Some? && r.quantity.value >= i.quantity
  }

  ghost predicate Pairwise<A, B>(a: seq<A>, b: seq<B>, p: (A, B) -> bool) {
    |a| == |b| && forall k :: 0 <= k < |a| ==> p(a[k], b[k])
  }

  /** Header and, line by line in order, quantity, currency and price agree; no line exceeds what was
      received. A document without lines is not compared by line. */
  ghost predicate Agrees(i: Invoice, o: Order, r: Receipt) {
    && HeaderAgrees(i, o, r)
    && (o.lines.Absent? || (o.lines.Items? && Pairwise(i.lines, o.lines.items, LineAgrees)))
    && (r.lines.Absent? || (r.lines.Items? && Pairwise(i.lines, r.lines.items, LineReceived)))
  }

  // ---------- The first check that fails ----------

  /** The first `k` checks pass. */
  predicate PassesUpTo(checks: seq<Verdict>, k: nat)
    requires k <= |checks|
  {
    forall j :: 0 <= j < k ==> checks[j] == Qualified
  }

  /** The verdict of the first check that does not pass. */
  function First(checks: seq<Verdict>): (v: Verdict)
    ensures v == Qualified <==> forall k :: 0 <= k < |checks| ==> checks[k] == Qualified
    ensures v != Qualified ==> exists k :: 0 <= k < |checks| && checks[k] == v && PassesUpTo(checks, k)
  {
    if checks == [] then Qualified
    else if checks[0] != Qualified then checks[0]
    else
      var v := First(checks[1..]);
      assert forall j :: 1 <= j < |checks| ==> checks[j] == checks[1..][j - 1];
      assert forall k :: 0 <= k < |checks| - 1 && PassesUpTo(checks[1..], k) ==> PassesUpTo(checks, k + 1);
      v
  }

  function Check(ok: bool, otherwise: Verdict): Verdict {
    if ok then Qualified else otherwise
  }

  function HeaderChecks(i: Invoice, o: Order, r: Receipt): seq<Verdict> {
    if i.total.None? then [Incomplete]
    else
      [Check(Some(i.total.value.currency) == o.currency, Mismatched),
       Check(i.poNumber == o.poNumber, Mismatched),
       Check(Compatible(i.vendorRef, o.vendorRef), Mismatched),
       Check(Compatible(i.vendorTaxId, o.vendorTaxId), Mismatched),
       Check(o.total.Some?, Incomplete),
       Check(o.total == Some(i.total.value.amount), Mismatched),
       Check(o.receiptRef == r.receiptRef, Mismatched)]
  }

  function OrderLineVerdict(i: InvoiceLine, o: OrderLine): Verdict {
    if o.NotALine? then Mismatched
    else if o.quantity.None? || o.unitPrice.None? then Incomplete
    else Check(LineAgrees(i, o), Mismatched)
  }

  function ReceiptLineVerdict(i: InvoiceLine, r: ReceiptLine): Verdict {
    if r.NotALine? then Mismatched
    else if r.quantity.None? then Incomplete
    else Check(LineReceived(i, r), Mismatched)
  }

  function Zip<A, B>(a: seq<A>, b: seq<B>, f: (A, B) -> Verdict): (r: seq<Verdict>)
    requires |a| == |b|
    ensures |r| == |a| && forall k :: 0 <= k < |a| ==> r[k] == f(a[k], b[k])
  {
    seq(|a|, k requires 0 <= k < |a| => f(a[k], b[k]))
  }

  function LineChecks<T>(i: seq<InvoiceLine>, lines: Lines<T>, f: (InvoiceLine, T) -> Verdict): seq<Verdict> {
    match lines
    case Absent => []
    case NotAList => [Mismatched]
    case Items(items) => if |items| != |i| then [Mismatched] else Zip(i, items, f)
  }

  /** All checks of a match in the order in which they are made. */
  function Checks(i: Invoice, o: Order, r: Receipt): seq<Verdict> {
    HeaderChecks(i, o, r)
    + LineChecks(i.lines, o.lines, OrderLineVerdict)
    + LineChecks(i.lines, r.lines, ReceiptLineVerdict)
  }

  lemma FirstOfJoined(a: seq<Verdict>, b: seq<Verdict>)
    ensures First(a + b) == if First(a) != Qualified then First(a) else First(b)
  {
    if a == [] {
      assert a + b == b;
    } else if a[0] == Qualified {
      assert (a + b)[1..] == a[1..] + b;
      FirstOfJoined(a[1..], b);
    }
  }

  method MatchHeader(i: Invoice, o: Order, r: Receipt) returns (v: Verdict)
    ensures v == First(HeaderChecks(i, o, r))
    ensures v == Qualified <==> HeaderAgrees(i, o, r)
  {
    HeaderOrder(i, o, r);
    ghost var checks := HeaderChecks(i, o, r);
    FirstFails(checks, 0);
    if i.total.None? {
      return Incomplete;
    }
    if Some(i.total.value.currency) != o.currency {
      return Mismatched;
    }
    FirstFails(checks, 1);
    if i.poNumber != o.poNumber {
      return Mismatched;
    }
    FirstFails(checks, 2);
    if Truthy(i.vendorRef) && Truthy(o.vendorRef) && i.vendorRef != o.vendorRef {
      return Mismatched;
    }
    FirstFails(checks, 3);
    if Truthy(i.vendorTaxId) && Truthy(o.vendorTaxId) && i.vendorTaxId != o.vendorTaxId {
      return Mismatched;
    }
    FirstFails(checks, 4);
    if o.total.None? {
      return Incomplete;
    }
    FirstFails(checks, 5);
    if i.total.value.amount != o.total.value {
      return Mismatched;
    }
    FirstFails(checks, 6);
    if o.receiptRef != r.receiptRef {
      return Mismatched;
    }
    return Qualified;
  }

  method MatchOrderLines(i: seq<InvoiceLine>, lines: Lines<OrderLine>) returns (v: Verdict)
    ensures v == First(LineChecks(i, lines, OrderLineVerdict))
  {
    if lines.Absent? {
      return Qualified;
    }
    if lines.NotAList? || |lines.items| != |i| {
      return Mismatched;
    }
    ghost var checks := LineChecks(i, lines, OrderLineVerdict);
    for k := 0 to |i|
      invariant forall j :: 0 <= j < k ==> checks[j] == Qualified
    {
      var line := lines.items[k];
      FirstFails(checks, k);
      if line.NotALine? {
        return Mismatched;
      }
      if line.quantity.None? || line.unitPrice.None? {
        return Incomplete;
      }
      if i[k].quantity != line.quantity.value {
        return Mismatched;
      }
      if Some(i[k].unitPrice.currency) != line.currency {
        return Mismatched;
      }
      if i[k].unitPrice.amount != line.unitPrice.value {
        return Mismatched;
      }
    }
    return Qualified;
  }

  method MatchReceiptLines(i: seq<InvoiceLine>, lines: Lines<ReceiptLine>) returns (v: Verdict)
    ensures v == First(LineChecks(i, lines, ReceiptLineVerdict))
  {
    if lines.Absent? {
      return Qualified;
    }
    if lines.NotAList? || |lines.items| != |i| {
      return Mismatched;
    }
    ghost var checks := LineChecks(i, lines, ReceiptLineVerdict);
    for k := 0 to |i|
      invariant forall j :: 0 <= j < k ==> checks[j] == Qualified
    {
      var line := lines.items[k];
      FirstFails(checks, k);
      if line.NotALine? {
        return Mismatched;
      }
      if line.quantity.None? {
        return Incomplete;
      }
      if line.quantity.value < i[k].quantity {
        return Mismatched;
      }
    }
    return Qualified;
  }

  lemma {:induction false} FirstFails(checks: seq<Verdict>, k: nat)
    requires k < |checks| && forall j :: 0 <= j < k ==> checks[j] == Qualified
    ensures checks[k] != Qualified ==> First(checks) == checks[k]
  {
    if k > 0 {
      assert forall j :: 1 <= j < |checks| ==> checks[j] == checks[1..][j - 1];
      FirstFails(checks[1..], k - 1);
    }
  }

  /** The verdict is that of the first failing check; QUALIFIED exactly when all three documents agree. */
  method MatchThreeWay(i: Invoice, o: Order, r: Receipt) returns (v: Verdict)
    ensures v == First(Checks(i, o, r))
    ensures v == Qualified <==> Agrees(i, o, r)
  {
    QualifiedMeansAgreed(i, o, r);
    FirstOfStages(i, o, r);
    v := MatchHeader(i, o, r);
    if v == Qualified {
      v := MatchOrderLines(i.lines, o.lines);
    }
    if v == Qualified {
      v := MatchReceiptLines(i.lines, r.lines);
    }
  }

  lemma HeaderOrder(i: Invoice, o: Order, r: Receipt)
    ensures First(HeaderChecks(i, o, r)) == Qualified <==> HeaderAgrees(i, o, r)
  {
    var c := HeaderChecks(i, o, r);
    if i.total.None? {
      assert c[0] == Incomplete;
    } else {
      assert (c[0] == Qualified && c[1] == Qualified && c[2] == Qualified && c[3] == Qualified
              && c[4] == Qualified && c[5] == Qualified && c[6] == Qualified) <==> HeaderAgrees(i, o, r);
    }
  }

  lemma FirstOfStages(i: Invoice, o: Order, r: Receipt)
    ensures First(Checks(i, o, r))
         == if First(HeaderChecks(i, o, r)) != Qualified then First(HeaderChecks(i, o, r))
            else if First(LineChecks(i.lines, o.lines, OrderLineVerdict)) != Qualified
            then First(LineChecks(i.lines, o.lines, OrderLineVerdict))
            else First(LineChecks(i.lines, r.lines, ReceiptLineVerdict))
  {
    var a, b := HeaderChecks(i, o, r), LineChecks(i.lines, o.lines, OrderLineVerdict);
    var c := LineChecks(i.lines, r.lines, ReceiptLineVerdict);
    FirstOfJoined(a + b, c);
    FirstOfJoined(a, b);
  }

  lemma LinesAgree<T>(i: seq<InvoiceLine>, lines: Lines<T>, f: (InvoiceLine, T) -> Verdict, p: (InvoiceLine, T) -> bool)
    requires forall x, y :: f(x, y) == Qualified <==> p(x, y)
    ensures First(LineChecks(i, lines, f)) == Qualified
            <==> lines.Absent? || (lines.Items? && Pairwise(i, lines.items, p))
  {
  }

  lemma QualifiedMeansAgreed(i: Invoice, o: Order, r: Receipt)
    ensures First(Checks(i, o, r)) == Qualified <==> Agrees(i, o, r)
  {
    HeaderOrder(i, o, r);
    OrderLinesAgree(i.lines, o.lines);
    ReceiptLinesAgree(i.lines, r.lines);
    FirstOfStages(i, o, r);
  }

  lemma OrderLinesAgree(i: seq<InvoiceLine>, lines: Lines<OrderLine>)
    ensures First(LineChecks(i, lines, OrderLineVerdict)) == Qualified
            <==> lines.Absent? || (lines.Items? && Pairwise(i, lines.items, LineAgrees))
  {
    LinesAgree(i, lines, OrderLineVerdict, LineAgrees);
  }

  lemma ReceiptLinesAgree(i: seq<InvoiceLine>, lines: Lines<ReceiptLine>)
    ensures First(LineChecks(i, lines, ReceiptLineVerdict)) == Qualified
            <==> lines.Absent? || (lines.Items? && Pairwise(i, lines.items, LineReceived))
  {
    LinesAgree(i, lines, ReceiptLineVerdict, LineReceived);
  }

  /** Every billed line was ordered: quantity, price and currency are those of the order's line. */
  ghost predicate Ordered(billed: seq<InvoiceLine>, ordered: seq<OrderLine>) {
    && |ordered| == |billed|
    && forall k :: 0 <= k < |billed| ==>
         && ordered[k].OrderLine? && ordered[k].quantity == Some(billed[k].quantity)
         && ordered[k].unitPrice == Some(billed[k].unitPrice.amount)
         && ordered[k].currency == Some(billed[k].unitPrice.currency)
  }

  /** Of every billed line at least as much was received. */
  ghost predicate Delivered(billed: seq<InvoiceLine>, received: seq<ReceiptLine>) {
    && |received| == |billed|
    && forall k :: 0 <= k < |billed| ==>
         received[k].ReceiptLine? && received[k].quantity.Some? && billed[k].quantity <= received[k].quantity.value
  }

  /** Qualified in full, column by column. Vendor reference and tax id are compared only where both
      documents have one; lines only where the other document lists them. */
  lemma QualifiedInFull(i: Invoice, o: Order, r: Receipt)
    ensures First(Checks(i, o, r)) == Qualified <==>
            && i.total.Some? && o.total == Some(i.total.value.amount) && o.currency == Some(i.total.value.currency)
            && o.poNumber == i.poNumber && o.receiptRef == r.receiptRef
            && (i.vendorRef == o.vendorRef || i.vendorRef in [None, Some("")] || o.vendorRef in [None, Some("")])
            && (i.vendorTaxId == o.vendorTaxId || i.vendorTaxId in [None, Some("")]
                || o.vendorTaxId in [None, Some("")])
            && (o.lines.Absent? || (o.lines.Items? && Ordered(i.lines, o.lines.items)))
            && (r.lines.Absent? || (r.lines.Items? && Delivered(i.lines, r.lines.items)))
  {
    QualifiedMeansAgreed(i, o, r);
    forall x: Option<string>, y: Option<string> {:trigger Compatible(x, y)}
      ensures Compatible(x, y) <==> x == y || x in [None, Some("")] || y in [None, Some("")]
    {
    }
    if o.lines.Items? {
      OrderedInFull(i.lines, o.lines.items);
    }
    if r.lines.Items? {
      DeliveredInFull(i.lines, r.lines.items);
    }
  }

  lemma OrderedInFull(billed: seq<InvoiceLine>, ordered: seq<OrderLine>)
    ensures Pairwise(billed, ordered, LineAgrees) <==> Ordered(billed, ordered)
  {
    if Pairwise(billed, ordered, LineAgrees) {
      forall k | 0 <= k < |billed| ensures LineAgrees(billed[k], ordered[k]) {
      }
    }
  }

  lemma DeliveredInFull(billed: seq<InvoiceLine>, received: seq<ReceiptLine>)
    ensures Pairwise(billed, received, LineReceived) <==> Delivered(billed, received)
  {
    if Pairwise(billed, received, LineReceived) {
      forall k | 0 <= k < |billed| ensures LineReceived(billed[k], received[k]) {
      }
    }
  }

  /** Line `k` is the first that does not pass, with this verdict. */
  ghost predicate StopsAt<T>(i: seq<InvoiceLine>, items: seq<T>, f: (InvoiceLine, T) -> Verdict, k: int, v: Verdict)
    requires |i| == |items|
  {
    0 <= k < |i| && f(i[k], items[k]) == v && forall j :: 0 <= j < k ==> f(i[j], items[j]) == Qualified
  }

  lemma LinesStop<T>(i: seq<InvoiceLine>, lines: Lines<T>, f: (InvoiceLine, T) -> Verdict)
    requires forall x, y :: f(x, y) in [Qualified, Incomplete, Mismatched]
    ensures First(LineChecks(i, lines, f)) in [Qualified, Incomplete, Mismatched]
    ensures First(LineChecks(i, lines, f)) == Incomplete <==>
            lines.Items? && |lines.items| == |i| && exists k :: StopsAt(i, lines.items, f, k, Incomplete)
  {
    var c := LineChecks(i, lines, f);
    if First(c) != Qualified {
      var k :| 0 <= k < |c| && c[k] == First(c) && PassesUpTo(c, k);
      if lines.Items? && |lines.items| == |i| {
        assert StopsAt(i, lines.items, f, k, First(c));
      }
    }
    if lines.Items? && |lines.items| == |i| {
      forall k | StopsAt(i, lines.items, f, k, Incomplete) ensures First(c) == Incomplete {
        FirstFails(c, k);
      }
    }
  }

  lemma HeaderStops(i: Invoice, o: Order, r: Receipt)
    ensures First(HeaderChecks(i, o, r)) in [Qualified, Incomplete, Mismatched]
    ensures First(HeaderChecks(i, o, r)) == Incomplete <==>
            || i.total.None?
            || (&& o.currency == Some(i.total.value.currency) && o.poNumber == i.poNumber
                && Compatible(i.vendorRef, o.vendorRef) && Compatible(i.vendorTaxId, o.vendorTaxId) && o.total.None?)
  {
    var c := HeaderChecks(i, o, r);
    if First(c) != Qualified {
      var k :| 0 <= k < |c| && c[k] == First(c) && PassesUpTo(c, k);
    }
    if i.total.None? {
      FirstFails(c, 0);
    } else {
      assert PassesUpTo(c, 4) <==>
             c[0] == Qualified && c[1] == Qualified && c[2] == Qualified && c[3] == Qualified;
      assert forall k :: 0 <= k < |c| && c[k] == Incomplete ==> k == 4;
      if PassesUpTo(c, 4) {
        FirstFails(c, 4);
      }
    }
  }

  /** The line is there but lacks a quantity or price, and all lines before it are as ordered. */
  ghost predicate OrderGap(billed: seq<InvoiceLine>, ordered: seq<OrderLine>, k: int) {
    && 0 <= k < |billed| == |ordered| && Ordered(billed[..k], ordered[..k])
    && ordered[k].OrderLine? && (ordered[k].quantity.None? || ordered[k].unitPrice.None?)
  }

  ghost predicate ReceiptGap(billed: seq<InvoiceLine>, received: seq<ReceiptLine>, k: int) {
    && 0 <= k < |billed| == |received| && Delivered(billed[..k], received[..k])
    && received[k].ReceiptLine? && received[k].quantity.None?
  }

  lemma OrderGapStops(billed: seq<InvoiceLine>, ordered: seq<OrderLine>, k: int)
    requires |billed| == |ordered|
    ensures StopsAt(billed, ordered, OrderLineVerdict, k, Incomplete) <==> OrderGap(billed, ordered, k)
  {
    if 0 <= k < |billed| {
      OrderedInFull(billed[..k], ordered[..k]);
      forall j | 0 <= j < k
        ensures OrderLineVerdict(billed[j], ordered[j]) == Qualified <==> LineAgrees(billed[..k][j], ordered[..k][j])
      {
      }
    }
  }

  lemma ReceiptGapStops(billed: seq<InvoiceLine>, received: seq<ReceiptLine>, k: int)
    requires |billed| == |received|
    ensures StopsAt(billed, received, ReceiptLineVerdict, k, Incomplete) <==> ReceiptGap(billed, received, k)
  {
    if 0 <= k < |billed| {
      DeliveredInFull(billed[..k], received[..k]);
      forall j | 0 <= j < k
        ensures ReceiptLineVerdict(billed[j], received[j]) == Qualified
            <==> LineReceived(billed[..k][j], received[..k][j])
      {
      }
    }
  }

  /** A match that is not qualified is incomplete exactly when something is missing before anything
      disagrees: the invoice total, the order total, or a quantity or price of a line; and otherwise it
      is a mismatch. */
  lemma IncompleteIff(i: Invoice, o: Order, r: Receipt)
    ensures First(Checks(i, o, r)) in [Qualified, Incomplete, Mismatched]
    ensures First(Checks(i, o, r)) == Incomplete <==>
            || i.total.None?
            || (&& o.currency == Some(i.total.value.currency) && o.poNumber == i.poNumber
                && Compatible(i.vendorRef, o.vendorRef) && Compatible(i.vendorTaxId, o.vendorTaxId) && o.total.None?)
            || (HeaderAgrees(i, o, r) && o.lines.Items? && exists k :: OrderGap(i.lines, o.lines.items, k))
            || (&& HeaderAgrees(i, o, r) && (o.lines.Absent? || (o.lines.Items? && Ordered(i.lines, o.lines.items)))
                && r.lines.Items? && exists k :: ReceiptGap(i.lines, r.lines.items, k))
  {
    FirstOfStages(i, o, r);
    HeaderOrder(i, o, r);
    HeaderStops(i, o, r);
    OrderLinesAgree(i.lines, o.lines);
    LinesStop(i.lines, o.lines, OrderLineVerdict);
    LinesStop(i.lines, r.lines, ReceiptLineVerdict);
    if o.lines.Items? {
      OrderedInFull(i.lines, o.lines.items);
      OrderGaps(i.lines, o.lines.items);
    }
    if r.lines.Items? {
      ReceiptGaps(i.lines, r.lines.items);
    }
  }

  lemma OrderGaps(billed: seq<InvoiceLine>, ordered: seq<OrderLine>)
    ensures (exists k :: OrderGap(billed, ordered, k)) <==>
            |billed| == |ordered| && exists k :: StopsAt(billed, ordered, OrderLineVerdict, k, Incomplete)
  {
    if |billed| == |ordered| {
      forall k ensures StopsAt(billed, ordered, OrderLineVerdict, k, Incomplete) <==> OrderGap(billed, ordered, k) {
        OrderGapStops(billed, ordered, k);
      }
    }
  }

  lemma ReceiptGaps(billed: seq<InvoiceLine>, received: seq<ReceiptLine>)
    ensures (exists k :: ReceiptGap(billed, received, k)) <==>
            |billed| == |received| && exists k :: StopsAt(billed, received, ReceiptLineVerdict, k, Incomplete)
  {
    if |billed| == |received| {
      forall k
        ensures StopsAt(billed, received, ReceiptLineVerdict, k, Incomplete) <==> ReceiptGap(billed, received, k)
      {
        ReceiptGapStops(billed, received, k);
      }
    }
  }

  // ---------- Sums ----------

  function InvoiceSum(lines: seq<InvoiceLine>): real {
    if lines == [] then 0.0 else lines[0].quantity * lines[0].unitPrice.amount + InvoiceSum(lines[1..])
  }

  /** Lines without a quantity or price add nothing. */
  function OrderSum(lines: seq<OrderLine>): real {
    if lines == [] then 0.0
    else
      (if lines[0].OrderLine? && lines[0].quantity.Some? && lines[0].unitPrice.Some?
       then lines[0].quantity.value * lines[0].unitPrice.value else 0.0) + OrderSum(lines[1..])
  }

  function Invoiced(lines: seq<InvoiceLine>): real {
    if lines == [] then 0.0 else lines[0].quantity + Invoiced(lines[1..])
  }

  function Received(lines: seq<ReceiptLine>): real {
    if lines == [] then 0.0
    else
      (if lines[0].ReceiptLine? && lines[0].quantity.Some? then lines[0].quantity.value else 0.0) + Received(lines[1..])
  }

  lemma {:induction false} AgreeingLinesSum(i: seq<InvoiceLine>, o: seq<OrderLine>)
    requires Pairwise(i, o, LineAgrees)
    ensures InvoiceSum(i) == OrderSum(o)
  {
    if i != [] {
      assert LineAgrees(i[0], o[0]);
      AgreeingLinesSum(i[1..], o[1..]);
    }
  }

  lemma {:induction false} ReceivedCovers(i: seq<InvoiceLine>, r: seq<ReceiptLine>)
    requires Pairwise(i, r, LineReceived)
    ensures Received(r) >= Invoiced(i)
  {
    if i != [] {
      assert LineReceived(i[0], r[0]);
      ReceivedCovers(i[1..], r[1..]);
    }
  }

  /** A qualified match with lines on both sides: what is billed line by line is what was ordered, and
      at least as much was received as is billed. */
  lemma QualifiedSums(i: Invoice, o: Order, r: Receipt)
    requires First(Checks(i, o, r)) == Qualified
    ensures o.lines.Items? ==> InvoiceSum(i.lines) == OrderSum(o.lines.items)
    ensures r.lines.Items? ==> Received(r.lines.items) >= Invoiced(i.lines)
  {
    QualifiedMeansAgreed(i, o, r);
    if o.lines.Items? {
      AgreeingLinesSum(i.lines, o.lines.items);
    }
    if r.lines.Items? {
      ReceivedCovers(i.lines, r.lines.items);
    }
  }

  /** The invoice total is not tied to its lines by the match: it adds up exactly when the purchase
      order's own total does. */
  lemma TotalAddsUpIff(i: Invoice, o: Order, r: Receipt)
    requires First(Checks(i, o, r)) == Qualified && o.lines.Items?
    ensures i.total.Some?
    ensures i.total.value.amount == InvoiceSum(i.lines) <==> o.total == Some(OrderSum(o.lines.items))
  {
    QualifiedMeansAgreed(i, o, r);
    QualifiedSums(i, o, r);
  }

  lemma QualifiedTotalMayNotAddUp()
    ensures var i := Invoice(None, None, None, None, Some(Money(5.0, "USD")), Some("PO"),
                             [InvoiceLine(1.0, Money(2.0, "USD"))], None);
            var o := Order(Some("USD"), Some("PO"), None, None, Some(5.0), None,
                           Items([OrderLine(Some(1.0), Some(2.0), Some("USD"))]));
            First(Checks(i, o, Receipt(None, Absent))) == Qualified && InvoiceSum(i.lines) == 2.0
  {
    var i := Invoice(None, None, None, None, Some(Money(5.0, "USD")), Some("PO"),
                     [InvoiceLine(1.0, Money(2.0, "USD"))], None);
    var o := Order(Some("USD"), Some("PO"), None, None, Some(5.0), None,
                   Items([OrderLine(Some(1.0), Some(2.0), Some("USD"))]));
    var r := Receipt(None, Absent);
    assert Agrees(i, o, r);
    QualifiedMeansAgreed(i, o, r);
    assert i.lines[1..] == [];
    assert InvoiceSum(i.lines) == 2.0;
  }

  // ---------- Qualifying an invoice ----------

  datatype Vendor = Vendor(ref: string, legalName: string, taxId: Option<string>)

  datatype VendorResult = VendorResult(result: Verdict, vendor: Option<Vendor>, reasons: seq<string>)

  datatype Assessment = Assessment(kind: string, result: Verdict, reasons: seq<string>)

  datatype Summary = Summary(vendor: VendorResult, duplicate: bool, threeWay: Verdict, reasons: seq<string>)

  /** `strip` and `fold` stand for the text functions of that name. */
  datatype TextOps = TextOps(strip: string -> string, fold: string -> string)

  predicate IsMatch(v: Vendor, name: Option<string>, taxId: Option<string>, text: TextOps) {
    var id := text.strip(taxId.GetOr(""));
    if id != "" then v.taxId == Some(id) else text.fold(v.legalName) == text.fold(text.strip(name.GetOr("")))
  }

  function MatchingVendors(records: seq<Vendor>, name: Option<string>, taxId: Option<string>,
                           text: TextOps): (r: seq<Vendor>)
    ensures r == [] <==> forall k :: 0 <= k < |records| ==> !IsMatch(records[k], name, taxId, text)
    ensures |r| == 1 ==> exists k :: 0 <= k < |records| && r[0] == records[k] &&
                           OnlyMatch(records, k, name, taxId, text)
    ensures (exists k :: 0 <= k < |records| && OnlyMatch(records, k, name, taxId, text)) ==> |r| == 1
  {
    if records == [] then []
    else
      var n := |records| - 1;
      assert forall k :: 0 <= k < n && OnlyMatch(records, k, name, taxId, text) ==>
               OnlyMatch(records[..n], k, name, taxId, text);
      var front := MatchingVendors(records[..n], name, taxId, text);
      if IsMatch(records[n], name, taxId, text) then front + [records[n]] else front
  }

  /** Record `k`, and no other, matches. */
  predicate OnlyMatch(records: seq<Vendor>, k: int, name: Option<string>, taxId: Option<string>, text: TextOps)
    requires 0 <= k < |records|
  {
    forall j :: 0 <= j < |records| ==> (IsMatch(records[j], name, taxId, text) <==> j == k)
  }

  function QualifyVendor(name: Option<string>, taxId: Option<string>, records: seq<Vendor>,
                         text: TextOps): (r: VendorResult)
    ensures r.result == Qualified <==> exists k :: 0 <= k < |records| && OnlyMatch(records, k, name, taxId, text)
    ensures r.vendor.Some? <==> r.result == Qualified
    ensures r.result != Qualified ==> r.result == Ambiguous
    ensures r.reasons == [] <==> r.result == Qualified
    ensures r.reasons == ["no match"] <==> forall k :: 0 <= k < |records| ==> !IsMatch(records[k], name, taxId, text)
    ensures r.vendor.Some? ==> r.vendor.value in records && IsMatch(r.vendor.value, name, taxId, text)
  {
    var found := MatchingVendors(records, name, taxId, text);
    if |found| == 1 then VendorResult(Qualified, Some(found[0]), [])
    else if |found| == 0 then VendorResult(Ambiguous, None, ["no match"])
    else VendorResult(Ambiguous, None, ["multiple matches"])
  }

  /** The vendor found is the one record with the invoice's tax id, where it has one, and otherwise the
      one record with its name, case aside; none, or several, and no vendor is found. */
  lemma VendorInFull(name: Option<string>, taxId: Option<string>, records: seq<Vendor>, text: TextOps, k: int)
    requires 0 <= k < |records|
    ensures var id := text.strip(if taxId.Some? then taxId.value else "");
            var folded := text.fold(text.strip(if name.Some? then name.value else ""));
            (forall j :: 0 <= j < |records| ==>
               ((if id != "" then records[j].taxId == Some(id) else text.fold(records[j].legalName) == folded)
                <==> j == k))
            ==> QualifyVendor(name, taxId, records, text) == VendorResult(Qualified, Some(records[k]), [])
    ensures var id := text.strip(if taxId.Some? then taxId.value else "");
            var folded := text.fold(text.strip(if name.Some? then name.value else ""));
            QualifyVendor(name, taxId, records, text).vendor.Some? ==>
              exists k :: 0 <= k < |records| && QualifyVendor(name, taxId, records, text).vendor == Some(records[k])
                && forall j :: 0 <= j < |records| ==>
                     ((if id != "" then records[j].taxId == Some(id) else text.fold(records[j].legalName) == folded)
                      <==> j == k)
  {
    var r := QualifyVendor(name, taxId, records, text);
    if OnlyMatch(records, k, name, taxId, text) {
      assert IsMatch(r.vendor.value, name, taxId, text);
    }
    if r.vendor.Some? {
      var m :| 0 <= m < |records| && OnlyMatch(records, m, name, taxId, text);
      var j :| 0 <= j < |records| && records[j] == r.vendor.value;
      assert IsMatch(records[j], name, taxId, text);
    }
  }

  function Result(s: Summary): Verdict {
    if s.vendor.result != Qualified then s.vendor.result
    else if s.duplicate then Duplicate
    else s.threeWay
  }

  datatype Known = Known(vendorRef: Option<string>, number: Option<string>)

  predicate IsDuplicate(i: Invoice, vendorRef: string, invoices: seq<Known>, digests: seq<Option<string>>) {
    || (exists k :: 0 <= k < |invoices| && invoices[k] == Known(Some(vendorRef), Some(i.number.GetOr(""))))
    || (Truthy(i.digest) && i.digest in digests)
  }

  /** A duplicate is a known invoice of the vendor under the same number, or a known document. */
  lemma DuplicateInFull(i: Invoice, vendorRef: string, invoices: seq<Known>, digests: seq<Option<string>>)
    ensures IsDuplicate(i, vendorRef, invoices, digests) <==>
            || (exists k :: 0 <= k < |invoices| && invoices[k].vendorRef == Some(vendorRef)
                  && invoices[k].number == (if i.number.Some? then i.number else Some("")))
            || (i.digest.Some? && i.digest.value != "" && i.digest in digests)
  {
  }

  /** Once an invoice is known, under its vendor and number or by its document, no later submission that
      shares either is anything but a duplicate, whatever else has become known in between. */
  lemma ResubmissionIsDuplicate(first: Invoice, second: Invoice, vendorRef: string, invoices: seq<Known>,
                                more: seq<Known>, digests: seq<Option<string>>, moreDigests: seq<Option<string>>)
    requires || (first.number.Some? && second.number == first.number)
             || (second.digest == first.digest && second.digest.Some? && second.digest.value != "")
    ensures IsDuplicate(second, vendorRef, invoices + [Known(Some(vendorRef), first.number)] + more,
                        digests + [first.digest] + moreDigests)
  {
    var known := invoices + [Known(Some(vendorRef), first.number)] + more;
    assert known[|invoices|] == Known(Some(vendorRef), first.number);
  }

  /** The invoice is qualified exactly when all three assessments are there and qualified, and that
      is exactly when nothing blocks it. */
  method QualifyInvoice(i: Invoice, records: seq<Vendor>, o: Order, r: Receipt, invoices: seq<Known>,
                        digests: seq<Option<string>>, text: TextOps) returns (s: Summary, assessments: seq<Assessment>)
    ensures Result(s) == Qualified <==>
              |assessments| == 3 && forall k :: 0 <= k < 3 ==> assessments[k].result == Qualified
    ensures Result(s) == Qualified <==> s.reasons == []
    ensures Result(s) == Qualified <==>
              && s.vendor.vendor.Some? && !IsDuplicate(i, s.vendor.vendor.value.ref, invoices, digests)
              && Agrees(i, o, r)
    ensures s.vendor == QualifyVendor(i.vendorName, i.vendorTaxId, records, text)
    ensures |assessments| == 3 <==> s.vendor.vendor.Some?
    ensures s.vendor.vendor.Some? ==>
              (s.duplicate <==>
                 || (exists k :: 0 <= k < |invoices| && invoices[k].vendorRef == Some(s.vendor.vendor.value.ref)
                       && invoices[k].number == (if i.number.Some? then i.number else Some("")))
                 || (i.digest.Some? && i.digest.value != "" && i.digest in digests))
    ensures s.duplicate ==> Result(s) == Duplicate
    ensures s.vendor.vendor.Some? ==> s.threeWay == First(Checks(i, o, r))
  {
    var vendor := QualifyVendor(i.vendorName, i.vendorTaxId, records, text);
    var first := Assessment("vendor_qualification", vendor.result, vendor.reasons);
    if vendor.vendor.None? {
      return Summary(vendor, false, Incomplete, vendor.reasons), [first];
    }
    var duplicate := IsDuplicate(i, vendor.vendor.value.ref, invoices, digests);
    var second := Assessment("duplicate_invoice_check", if duplicate then Duplicate else Qualified,
                             if duplicate then ["invoice identity already exists"] else []);
    var threeWay := MatchThreeWay(i, o, r);
    var third := Assessment("three_way_match", threeWay,
                            if threeWay != Qualified then ["invoice, order and receipt do not match"] else []);
    DuplicateInFull(i, vendor.vendor.value.ref, invoices, digests);
    s := Summary(vendor, duplicate, threeWay, second.reasons + third.reasons);
    assessments := [first, second, third];
    assert assessments[0] == first && assessments[1] == second && assessments[2] == third;
  }
}
