/** The rules of the point-of-sale cart, as values: what adding a medicine,
    changing a quantity, totalling and building the bill payload do to a cart.
    The `BillingModule` class in billing.dfy performs these steps in place and
    is proved to agree with the functions here. */
module Cart {
  import opened Seqs
  import opened Catalog

  /** A cart line is a copy of the medicine record with a quantity added. */
  datatype CartLine = CartLine(med: Medicine, qty: int)

  /** What the cashier is told after an operation (the toast, if any). */
  datatype Notice = Silent | Warning(text: string) | Success(text: string) | Error(text: string)

  const StockLimitMessage := "Maximum stock limit reached in cart"
  const EmptyCartMessage := "Please add items to cart"
  const WalkInCustomer := "Walk-in Customer"
  const PaymentMethod := "cash"

  /** The `find` callbacks: `item => item.medicine_id === id`. */
  function LineHasId(id: int): CartLine -> bool {
    (l: CartLine) => l.med.id == id
  }

  function MedicineHasId(id: int): Medicine -> bool {
    (m: Medicine) => m.id == id
  }

  /** The first cart line for medicine `id` (the cart's `find`). */
  function LineIndex(cart: seq<CartLine>, id: int): Option<nat> {
    Find(cart, LineHasId(id))
  }

  /** The first catalog record for medicine `id` (the catalog's `find`). */
  function CatalogIndex(catalog: seq<Medicine>, id: int): Option<nat> {
    Find(catalog, MedicineHasId(id))
  }

  predicate InCatalog(catalog: seq<Medicine>, id: int) {
    CatalogIndex(catalog, id).Some?
  }

  /** Stock on hand of medicine `id`, read from the catalog, never from the line. */
  function Stock(catalog: seq<Medicine>, id: int): int
    requires InCatalog(catalog, id)
  {
    catalog[CatalogIndex(catalog, id).value].quantity
  }

  predicate UniqueIds(cart: seq<CartLine>) {
    forall i, j :: 0 <= i < j < |cart| ==> cart[i].med.id != cart[j].med.id
  }

  /** Every line has between one unit and the catalog's stock. */
  predicate WithinStock(catalog: seq<Medicine>, cart: seq<CartLine>) {
    forall i :: 0 <= i < |cart| ==>
      InCatalog(catalog, cart[i].med.id) && 1 <= cart[i].qty <= Stock(catalog, cart[i].med.id)
  }

  /** With one line per medicine, the cart's `find` by id locates each line
      at its own position. */
  lemma UniqueLinesLocated(cart: seq<CartLine>)
    requires UniqueIds(cart)
    ensures forall i :: 0 <= i < |cart| ==> LineIndex(cart, cart[i].med.id) == Some(i)
  {
    forall i | 0 <= i < |cart|
      ensures LineIndex(cart, cart[i].med.id) == Some(i)
    {
      FindIsFirst(cart, LineHasId(cart[i].med.id), i);
    }
  }

  /** The cart invariant: one line per medicine, each line within stock. Under
      it, looking a line up by its medicine id finds that very line. */
  predicate Inv(catalog: seq<Medicine>, cart: seq<CartLine>): (ok: bool)
    ensures ok ==> forall i {:trigger LineIndex(cart, cart[i].med.id)} ::
      0 <= i < |cart| ==> LineIndex(cart, cart[i].med.id) == Some(i)
  {
    if UniqueIds(cart) then
      UniqueLinesLocated(cart);
      WithinStock(catalog, cart)
    else false
  }

  /** A cart after an operation, with the toast it raised. */
  datatype Edit = Edit(cart: seq<CartLine>, notice: Notice)

  // ---------------------------------------------------------------- cart edits

  /** `addToCart(medId)`: a line already present grows by one unit while below
      stock, otherwise the stock-limit warning is raised; a new medicine is
      appended with one unit, with no stock check. */
  function AddToCart(catalog: seq<Medicine>, cart: seq<CartLine>, medId: int): (r: Edit)
    requires InCatalog(catalog, medId)
    ensures LineIndex(r.cart, medId).Some?
    ensures r.notice == Silent || r.notice == Warning(StockLimitMessage)
    ensures r.notice != Silent ==> r.cart == cart
    ensures |cart| <= |r.cart| <= |cart| + 1
    ensures forall j :: 0 <= j < |cart| && cart[j].med.id != medId ==> r.cart[j] == cart[j]
  {
    var med := catalog[CatalogIndex(catalog, medId).value];
    match LineIndex(cart, medId)
    case Some(i) =>
      if cart[i].qty < med.quantity then
        var grown := cart[i := cart[i].(qty := cart[i].qty + 1)];
        assert LineHasId(medId)(grown[i]);
        Edit(grown, Silent)
      else Edit(cart, Warning(StockLimitMessage))
    case None =>
      var grown := cart + [CartLine(med, 1)];
      assert LineHasId(medId)(grown[|cart|]);
      Edit(grown, Silent)
  }

  /** `cart.filter(i => i.medicine_id !== id)`. */
  function RemoveLines(cart: seq<CartLine>, id: int): (r: seq<CartLine>)
    ensures |r| <= |cart|
    ensures forall k :: 0 <= k < |r| ==> r[k] in cart && r[k].med.id != id
    ensures forall j :: 0 <= j < |cart| && cart[j].med.id != id ==> cart[j] in r
  {
    Filter(cart, (l: CartLine) => l.med.id != id)
  }

  /** `updateQty(id, delta)`. The new quantity is taken when it is positive and
      within stock, the line is dropped when it is exactly zero, and anything
      else is ignored. When the medicine has left the catalog, comparing with
      its stock throws, which also leaves the cart as it was. */
  function UpdateQty(catalog: seq<Medicine>, cart: seq<CartLine>, id: int, delta: int): (r: seq<CartLine>)
    ensures LineIndex(cart, id).None? ==> r == cart
    ensures |r| <= |cart|
    ensures forall j :: 0 <= j < |cart| && cart[j].med.id != id ==> cart[j] in r
    ensures forall k :: 0 <= k < |r| ==>
      r[k] in cart || (r[k].med.id == id && InCatalog(catalog, id) && 1 <= r[k].qty <= Stock(catalog, id))
  {
    match LineIndex(cart, id)
    case None => cart
    case Some(i) =>
      var newQty := cart[i].qty + delta;
      if newQty > 0 && InCatalog(catalog, id) && newQty <= Stock(catalog, id) then
        var updated := cart[i := cart[i].(qty := newQty)];
        assert forall j :: 0 <= j < |cart| && cart[j].med.id != id ==> updated[j] == cart[j];
        updated
      else if newQty == 0 then RemoveLines(cart, id)
      else cart
  }

  /** Adding a medicine already in the cart adds exactly one unit to its line
      and leaves every other line alone, or changes nothing and warns. */
  lemma AddToExistingLine(catalog: seq<Medicine>, cart: seq<CartLine>, medId: int, i: nat)
    requires InCatalog(catalog, medId) && LineIndex(cart, medId) == Some(i)
    ensures var r := AddToCart(catalog, cart, medId);
      if cart[i].qty < Stock(catalog, medId) then
        && |r.cart| == |cart|
        && r.cart[i].med == cart[i].med && r.cart[i].qty == cart[i].qty + 1
        && (forall j :: 0 <= j < |cart| && j != i ==> r.cart[j] == cart[j])
        && r.notice == Silent
      else
        r == Edit(cart, Warning(StockLimitMessage))
  {
  }

  /** Adding a medicine not yet in the cart appends one line with one unit,
      built from the catalog record, after the existing lines. */
  lemma AddNewLine(catalog: seq<Medicine>, cart: seq<CartLine>, medId: int)
    requires InCatalog(catalog, medId) && LineIndex(cart, medId).None?
    ensures var r := AddToCart(catalog, cart, medId);
      && |r.cart| == |cart| + 1
      && r.cart[..|cart|] == cart
      && r.cart[|cart|] == CartLine(catalog[CatalogIndex(catalog, medId).value], 1)
      && r.cart[|cart|].med.id == medId
      && r.notice == Silent
  {
  }

  /** `addToCart` keeps the invariant, provided a medicine added for the first
      time has stock (the add button is disabled otherwise). */
  lemma AddPreservesInv(catalog: seq<Medicine>, cart: seq<CartLine>, medId: int)
    requires Inv(catalog, cart) && InCatalog(catalog, medId)
    requires LineIndex(cart, medId).Some? || Stock(catalog, medId) >= 1
    ensures Inv(catalog, AddToCart(catalog, cart, medId).cart)
  {
    var r := AddToCart(catalog, cart, medId).cart;
    match LineIndex(cart, medId)
    case Some(i) =>
      assert cart[i].med.id == medId;
      assert forall j :: 0 <= j < |r| ==> r[j].med.id == cart[j].med.id;
    case None =>
      assert forall j :: 0 <= j < |cart| ==> cart[j].med.id != medId;
      assert forall j :: 0 <= j < |cart| ==> r[j] == cart[j];
  }

  /** A line left alone by the bounds check: nothing changes. */
  lemma UpdateOutOfRange(catalog: seq<Medicine>, cart: seq<CartLine>, id: int, delta: int, i: nat)
    requires LineIndex(cart, id) == Some(i) && InCatalog(catalog, id)
    requires var q := cart[i].qty + delta; q < 0 || (q != 0 && q > Stock(catalog, id))
    ensures UpdateQty(catalog, cart, id, delta) == cart
  {
  }

  /** Updating a medicine that has no line changes nothing. */
  lemma UpdateAbsent(catalog: seq<Medicine>, cart: seq<CartLine>, id: int, delta: int)
    requires forall j :: 0 <= j < |cart| ==> cart[j].med.id != id
    ensures UpdateQty(catalog, cart, id, delta) == cart
  {
  }

  /** An accepted update sets that line's quantity and nothing else. */
  lemma UpdateSetsQty(catalog: seq<Medicine>, cart: seq<CartLine>, id: int, delta: int, i: nat)
    requires LineIndex(cart, id) == Some(i) && InCatalog(catalog, id)
    requires 0 < cart[i].qty + delta <= Stock(catalog, id)
    ensures var r := UpdateQty(catalog, cart, id, delta);
      && |r| == |cart|
      && r[i] == CartLine(cart[i].med, cart[i].qty + delta)
      && forall j :: 0 <= j < |cart| && j != i ==> r[j] == cart[j]
  {
  }

  /** Removing by `filter` when ids are unique drops exactly that line and
      keeps the others in their original order. */
  lemma RemoveUniqueLine(cart: seq<CartLine>, i: nat)
    requires UniqueIds(cart) && i < |cart|
    ensures RemoveLines(cart, cart[i].med.id) == cart[..i] + cart[i + 1..]
  {
    var id := cart[i].med.id;
    FilterDropsOne(cart, (l: CartLine) => l.med.id != id, i);
  }

  /** An update reaching exactly zero removes the line, and only that line. */
  lemma UpdateToZeroRemoves(catalog: seq<Medicine>, cart: seq<CartLine>, id: int, delta: int, i: nat)
    requires UniqueIds(cart) && LineIndex(cart, id) == Some(i)
    requires cart[i].qty + delta == 0
    ensures UpdateQty(catalog, cart, id, delta) == cart[..i] + cart[i + 1..]
  {
    RemoveUniqueLine(cart, i);
  }

  /** Dropping one line keeps the invariant. */
  lemma RemoveAtPreservesInv(catalog: seq<Medicine>, cart: seq<CartLine>, i: nat)
    requires Inv(catalog, cart) && i < |cart|
    ensures Inv(catalog, cart[..i] + cart[i + 1..])
  {
    var r := cart[..i] + cart[i + 1..];
    assert forall j :: 0 <= j < |r| ==> r[j] == cart[if j < i then j else j + 1];
  }

  /** Setting one line to a quantity within its stock keeps the invariant. */
  lemma SetQtyPreservesInv(catalog: seq<Medicine>, cart: seq<CartLine>, i: nat, q: int)
    requires Inv(catalog, cart) && i < |cart|
    requires 1 <= q <= Stock(catalog, cart[i].med.id)
    ensures Inv(catalog, cart[i := cart[i].(qty := q)])
  {
    var r := cart[i := cart[i].(qty := q)];
    assert forall j :: 0 <= j < |r| ==> r[j].med.id == cart[j].med.id;
  }

  /** `updateQty` keeps the invariant for every delta. */
  lemma UpdatePreservesInv(catalog: seq<Medicine>, cart: seq<CartLine>, id: int, delta: int)
    requires Inv(catalog, cart)
    ensures Inv(catalog, UpdateQty(catalog, cart, id, delta))
  {
    match LineIndex(cart, id)
    case None =>
    case Some(i) =>
      var newQty := cart[i].qty + delta;
      if newQty > 0 && InCatalog(catalog, id) && newQty <= Stock(catalog, id) {
        SetQtyPreservesInv(catalog, cart, i, newQty);
      } else if newQty == 0 {
        RemoveUniqueLine(cart, i);
        RemoveAtPreservesInv(catalog, cart, i);
      }
  }

  /** A click on a "+" button of the search list or on a "-"/"+" of the cart. */
  datatype CartOp = Add(medId: int) | Update(id: int, delta: int)

  /** What the UI lets through: the add buttons exist only for catalog rows
      and are disabled when the row has no stock. */
  predicate Allowed(catalog: seq<Medicine>, op: CartOp) {
    op.Add? ==> InCatalog(catalog, op.medId) && CanAdd(catalog[CatalogIndex(catalog, op.medId).value])
  }

  /** One click applied to the cart. */
  function Apply(catalog: seq<Medicine>, cart: seq<CartLine>, op: CartOp): seq<CartLine>
    requires Allowed(catalog, op)
  {
    match op
    case Add(medId) => AddToCart(catalog, cart, medId).cart
    case Update(id, delta) => UpdateQty(catalog, cart, id, delta)
  }

  /** A sequence of clicks applied in order. */
  function Run(catalog: seq<Medicine>, cart: seq<CartLine>, ops: seq<CartOp>): seq<CartLine>
    requires forall k :: 0 <= k < |ops| ==> Allowed(catalog, ops[k])
    decreases |ops|
  {
    if ops == [] then cart
    else Run(catalog, Apply(catalog, cart, ops[0]), ops[1..])
  }

  lemma ApplyPreservesInv(catalog: seq<Medicine>, cart: seq<CartLine>, op: CartOp)
    requires Allowed(catalog, op) && Inv(catalog, cart)
    ensures Inv(catalog, Apply(catalog, cart, op))
  {
    match op
    case Add(medId) => AddPreservesInv(catalog, cart, medId);
    case Update(id, delta) => UpdatePreservesInv(catalog, cart, id, delta);
  }

  /** Whatever the cashier clicks, starting from a valid cart, no line ever has
      zero units or more units than the catalog's stock, and no medicine has two lines. */
  lemma {:induction false} RunPreservesInv(catalog: seq<Medicine>, cart: seq<CartLine>, ops: seq<CartOp>)
    requires forall k :: 0 <= k < |ops| ==> Allowed(catalog, ops[k])
    requires Inv(catalog, cart)
    ensures Inv(catalog, Run(catalog, cart, ops))
    decreases |ops|
  {
    if ops != [] {
      ApplyPreservesInv(catalog, cart, ops[0]);
      assert forall k :: 0 <= k < |ops[1..]| ==> ops[1..][k] == ops[k + 1];
      RunPreservesInv(catalog, Apply(catalog, cart, ops[0]), ops[1..]);
    }
  }

  // ------------------------------------------------------------------ totals

  function LineTotal(l: CartLine): real {
    l.med.sellingPrice * l.qty as real
  }

  function LineGst(l: CartLine): real {
    LineTotal(l) * l.med.gstPercent / 100.0
  }

  /** Sum of price times quantity over the first `n` lines, accumulated front to back. */
  function SubtotalTo(cart: seq<CartLine>, n: nat): real
    requires n <= |cart|
  {
    if n == 0 then 0.0 else SubtotalTo(cart, n - 1) + LineTotal(cart[n - 1])
  }

  /** Sum of the line GST amounts over the first `n` lines. */
  function GstTo(cart: seq<CartLine>, n: nat): real
    requires n <= |cart|
  {
    if n == 0 then 0.0 else GstTo(cart, n - 1) + LineGst(cart[n - 1])
  }

  /** Prices, GST rates and quantities are all non-negative. */
  predicate NonNegativeLines(cart: seq<CartLine>) {
    forall i :: 0 <= i < |cart| ==>
      cart[i].med.sellingPrice >= 0.0 && cart[i].med.gstPercent >= 0.0 && cart[i].qty >= 0
  }

  /** The subtotal shown under the cart: price times quantity, summed over all lines. */
  function Subtotal(cart: seq<CartLine>): (r: real)
    ensures cart == [] ==> r == 0.0
    ensures NonNegativeLines(cart) ==> r >= 0.0
  {
    if NonNegativeLines(cart) then
      TotalsNonNegative(cart, |cart|);
      SubtotalTo(cart, |cart|)
    else SubtotalTo(cart, |cart|)
  }

  /** The GST shown under the cart: each line's amount at its own rate, summed. */
  function GstTotal(cart: seq<CartLine>): (r: real)
    ensures cart == [] ==> r == 0.0
    ensures NonNegativeLines(cart) ==> r >= 0.0
  {
    if NonNegativeLines(cart) then
      TotalsNonNegative(cart, |cart|);
      GstTo(cart, |cart|)
    else GstTo(cart, |cart|)
  }

  /** The discount field: `parseFloat(value) || 0`, where None stands for NaN. */
  function Discount(parsed: Option<real>): (d: real)
    ensures parsed.None? ==> d == 0.0
    ensures parsed.Some? ==> d == parsed.value
  {
    match parsed
    case None => 0.0
    case Some(v) => v
  }

  /** `Math.max(0, total + gst - discount)`. */
  function FinalTotal(subtotal: real, gst: real, discount: real): (r: real)
    ensures r >= 0.0 && r >= subtotal + gst - discount
    ensures r == 0.0 || r == subtotal + gst - discount
  {
    if subtotal + gst - discount > 0.0 then subtotal + gst - discount else 0.0
  }

  /** Prefix sums only look at the lines they cover. */
  lemma {:induction false} PrefixTotalsAgree(s: seq<CartLine>, t: seq<CartLine>, n: nat)
    requires n <= |s| && n <= |t|
    requires forall j :: 0 <= j < n ==> s[j] == t[j]
    ensures SubtotalTo(s, n) == SubtotalTo(t, n) && GstTo(s, n) == GstTo(t, n)
  {
    if n > 0 {
      PrefixTotalsAgree(s, t, n - 1);
    }
  }

  lemma {:induction false} PrefixTotalsConcat(a: seq<CartLine>, b: seq<CartLine>, k: nat)
    requires k <= |b|
    ensures SubtotalTo(a + b, |a| + k) == Subtotal(a) + SubtotalTo(b, k)
    ensures GstTo(a + b, |a| + k) == GstTotal(a) + GstTo(b, k)
  {
    if k == 0 {
      PrefixTotalsAgree(a + b, a, |a|);
    } else {
      PrefixTotalsConcat(a, b, k - 1);
      assert (a + b)[|a| + k - 1] == b[k - 1];
    }
  }

  lemma SubtotalConcat(a: seq<CartLine>, b: seq<CartLine>)
    ensures Subtotal(a + b) == Subtotal(a) + Subtotal(b)
    ensures GstTotal(a + b) == GstTotal(a) + GstTotal(b)
  {
    PrefixTotalsConcat(a, b, |b|);
  }

  lemma SubtotalSingle(l: CartLine)
    ensures Subtotal([l]) == LineTotal(l) && GstTotal([l]) == LineGst(l)
  {
    assert SubtotalTo([l], 1) == SubtotalTo([l], 0) + LineTotal(l);
    assert GstTo([l], 1) == GstTo([l], 0) + LineGst(l);
  }

  /** The totals of a cart split around one line. */
  lemma SubtotalSplit(front: seq<CartLine>, l: CartLine, back: seq<CartLine>)
    ensures Subtotal(front + [l] + back) == Subtotal(front) + LineTotal(l) + Subtotal(back)
    ensures GstTotal(front + [l] + back) == GstTotal(front) + LineGst(l) + GstTotal(back)
  {
    SubtotalConcat(front + [l], back);
    SubtotalConcat(front, [l]);
    SubtotalSingle(l);
  }

  /** Replacing one line changes the totals by that line's difference. */
  lemma SubtotalReplace(cart: seq<CartLine>, i: nat, l: CartLine)
    requires i < |cart|
    ensures Subtotal(cart[i := l]) == Subtotal(cart) - LineTotal(cart[i]) + LineTotal(l)
    ensures GstTotal(cart[i := l]) == GstTotal(cart) - LineGst(cart[i]) + LineGst(l)
  {
    var front, back := cart[..i], cart[i + 1..];
    assert cart == front + [cart[i]] + back;
    assert cart[i := l] == front + [l] + back;
    SubtotalSplit(front, cart[i], back);
    SubtotalSplit(front, l, back);
  }

  /** Dropping one line takes exactly that line's amounts off the totals. */
  lemma SubtotalRemoveAt(cart: seq<CartLine>, i: nat)
    requires i < |cart|
    ensures Subtotal(cart[..i] + cart[i + 1..]) == Subtotal(cart) - LineTotal(cart[i])
    ensures GstTotal(cart[..i] + cart[i + 1..]) == GstTotal(cart) - LineGst(cart[i])
  {
    var front, back := cart[..i], cart[i + 1..];
    assert cart == front + [cart[i]] + back;
    SubtotalSplit(front, cart[i], back);
    SubtotalConcat(front, back);
  }

  /** A successful `addToCart` raises the subtotal by exactly one unit price,
      whether it grew a line or appended one; a refused one changes nothing. */
  lemma AddRaisesSubtotalByPrice(catalog: seq<Medicine>, cart: seq<CartLine>, medId: int)
    requires InCatalog(catalog, medId)
    ensures var r := AddToCart(catalog, cart, medId);
      match LineIndex(cart, medId)
      case Some(i) =>
        Subtotal(r.cart) == Subtotal(cart) + (if r.notice == Silent then cart[i].med.sellingPrice else 0.0)
      case None =>
        Subtotal(r.cart) == Subtotal(cart) + catalog[CatalogIndex(catalog, medId).value].sellingPrice
  {
    var r := AddToCart(catalog, cart, medId);
    match LineIndex(cart, medId)
    case Some(i) =>
      if r.notice == Silent {
        var l := cart[i].(qty := cart[i].qty + 1);
        SubtotalReplace(cart, i, l);
        assert LineTotal(l) == LineTotal(cart[i]) + cart[i].med.sellingPrice;
      }
    case None =>
      var med := catalog[CatalogIndex(catalog, medId).value];
      SubtotalConcat(cart, [CartLine(med, 1)]);
      SubtotalSingle(CartLine(med, 1));
  }

  /** With non-negative prices, rates and quantities the totals are non-negative. */
  lemma {:induction false} TotalsNonNegative(cart: seq<CartLine>, n: nat)
    requires n <= |cart|
    requires NonNegativeLines(cart)
    ensures SubtotalTo(cart, n) >= 0.0 && GstTo(cart, n) >= 0.0
  {
    if n > 0 {
      var l := cart[n - 1];
      TotalsNonNegative(cart, n - 1);
      assert LineTotal(l) >= 0.0;
      assert LineGst(l) >= 0.0;
    }
  }

  /** When every line carries the same GST rate, the GST is that rate applied
      to the subtotal. */
  lemma {:induction false} GstAtUniformRate(cart: seq<CartLine>, n: nat, rate: real)
    requires n <= |cart|
    requires forall i :: 0 <= i < |cart| ==> cart[i].med.gstPercent == rate
    ensures GstTo(cart, n) == SubtotalTo(cart, n) * rate / 100.0
  {
    if n > 0 {
      GstAtUniformRate(cart, n - 1, rate);
    }
  }

  // ------------------------------------------------------------------ checkout

  datatype Customer = Customer(customerName: string, phone: string)
  datatype BillItem = BillItem(medicineId: int, quantity: int)
  datatype BillPayload = BillPayload(customer: Customer, items: seq<BillItem>, discount: real, paymentMethod: string)

  /** The outcome of `api.post('/bills', payload)`: it throws with a message,
      or it returns a body whose `success` flag and bill number are read. */
  datatype PostOutcome = Threw(message: string) | Returned(success: bool, billNumber: string)

  /** `custName.value || 'Walk-in Customer'`. */
  function CustomerName(typed: string): (name: string)
    ensures name != ""
    ensures typed != "" ==> name == typed
    ensures typed == "" ==> name == WalkInCustomer
  {
    if typed == "" then WalkInCustomer else typed
  }

  /** The bill payload built from the cart and the form fields. */
  function BuildPayload(cart: seq<CartLine>, name: string, phone: string, discount: Option<real>): (p: BillPayload)
    ensures |p.items| == |cart|
    ensures forall i :: 0 <= i < |cart| ==> p.items[i] == BillItem(cart[i].med.id, cart[i].qty)
    ensures p.customer == Customer(CustomerName(name), phone)
    ensures p.discount == Discount(discount) && p.paymentMethod == PaymentMethod
  {
    BillPayload(
      Customer(CustomerName(name), phone),
      seq(|cart|, i requires 0 <= i < |cart| => BillItem(cart[i].med.id, cart[i].qty)),
      Discount(discount),
      PaymentMethod)
  }

  /** From a valid cart the server receives each medicine once, with a
      quantity between one and the stock the catalog showed. */
  lemma PayloadFromValidCart(catalog: seq<Medicine>, cart: seq<CartLine>, name: string, phone: string, discount: Option<real>)
    requires Inv(catalog, cart)
    ensures var items := BuildPayload(cart, name, phone, discount).items;
      && (forall i, j :: 0 <= i < j < |items| ==> items[i].medicineId != items[j].medicineId)
      && (forall i :: 0 <= i < |items| ==>
            InCatalog(catalog, items[i].medicineId) && 1 <= items[i].quantity <= Stock(catalog, items[i].medicineId))
  {
    var items := BuildPayload(cart, name, phone, discount).items;
    assert forall i :: 0 <= i < |items| ==> items[i].medicineId == cart[i].med.id && items[i].quantity == cart[i].qty;
  }

  /** What the bill response does to the cart: only a returned body with
      `success` true empties it; a thrown error is reported and the cart kept. */
  function AfterPost(cart: seq<CartLine>, outcome: PostOutcome): (r: Edit)
    ensures r.cart == [] <==> (outcome.Returned? && outcome.success) || cart == []
    ensures !(outcome.Returned? && outcome.success) ==> r.cart == cart
    ensures outcome.Threw? ==> r.notice == Error("Billing Error: " + outcome.message)
  {
    match outcome
    case Threw(message) => Edit(cart, Error("Billing Error: " + message))
    case Returned(success, billNumber) =>
      if success then Edit([], Success("Bill #" + billNumber + " generated successfully!"))
      else Edit(cart, Silent)
  }

  /** A failed submission can be retried as it was: the cart it leaves builds
      the very same payload. */
  lemma RetryAfterFailureSamePayload(cart: seq<CartLine>, outcome: PostOutcome, name: string, phone: string, discount: Option<real>)
    requires !(outcome.Returned? && outcome.success)
    ensures BuildPayload(AfterPost(cart, outcome).cart, name, phone, discount) == BuildPayload(cart, name, phone, discount)
  {
  }
}
