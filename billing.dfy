/** The billing screen's state (`billingModule`): the cart it edits in place,
    the catalog snapshot it reads stock from, and the FINALIZE button that is
    disabled while a bill is being posted. Each method is proved to do what the
    matching function of module Cart describes. */
module Billing {
  import opened Seqs
  import opened Catalog
  import opened Cart

  /** Empty and Populated follow the cart; Submitting lasts from the click on
      FINALIZE until the bill request has answered. */
  datatype CartState = Empty | Populated | Submitting

  /** What the summary panel shows: the line count, subtotal, GST and the
      amount due. */
  datatype Summary = Summary(count: nat, subtotal: real, gst: real, finalTotal: real)

  class BillingModule {
    var cart: seq<CartLine>
    var allMedicines: seq<Medicine>
    var submitting: bool

    function State(): (s: CartState)
      reads this
      ensures s == Submitting <==> submitting
      ensures s == Empty <==> !submitting && cart == []
    {
      if submitting then Submitting else if cart == [] then Empty else Populated
    }

    constructor ()
      ensures cart == [] && allMedicines == [] && !submitting
      ensures State() == Empty
    {
      cart := [];
      allMedicines := [];
      submitting := false;
    }

    /** `loadInitialData`: the fetched catalog replaces the old one wholesale;
        a failed fetch is only logged. */
    method LoadInitialData(fetched: Option<seq<Medicine>>)
      modifies this
      ensures allMedicines == (if fetched.Some? then fetched.value else old(allMedicines))
      ensures cart == old(cart) && submitting == old(submitting)
    {
      if fetched.Some? {
        allMedicines := fetched.value;
      }
    }

    /** `addToCart(medId)`, for a medicine of the catalog (the only callers
        are the buttons of the rendered catalog rows). */
    method AddToCart(medId: int) returns (notice: Notice)
      requires InCatalog(allMedicines, medId)
      modifies this
      ensures Edit(cart, notice) == Cart.AddToCart(old(allMedicines), old(cart), medId)
      ensures allMedicines == old(allMedicines) && submitting == old(submitting)
      ensures old(Inv(allMedicines, cart)) && (old(LineIndex(cart, medId)).Some? || Stock(allMedicines, medId) >= 1)
              ==> Inv(allMedicines, cart)
    {
      ghost var before := cart;
      var found := FindIndex(allMedicines, MedicineHasId(medId));
      var med := allMedicines[found.value];
      var existing := FindIndex(cart, LineHasId(medId));
      if existing.Some? {
        var i := existing.value;
        if cart[i].qty < med.quantity {
          cart := cart[i := cart[i].(qty := cart[i].qty + 1)];
          notice := Silent;
        } else {
          notice := Warning(StockLimitMessage);
        }
      } else {
        cart := cart + [CartLine(med, 1)];
        notice := Silent;
      }
      if Inv(allMedicines, before) && (LineIndex(before, medId).Some? || Stock(allMedicines, medId) >= 1) {
        AddPreservesInv(allMedicines, before, medId);
      }
    }

    /** `updateQty(id, delta)`. A catalog record that has gone missing makes
        the comparison with its stock throw, which leaves the cart as it was. */
    method UpdateQty(id: int, delta: int)
      modifies this
      ensures cart == Cart.UpdateQty(old(allMedicines), old(cart), id, delta)
      ensures allMedicines == old(allMedicines) && submitting == old(submitting)
      ensures old(Inv(allMedicines, cart)) ==> Inv(allMedicines, cart)
    {
      ghost var before := cart;
      var item := FindIndex(cart, LineHasId(id));
      var med := FindIndex(allMedicines, MedicineHasId(id));
      assert item == LineIndex(cart, id) && med == CatalogIndex(allMedicines, id);
      ghost var after := Cart.UpdateQty(allMedicines, before, id, delta);
      if item.Some? {
        var i := item.value;
        var newQty := cart[i].qty + delta;
        if newQty > 0 && med.Some? && newQty <= allMedicines[med.value].quantity {
          cart := cart[i := cart[i].(qty := newQty)];
        } else if newQty == 0 {
          cart := RemoveLines(cart, id);
        }
      }
      assert cart == after;
      if Inv(allMedicines, before) {
        UpdatePreservesInv(allMedicines, before, id, delta);
      }
    }

    /** The `forEach` of `renderCart` that accumulates the subtotal and the GST. */
    method ComputeTotals() returns (total: real, gst: real)
      ensures total == Subtotal(cart) && gst == GstTotal(cart)
    {
      total, gst := 0.0, 0.0;
      var i := 0;
      while i < |cart|
        invariant 0 <= i <= |cart|
        invariant total == SubtotalTo(cart, i) && gst == GstTo(cart, i)
      {
        var itemTotal := cart[i].med.sellingPrice * cart[i].qty as real;
        total := total + itemTotal;
        gst := gst + itemTotal * cart[i].med.gstPercent / 100.0;
        i := i + 1;
      }
    }

    /** `renderCart` and `updateSummary`: an empty cart shows zeros, otherwise
        the accumulated totals; the amount due is floored at zero after the
        discount. */
    method RenderCart(discount: Option<real>) returns (s: Summary)
      ensures s.count == |cart|
      ensures s.subtotal == Subtotal(cart) && s.gst == GstTotal(cart)
      ensures cart == [] ==> s.subtotal == 0.0 && s.gst == 0.0
      ensures s.finalTotal == FinalTotal(s.subtotal, s.gst, Discount(discount))
    {
      if |cart| == 0 {
        return Summary(0, 0.0, 0.0, FinalTotal(0.0, 0.0, Discount(discount)));
      }
      var total, gst := ComputeTotals();
      s := Summary(|cart|, total, gst, FinalTotal(total, gst, Discount(discount)));
    }

    /** `clearCart`: empties the cart only when the cashier confirms. */
    method ClearCart(confirmed: bool)
      modifies this
      ensures cart == (if confirmed then [] else old(cart))
      ensures allMedicines == old(allMedicines) && submitting == old(submitting)
    {
      if confirmed {
        cart := [];
      }
    }

    /** The part of `handleGenerateBill` before the request: an empty cart is
        refused with a warning and nothing is sent; otherwise the payload is
        built from the cart and the button is disabled. */
    method BeginCheckout(name: string, phone: string, discount: Option<real>)
      returns (payload: Option<BillPayload>, notice: Notice)
      requires !submitting
      modifies this
      ensures cart == old(cart) && allMedicines == old(allMedicines)
      ensures old(cart) == [] ==> payload.None? && notice == Warning(EmptyCartMessage) && State() == Empty
      ensures old(cart) != [] ==>
        payload == Some(BuildPayload(cart, name, phone, discount)) && notice == Silent && State() == Submitting
    {
      if |cart| == 0 {
        return None, Warning(EmptyCartMessage);
      }
      payload := Some(BuildPayload(cart, name, phone, discount));
      notice := Silent;
      submitting := true;
    }

    /** The part of `handleGenerateBill` after the request has answered: a
        success empties the cart (lines added while waiting included) and
        reloads the catalog; an error is reported and the cart kept; the
        button is enabled again in every case. */
    method FinishCheckout(outcome: PostOutcome, refreshed: Option<seq<Medicine>>) returns (notice: Notice)
      requires submitting
      modifies this
      ensures Edit(cart, notice) == AfterPost(old(cart), outcome)
      ensures allMedicines ==
        (if outcome.Returned? && outcome.success && refreshed.Some? then refreshed.value else old(allMedicines))
      ensures !submitting && State() == (if cart == [] then Empty else Populated)
    {
      match outcome {
        case Threw(message) =>
          notice := Error("Billing Error: " + message);
        case Returned(success, billNumber) =>
          notice := Silent;
          if success {
            notice := Success("Bill #" + billNumber + " generated successfully!");
            cart := [];
            LoadInitialData(refreshed);
          }
      }
      submitting := false;
    }

    /** `handleGenerateBill` when nothing happens during the request. */
    method HandleGenerateBill(name: string, phone: string, discount: Option<real>,
                              outcome: PostOutcome, refreshed: Option<seq<Medicine>>)
      returns (payload: Option<BillPayload>, notice: Notice)
      requires !submitting
      modifies this
      ensures old(cart) == [] ==> payload.None? && notice == Warning(EmptyCartMessage) && cart == []
      ensures old(cart) != [] ==> payload == Some(BuildPayload(old(cart), name, phone, discount))
      ensures old(cart) != [] ==> Edit(cart, notice) == AfterPost(old(cart), outcome)
      ensures allMedicines ==
        (if old(cart) != [] && outcome.Returned? && outcome.success && refreshed.Some?
         then refreshed.value else old(allMedicines))
      ensures !submitting
    {
      payload, notice := BeginCheckout(name, phone, discount);
      if payload.Some? {
        notice := FinishCheckout(outcome, refreshed);
      }
    }
  }
}
