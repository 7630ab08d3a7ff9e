/** The checkout screen (app/customerPage/cart/page.tsx): the subtotal of the
    hard-coded cart, the fixed delivery and service fees, and the one voucher
    the customer may select, which is subtracted from the total as it is
    (no minimum spend, no expiry check, no clamp at zero). */
module Cart {
  import opened Wrappers

  datatype LineItem = LineItem(id: int, name: string, quantity: int, price: real, total: real)

  datatype CheckoutVoucher = CheckoutVoucher(id: string, code: string, discount: real, description: string)

  const HardcodedItems: seq<LineItem> := [
    LineItem(1, "Onion", 1, 120.0, 120.0),
    LineItem(2, "Chicken (Breasts)", 2, 220.0, 440.0),
    LineItem(3, "Bangus", 2, 200.0, 400.0)
  ]

  const AvailableVouchers: seq<CheckoutVoucher> := [
    CheckoutVoucher("v1", "MERKAGO50", 50.0, "\U{20B1}50 off all orders"),
    CheckoutVoucher("v2", "FRESHSHIP", 40.0, "Free Delivery (max \U{20B1}40)"),
    CheckoutVoucher("v3", "SAVE10", 10.0, "\U{20B1}10 off on vegetables")
  ]

  const DeliveryFee: real := 50.0
  const ServiceFee: real := 10.5

  /** `items.reduce((sum, item) => sum + item.total, 0)`: a left fold over the
      stored line totals. */
  function Subtotal(items: seq<LineItem>): real
    decreases |items|
  {
    if items == [] then 0.0 else Subtotal(items[..|items| - 1]) + items[|items| - 1].total
  }

  /** The sum of quantity times price over the items, the value the stored
      `total` fields are meant to hold. */
  function PriceSum(items: seq<LineItem>): real
    decreases |items|
  {
    if items == [] then 0.0
    else PriceSum(items[..|items| - 1]) + items[|items| - 1].quantity as real * items[|items| - 1].price
  }

  predicate ConsistentTotals(items: seq<LineItem>) {
    forall i :: 0 <= i < |items| ==> items[i].total == items[i].quantity as real * items[i].price
  }

  /** When every stored line total is quantity times price, the subtotal is the
      sum of quantity times price. */
  lemma {:induction false} SubtotalIsPriceSum(items: seq<LineItem>)
    requires ConsistentTotals(items)
    ensures Subtotal(items) == PriceSum(items)
    decreases |items|
  {
    if items != [] {
      var init := items[..|items| - 1];
      assert ConsistentTotals(init) by {
        assert forall i :: 0 <= i < |init| ==> init[i] == items[i];
      }
      SubtotalIsPriceSum(init);
    }
  }

  /** The mock cart is consistent and sums to 960.00. */
  lemma HardcodedSubtotal()
    ensures ConsistentTotals(HardcodedItems)
    ensures Subtotal(HardcodedItems) == 960.0
  {
    var items := HardcodedItems;
    assert items[..2][..1] == items[..1];
    assert items[..1][..0] == [];
    assert Subtotal(items[..1]) == 120.0;
    assert Subtotal(items[..2]) == 560.0;
  }

  /** `vouchers.find(v => v.id === selectedId)`: the first voucher whose id is
      the selected one; nothing when no id is selected or none matches. */
  function FindVoucher(vouchers: seq<CheckoutVoucher>, selectedId: Option<string>): (r: Option<CheckoutVoucher>)
    ensures r.Some? ==> selectedId == Some(r.value.id)
    ensures r.Some? ==>
              exists i :: 0 <= i < |vouchers| && vouchers[i] == r.value &&
                          forall j :: 0 <= j < i ==> Some(vouchers[j].id) != selectedId
    ensures r.None? <==> forall i :: 0 <= i < |vouchers| ==> Some(vouchers[i].id) != selectedId
    decreases |vouchers|
  {
    if vouchers == [] then None
    else if Some(vouchers[0].id) == selectedId then Some(vouchers[0])
    else
      var r := FindVoucher(vouchers[1..], selectedId);
      assert forall i :: 1 <= i < |vouchers| ==> vouchers[i] == vouchers[1..][i - 1];
      if r.Some? then
        var k :| 0 <= k < |vouchers| - 1 && vouchers[1..][k] == r.value &&
                 forall j :: 0 <= j < k ==> Some(vouchers[1..][j].id) != selectedId;
        assert vouchers[k + 1] == r.value;
        r
      else r
  }

  /** `appliedVoucher ? appliedVoucher.discount : 0` */
  function AppliedDiscount(selectedId: Option<string>): real {
    match FindVoucher(AvailableVouchers, selectedId)
    case Some(v) => v.discount
    case None => 0.0
  }

  /** `subtotal + deliveryFee + serviceFee - appliedDiscountAmount` */
  function TotalAmount(selectedId: Option<string>): real {
    Subtotal(HardcodedItems) + DeliveryFee + ServiceFee - AppliedDiscount(selectedId)
  }

  /** The discount is exactly the one selected voucher's, and zero when no
      voucher is selected or the id names none of them. */
  lemma AppliedDiscountBySelection(selectedId: Option<string>)
    ensures AppliedDiscount(selectedId) ==
      if selectedId == Some("v1") then 50.0
      else if selectedId == Some("v2") then 40.0
      else if selectedId == Some("v3") then 10.0
      else 0.0
  {
    var r := FindVoucher(AvailableVouchers, selectedId);
    if r.Some? {
      var i :| 0 <= i < 3 && AvailableVouchers[i] == r.value;
    }
  }

  /** The total is the subtotal plus both fees minus the selected discount,
      which with this cart is 1020.50 minus that discount. */
  lemma TotalBySelection(selectedId: Option<string>)
    ensures TotalAmount(selectedId) + AppliedDiscount(selectedId) == Subtotal(HardcodedItems) + DeliveryFee + ServiceFee
    ensures TotalAmount(selectedId) == 1020.5 - AppliedDiscount(selectedId)
  {
    HardcodedSubtotal();
  }

  /** With the initial selection "v1" the total is 970.50. */
  lemma InitialTotal()
    ensures TotalAmount(Some("v1")) == 970.5
  {
    TotalBySelection(Some("v1"));
    AppliedDiscountBySelection(Some("v1"));
  }

  /** No voucher of this screen discounts more than the delivery fee, so the
      total never drops below the subtotal plus the service fee. */
  lemma TotalLowerBound(selectedId: Option<string>)
    ensures TotalAmount(selectedId) >= Subtotal(HardcodedItems) + ServiceFee
  {
    TotalBySelection(selectedId);
    AppliedDiscountBySelection(selectedId);
    HardcodedSubtotal();
  }

  /** `handleVoucherSelect`: clicking the selected voucher clears the
      selection, clicking any other voucher selects it instead. */
  function ToggleSelection(selectedId: Option<string>, id: string): (r: Option<string>)
    ensures r == None <==> selectedId == Some(id)
    ensures r != None ==> r == Some(id)
  {
    if selectedId == Some(id) then None else Some(id)
  }

  /** Clicking the same voucher twice restores the earlier selection exactly
      when that selection was nothing or that voucher; if another voucher was
      selected, two clicks leave nothing selected. */
  lemma ToggleTwice(selectedId: Option<string>, id: string)
    ensures ToggleSelection(ToggleSelection(selectedId, id), id) == selectedId
            <==> selectedId == None || selectedId == Some(id)
    ensures selectedId != None && selectedId != Some(id) ==>
            ToggleSelection(ToggleSelection(selectedId, id), id) == None
  {
  }

  /** The checkout page's state: which voucher, if any, is selected. */
  class CheckoutPage {
    var selectedVoucherId: Option<string>

    constructor ()
      ensures selectedVoucherId == Some("v1")
    {
      selectedVoucherId := Some("v1");
    }

    function AppliedVoucher(): (r: Option<CheckoutVoucher>)
      reads this
      ensures r.Some? ==> r.value in AvailableVouchers && selectedVoucherId == Some(r.value.id)
    {
      FindVoucher(AvailableVouchers, selectedVoucherId)
    }

    function Total(): real
      reads this
    {
      TotalAmount(selectedVoucherId)
    }

    method HandleVoucherSelect(id: string)
      modifies this
      ensures selectedVoucherId == ToggleSelection(old(selectedVoucherId), id)
    {
      if selectedVoucherId == Some(id) {
        selectedVoucherId := None;
      } else {
        selectedVoucherId := Some(id);
      }
    }
  }
}
