/** The vouchers-and-rewards screen (app/customerPage/voucher/page.tsx): a
    loyalty-point balance spent on rewards, the lists of universal and
    shop-specific vouchers still on offer, and the one voucher applied.
    Dates are instants in milliseconds: `expiresAt` is the instant of 00:00
    UTC on the voucher's expiration date, `now` what `new Date()` gives. */
module VoucherPage {
  import opened Wrappers
  import Seqs

  datatype Voucher = Voucher(
    id: int, code: string, discount: string, description: string,
    expiresAt: int, isUsed: bool, isUniversal: bool, shop: string)

  datatype Reward = Reward(id: int, name: string, pointsCost: int, claimed: bool, shop: string)

  /** The mock vouchers; expiry instants are the listed dates at 00:00 UTC. */
  const MockVouchers: seq<Voucher> := [
    Voucher(1, "MERKAGO20", "20% OFF", "20% off all orders over $50.", 1764460800000, false, true, "Universal"),
    Voucher(2, "FREESHIP", "Free Delivery", "Free delivery on your next order.", 1765756800000, false, true, "Universal"),
    Voucher(3, "SMARKET10", "$10 OFF", "Valid for orders at Super Market over $40.", 1764028800000, false, false, "Super Market"),
    Voucher(4, "PHARM5", "5% OFF", "5% off on all medicine and health products.", 1767225600000, false, false, "Health Pharmacy")
  ]

  const MockRewards: seq<Reward> := [
    Reward(1, "Free Coffee", 500, false, "Cafe Hub"),
    Reward(2, "$5 Off Voucher", 800, false, "Universal"),
    Reward(3, "Priority Delivery", 1500, false, "Universal")
  ]

  const InitialPoints: int := 1250

  // ---------------------------------------------------------------------
  // Voucher lists and the Apply button
  // ---------------------------------------------------------------------

  /** `new Date(voucher.expiration) < new Date()` */
  predicate IsExpired(v: Voucher, now: int) {
    v.expiresAt < now
  }

  /** The card shows "Used", else "Expired", else an Apply button. */
  predicate CanApply(v: Voucher, now: int) {
    !v.isUsed && !IsExpired(v, now)
  }

  /** The filter of `universalVouchers`. */
  function UniversalOffer(now: int): Voucher -> bool {
    (v: Voucher) => v.isUniversal && !v.isUsed && v.expiresAt >= now
  }

  /** The filter of `currentShopVouchers` for the selected shop tab. */
  function ShopOffer(tab: string, now: int): Voucher -> bool {
    (v: Voucher) => v.shop == tab && !v.isUsed && !v.isUniversal && v.expiresAt >= now
  }

  function UniversalVouchers(vouchers: seq<Voucher>, now: int): (r: seq<Voucher>)
    ensures forall i :: 0 <= i < |r| ==>
              r[i] in vouchers && r[i].isUniversal && !r[i].isUsed && r[i].expiresAt >= now
    ensures forall i :: 0 <= i < |vouchers| ==>
              (vouchers[i].isUniversal && !vouchers[i].isUsed && vouchers[i].expiresAt >= now ==> vouchers[i] in r)
  {
    Seqs.Filter(vouchers, UniversalOffer(now))
  }

  function ShopVouchers(vouchers: seq<Voucher>, tab: string, now: int): (r: seq<Voucher>)
    ensures forall i :: 0 <= i < |r| ==>
              r[i] in vouchers && r[i].shop == tab && !r[i].isUsed && !r[i].isUniversal && r[i].expiresAt >= now
    ensures forall i :: 0 <= i < |vouchers| ==>
              ((vouchers[i].shop == tab && !vouchers[i].isUsed && !vouchers[i].isUniversal &&
                vouchers[i].expiresAt >= now) ==> vouchers[i] in r)
  {
    Seqs.Filter(vouchers, ShopOffer(tab, now))
  }

  /** No voucher is listed both under the shop tab and as universal. */
  lemma OfferListsDisjoint(vouchers: seq<Voucher>, tab: string, now: int)
    ensures forall i, j :: 0 <= i < |ShopVouchers(vouchers, tab, now)| &&
                           0 <= j < |UniversalVouchers(vouchers, now)| ==>
              ShopVouchers(vouchers, tab, now)[i] != UniversalVouchers(vouchers, now)[j]
  {
  }

  /** Every listed voucher shows an Apply button. */
  lemma ListedVouchersCanBeApplied(vouchers: seq<Voucher>, tab: string, now: int)
    ensures forall i :: 0 <= i < |UniversalVouchers(vouchers, now)| ==>
              CanApply(UniversalVouchers(vouchers, now)[i], now)
    ensures forall i :: 0 <= i < |ShopVouchers(vouchers, tab, now)| ==>
              CanApply(ShopVouchers(vouchers, tab, now)[i], now)
  {
  }

  /** `vouchers.find(v => v.id === voucherId)` */
  function FindVoucher(vouchers: seq<Voucher>, voucherId: int): (r: Option<Voucher>)
    ensures r.Some? ==> r.value.id == voucherId
    ensures r.Some? ==>
              exists k :: 0 <= k < |vouchers| && vouchers[k] == r.value &&
                          forall j :: 0 <= j < k ==> vouchers[j].id != voucherId
    ensures r.None? <==> forall i :: 0 <= i < |vouchers| ==> vouchers[i].id != voucherId
    decreases |vouchers|
  {
    if vouchers == [] then None
    else if vouchers[0].id == voucherId then Some(vouchers[0])
    else
      var r := FindVoucher(vouchers[1..], voucherId);
      assert forall i :: 1 <= i < |vouchers| ==> vouchers[i] == vouchers[1..][i - 1];
      if r.Some? then
        var k :| 0 <= k < |vouchers| - 1 && vouchers[1..][k] == r.value &&
                 forall j :: 0 <= j < k ==> vouchers[1..][j].id != voucherId;
        assert vouchers[k + 1] == r.value;
        r
      else r
  }

  // ---------------------------------------------------------------------
  // Rewards
  // ---------------------------------------------------------------------

  /** The Claim button's guard on a reward record: enabled exactly when the
      points cover the cost and the record is not marked claimed. */
  predicate CanClaim(points: int, r: Reward) {
    points >= r.pointsCost && !r.claimed
  }

  /** `rewards.map(r => r.id === rewardId ? { ...r, claimed: true } : r)` */
  function MarkClaimed(rewards: seq<Reward>, rewardId: int): (r: seq<Reward>)
    ensures |r| == |rewards|
    ensures forall i :: 0 <= i < |r| ==>
              r[i].id == rewards[i].id && r[i].name == rewards[i].name &&
              r[i].pointsCost == rewards[i].pointsCost && r[i].shop == rewards[i].shop &&
              r[i].claimed == (rewards[i].claimed || rewards[i].id == rewardId)
  {
    seq(|rewards|, i requires 0 <= i < |rewards| =>
      if rewards[i].id == rewardId then rewards[i].(claimed := true) else rewards[i])
  }

  /** `handleClaimReward` on the points and rewards it reads: the new points,
      the new rewards and whether the claim went through. */
  function Claim(points: int, rewards: seq<Reward>, rewardId: int, pointsCost: int): (r: (int, seq<Reward>, bool))
    ensures r.2 <==> points >= pointsCost
    ensures r.2 ==> r.0 == points - pointsCost && r.1 == MarkClaimed(rewards, rewardId)
    ensures !r.2 ==> r.0 == points && r.1 == rewards
  {
    if points >= pointsCost then (points - pointsCost, MarkClaimed(rewards, rewardId), true)
    else (points, rewards, false)
  }

  /** A claim never drives a non-negative balance below zero, whatever the cost. */
  lemma ClaimKeepsPointsNonNegative(points: int, rewards: seq<Reward>, rewardId: int, pointsCost: int)
    requires points >= 0
    ensures Claim(points, rewards, rewardId, pointsCost).0 >= 0
  {
  }

  /** The buttons are drawn from the constant `MOCK_REWARDS`, not from the
      `rewards` state, so the guard they show is `CanClaim` on a record that
      is never marked claimed: a button is enabled exactly when the points
      cover the cost, however often the reward has been claimed. */
  function RenderedClaimEnabled(points: int, i: nat): (r: bool)
    requires i < |MockRewards|
    ensures r <==> points >= MockRewards[i].pointsCost
  {
    CanClaim(points, MockRewards[i])
  }

  /** Whatever the state, a claim leaves the drawn button of the reward
      enabled as long as the remaining points still cover its cost. */
  lemma RenderedButtonStaysEnabled(points: int, rewards: seq<Reward>, i: nat)
    requires i < |MockRewards| && RenderedClaimEnabled(points, i)
    ensures var after := Claim(points, rewards, MockRewards[i].id, MockRewards[i].pointsCost);
            after.2 && (after.0 >= MockRewards[i].pointsCost ==> RenderedClaimEnabled(after.0, i))
  {
  }

  /** From the initial 1250 points, Free Coffee (500) is claimed, the state
      marks it claimed, its drawn button is still enabled at 750 points, and
      a second click deducts the cost again, leaving 250. */
  lemma RepeatClaimThroughRenderedButton()
    ensures var first := Claim(InitialPoints, MockRewards, 1, 500);
            var second := Claim(first.0, first.1, 1, 500);
            first.2 && first.0 == 750 && first.1[0].claimed &&
            RenderedClaimEnabled(first.0, 0) &&
            second.2 && second.0 == 250
  {
    var first := Claim(InitialPoints, MockRewards, 1, 500);
    assert first.1[0].claimed;
  }

  /** The intended guard, read from the `rewards` state: after a guarded claim
      the reward's button is disabled. */
  lemma ClaimDisablesButton(points: int, rewards: seq<Reward>, i: nat)
    requires i < |rewards| && CanClaim(points, rewards[i])
    ensures var after := Claim(points, rewards, rewards[i].id, rewards[i].pointsCost);
            after.2 && !CanClaim(after.0, after.1[i])
  {
  }

  // ---------------------------------------------------------------------
  // The page state
  // ---------------------------------------------------------------------

  class VouchersPageState {
    var vouchers: seq<Voucher>
    var rewards: seq<Reward>
    var points: int
    var shopTab: string
    var appliedVoucher: Option<Voucher>

    /** The balance the page starts with is never spent below zero. */
    ghost predicate Valid()
      reads this
    {
      points >= 0
    }

    constructor ()
      ensures Valid()
      ensures vouchers == MockVouchers && rewards == MockRewards && points == InitialPoints
      ensures shopTab == "Super Market" && appliedVoucher == None
    {
      vouchers := MockVouchers;
      rewards := MockRewards;
      points := InitialPoints;
      shopTab := "Super Market";
      appliedVoucher := None;
    }

    /** `handleApplyVoucher`: apply the voucher with that id if there is one. */
    method HandleApplyVoucher(voucherId: int)
      modifies this
      ensures appliedVoucher == match FindVoucher(old(vouchers), voucherId)
                                case Some(v) => Some(v)
                                case None => old(appliedVoucher)
      ensures vouchers == old(vouchers) && rewards == old(rewards) && points == old(points)
      ensures shopTab == old(shopTab)
    {
      var found := FindVoucher(vouchers, voucherId);
      if found.Some? {
        appliedVoucher := found;
      }
    }

    /** The X next to the applied voucher. */
    method RemoveAppliedVoucher()
      modifies this
      ensures appliedVoucher == None
      ensures vouchers == old(vouchers) && rewards == old(rewards) && points == old(points)
      ensures shopTab == old(shopTab)
    {
      appliedVoucher := None;
    }

    /** `handleClaimReward` */
    method HandleClaimReward(rewardId: int, pointsCost: int) returns (claimed: bool)
      requires Valid()
      modifies this
      ensures Valid()
      ensures (points, rewards, claimed) == Claim(old(points), old(rewards), rewardId, pointsCost)
      ensures vouchers == old(vouchers) && appliedVoucher == old(appliedVoucher)
      ensures shopTab == old(shopTab)
    {
      if points >= pointsCost {
        points := points - pointsCost;
        rewards := MarkClaimed(rewards, rewardId);
        claimed := true;
      } else {
        claimed := false;
      }
    }

    /** A shop tab button. */
    method SelectShopTab(name: string)
      modifies this
      ensures shopTab == name
      ensures vouchers == old(vouchers) && rewards == old(rewards) && points == old(points)
      ensures appliedVoucher == old(appliedVoucher)
    {
      shopTab := name;
    }
  }
}
