/** The coupon form of the admin page: one draft coupon, submitted through the
    onCouponAdd callback (recorded as the sequence of coupons it was called with)
    and then cleared. */
module CouponManagement {
  import opened Shop

  /** The empty draft: no name, no code, a percentage of 0. */
  function InitialCoupon(): (c: Coupon)
    ensures c.name == "" && c.code == "" && c.discountType == Percentage && c.discountValue == 0.0
  {
    Coupon("", "", Percentage, 0.0)
  }

  class CouponDraft {
    var newCoupon: Coupon
    /** Every coupon passed to onCouponAdd, in call order. */
    var couponsSent: seq<Coupon>

    constructor ()
      ensures newCoupon == InitialCoupon() && couponsSent == []
    {
      newCoupon := InitialCoupon();
      couponsSent := [];
    }

    /** setNewCoupon: the draft is replaced as a whole. */
    method SetNewCoupon(coupon: Coupon)
      modifies this`newCoupon
      ensures newCoupon == coupon
    {
      newCoupon := coupon;
    }

    /** handleAddCoupon: sends exactly the current draft, then clears it. */
    method HandleAddCoupon()
      modifies this
      ensures couponsSent == old(couponsSent) + [old(newCoupon)]
      ensures newCoupon == InitialCoupon()
    {
      couponsSent := couponsSent + [newCoupon];
      newCoupon := Coupon("", "", Percentage, 0.0);
    }
  }

  /** The hook unit test: a draft set as a whole reads back as set, and
      submitting it sends it and clears the form. */
  method DraftScenario() returns (sent: seq<Coupon>)
    ensures sent == [Coupon("new coupon", "NEW10", Percentage, 10.0)]
  {
    var form := new CouponDraft();
    var c := Coupon("new coupon", "NEW10", Percentage, 10.0);
    form.SetNewCoupon(c);
    assert form.newCoupon == c;
    form.HandleAddCoupon();
    assert form.couponsSent == [c] && form.newCoupon == InitialCoupon();
    sent := form.couponsSent;
  }
}
