/** The domain records built by the coupon-info parser: `Coupon`, `HDOInfo`
    and `CouponInfo`. Every leaf is kept as the raw JSON value that was dug out
    (`None` when Ruby would hold nil), because the field typing the host
    framework applies to them is not part of this model. */
module CouponModel {
  import opened Wrappers
  import opened Json

  type Field = Option<Json>

  /** A data coupon: its volume, its expiry and its type. */
  datatype Coupon = Coupon(volume: Field, expire: Field, couponType: Field)

  /** One line (HDO) of an account: its settings and its in-SIM coupon. */
  datatype HdoInfo = HdoInfo(
    regulation: Field,
    couponUse: Field,
    iccid: Field,
    coupon: Coupon,
    hdoServiceCode: Field,
    voice: Field,
    sms: Field,
    number: Field)

  /** One account (HDD): its line, its bundled or purchased coupons, its plan. */
  datatype CouponInfo = CouponInfo(
    hddServiceCode: Field,
    hdoInfo: HdoInfo,
    coupon: seq<Coupon>,
    plan: Field)

  /** A field as `dig` can leave it: nil, or a value that is not JSON null. */
  predicate FieldOk(f: Field) {
    f.None? || !f.value.JNull?
  }

  predicate CouponOk(c: Coupon) {
    FieldOk(c.volume) && FieldOk(c.expire) && FieldOk(c.couponType)
  }

  predicate HdoInfoOk(h: HdoInfo) {
    && FieldOk(h.regulation) && FieldOk(h.couponUse) && FieldOk(h.iccid)
    && CouponOk(h.coupon)
    && FieldOk(h.hdoServiceCode) && FieldOk(h.voice) && FieldOk(h.sms) && FieldOk(h.number)
  }

  /** A record every field of which could have been produced by `dig`. */
  predicate CouponInfoOk(ci: CouponInfo) {
    && FieldOk(ci.hddServiceCode)
    && HdoInfoOk(ci.hdoInfo)
    && (forall k :: 0 <= k < |ci.coupon| ==> CouponOk(ci.coupon[k]))
    && FieldOk(ci.plan)
  }
}
