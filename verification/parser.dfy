/** The body of `get_info`'s success branch: the decoded coupon-info document
    becomes a sequence of `CouponInfo` records (model/coupon_info.rb, lines 85-112). */
module Parser {
  import opened Wrappers
  import opened Json
  import opened CouponModel

  /** `data.dig('hdoInfo', 0, key)`: a field of the record's first line. */
  function LinePath(key: string): (path: seq<Step>) {
    [Key("hdoInfo"), Index(0), Key(key)]
  }

  /** `data.dig('hdoInfo', 0, 'coupon', 0, key)`: a field of the first line's in-SIM coupon. */
  function SimPath(key: string): (path: seq<Step>) {
    [Key("hdoInfo"), Index(0), Key("coupon"), Index(0), Key(key)]
  }

  /** Runs `f` over `xs` in order, stopping at the first element it raises on,
      the way an exception escapes a Ruby `.each` block. */
  function Traverse<T>(xs: seq<Json>, f: Json -> Result<T, ParseError>): (r: Result<seq<T>, ParseError>)
    ensures r.Success? <==> forall i :: 0 <= i < |xs| ==> f(xs[i]).Success?
    ensures r.Success? ==> |r.value| == |xs|
    ensures r.Success? ==> forall i :: 0 <= i < |xs| ==> r.value[i] == f(xs[i]).value
    ensures r.Failure? ==>
      exists i :: 0 <= i < |xs| && f(xs[i]).Failure? && r.error == f(xs[i]).error
                  && forall j :: 0 <= j < i ==> f(xs[j]).Success?
    decreases |xs|
  {
    if |xs| == 0 then Success([])
    else
      match f(xs[0])
      case Failure(e) => Failure(e)
      case Success(x) =>
        match Traverse(xs[1..], f)
        case Failure(e) =>
          assert forall j :: 1 <= j < |xs| ==> xs[j] == xs[1..][j - 1];
          Failure(e)
        case Success(rest) =>
          assert forall j :: 1 <= j < |xs| ==> xs[j] == xs[1..][j - 1];
          Success([x] + rest)
  }

  /** `v.each { |e| ... }`: an Array runs the block on each element; an empty
      Hash runs it on nothing; a non-empty Hash runs it on `[key, value]` pairs,
      on which the block's first string-keyed `dig` raises; nil and scalars have
      no `each`. */
  function Each<T>(v: Json, site: Site, f: Json -> Result<T, ParseError>): (r: Result<seq<T>, ParseError>)
    ensures r.Success? <==>
      (v.JArr? && forall i :: 0 <= i < |v.items| ==> f(v.items[i]).Success?) || v == JObj(map[])
    ensures r.Success? && v.JArr? ==>
      |r.value| == |v.items| && forall i :: 0 <= i < |v.items| ==> r.value[i] == f(v.items[i]).value
    ensures r.Success? && v.JObj? ==> r.value == []
    ensures !v.JArr? && !v.JObj? ==> r == Failure(NotIterable(site))
  {
    match v
    case JArr(a) => Traverse(a, f)
    case JObj(m) => if m == map[] then Success([]) else Failure(ElementNotObject(site))
    case _ => Failure(NotIterable(site))
  }

  /** One element of a record's own `coupon` array (lines 102-104): note that
      the type is read from the key `typo`. */
  function ParseBundleCoupon(c: Json): (r: Result<Coupon, ParseError>)
    ensures r.Success? <==> c.JObj?
  {
    // a single string-keyed `dig` on a Hash never raises
    if !c.JObj? then Failure(ElementNotObject(BundleCoupons))
    else Success(Coupon(Dig(c, [Key("volume")]).value, Dig(c, [Key("expire")]).value, Dig(c, [Key("typo")]).value))
  }

  /** One element of `couponInfo` (lines 88-110), in the source's order of evaluation. */
  function ParseRecord(data: Json): (r: Result<CouponInfo, ParseError>)
    ensures r.Success? ==> data.JObj?
    ensures r.Success? ==>
      |r.value.coupon| == if Member(data, "coupon").JArr? then |Member(data, "coupon").items| else 0
  {
    if !data.JObj? then Failure(ElementNotObject(CouponInfoList))
    else
      var volume :- Dig(data, SimPath("volume"));
      var expire :- Dig(data, SimPath("expire"));
      var couponType :- Dig(data, SimPath("type"));
      var simCoupon := Coupon(volume, expire, couponType);
      var regulation :- Dig(data, LinePath("regulation"));
      var couponUse :- Dig(data, LinePath("couponUse"));
      var iccid :- Dig(data, LinePath("iccid"));
      var hdoServiceCode :- Dig(data, LinePath("hdoServiceCode"));
      var voice :- Dig(data, LinePath("voice"));
      var sms :- Dig(data, LinePath("sms"));
      var number :- Dig(data, LinePath("number"));
      var line := HdoInfo(regulation, couponUse, iccid, simCoupon, hdoServiceCode, voice, sms, number);
      var coupons :- Each(Member(data, "coupon"), BundleCoupons, ParseBundleCoupon);
      var hddServiceCode :- Dig(data, [Key("hddServiceCode")]);
      var plan :- Dig(data, [Key("plan")]);
      Success(CouponInfo(hddServiceCode, line, coupons, plan))
  }

  /** `JSON.parse(response.content)['couponInfo'].each { ... }` (lines 85-112). */
  function ParseCouponInfo(doc: Json): (r: Result<seq<CouponInfo>, ParseError>)
    ensures !doc.JObj? ==> r == Failure(RootNotObject)
    ensures r.Success? && doc.JObj? && Member(doc, "couponInfo").JArr? ==>
      |r.value| == |Member(doc, "couponInfo").items|
  {
    if !doc.JObj? then Failure(RootNotObject)
    else Each(Member(doc, "couponInfo"), CouponInfoList, ParseRecord)
  }
}
