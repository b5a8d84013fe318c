/** When the coupon-info parser succeeds, said in terms of the document's
    shape rather than of the Ruby calls that may raise. */
module ParserProperties {
  import opened Wrappers
  import opened Json
  import opened CouponModel
  import opened Parser

  predicate IsObject(j: Json) { j.JObj? }

  /** `.each` walks `v` without raising in the block when `v` is an Array
      whose elements all satisfy `ok`, or an empty Hash. */
  predicate Iterable(v: Json, ok: Json -> bool) {
    || (v.JArr? && forall i :: 0 <= i < |v.items| ==> ok(v.items[i]))
    || v == JObj(map[])
  }

  /** `hdoInfo` is absent, null or a Hash (so index 0 reads nil), or an Array
      that is empty or starts with null or a Hash. */
  predicate FirstLineReachable(data: Json)
    requires data.JObj?
  {
    match Member(data, "hdoInfo")
    case JNull => true
    case JObj(_) => true
    case JArr(a) => |a| == 0 || a[0].JNull? || a[0].JObj?
    case _ => false
  }

  /** Moreover, when the first line is a Hash, its `coupon` is absent, null or
      a Hash, or an Array that is empty or starts with null or a Hash. */
  predicate InSimCouponReachable(data: Json)
    requires data.JObj?
  {
    && FirstLineReachable(data)
    && match Member(data, "hdoInfo")
       case JArr(a) =>
         (|a| > 0 && a[0].JObj? ==>
           match Member(a[0], "coupon")
           case JNull => true
           case JObj(_) => true
           case JArr(c) => |c| == 0 || c[0].JNull? || c[0].JObj?
           case _ => false)
       case _ => true
  }

  /** An account record the parser accepts. */
  predicate RecordOk(data: Json) {
    && data.JObj?
    && InSimCouponReachable(data)
    && Iterable(Member(data, "coupon"), IsObject)
  }

  /** A document the parser accepts. */
  predicate DocumentOk(doc: Json) {
    doc.JObj? && Iterable(Member(doc, "couponInfo"), RecordOk)
  }

  lemma LinePathDigs(data: Json, key: string)
    requires data.JObj?
    ensures Dig(data, LinePath(key)).Success? <==> FirstLineReachable(data)
  {
    assert LinePath(key) == [Key("hdoInfo")] + ([Index(0)] + [Key(key)]);
    DigCons(data, Key("hdoInfo"), [Index(0)] + [Key(key)]);
    var h := Member(data, "hdoInfo");
    DigCons(h, Index(0), [Key(key)]);
    if h.JArr? && |h.items| > 0 {
      DigCons(h.items[0], Key(key), []);
    }
  }

  lemma SimPathDigs(data: Json, key: string)
    requires data.JObj?
    ensures Dig(data, SimPath(key)).Success? <==> InSimCouponReachable(data)
  {
    var tail := [Key("coupon")] + ([Index(0)] + [Key(key)]);
    assert SimPath(key) == [Key("hdoInfo")] + ([Index(0)] + tail);
    DigCons(data, Key("hdoInfo"), [Index(0)] + tail);
    var h := Member(data, "hdoInfo");
    DigCons(h, Index(0), tail);
    if h.JArr? && |h.items| > 0 {
      var l := h.items[0];
      DigCons(l, Key("coupon"), [Index(0)] + [Key(key)]);
      if l.JObj? {
        var c := Member(l, "coupon");
        DigCons(c, Index(0), [Key(key)]);
        if c.JArr? && |c.items| > 0 {
          DigCons(c.items[0], Key(key), []);
        }
      }
    }
  }

  /** A single string-keyed `dig` on a Hash never raises. */
  lemma KeyDigOnObject(j: Json, key: string)
    requires j.JObj?
    ensures Dig(j, [Key(key)]).Success?
    ensures Dig(j, [Key(key)]).value == if Member(j, key).JNull? then None else Some(Member(j, key))
  {
    DigCons(j, Key(key), []);
    assert [Key(key)] + [] == [Key(key)];
  }

  lemma EachSucceeds<T>(v: Json, site: Site, f: Json -> Result<T, ParseError>, ok: Json -> bool)
    requires forall x :: f(x).Success? <==> ok(x)
    ensures Each(v, site, f).Success? <==> Iterable(v, ok)
  {
  }

  lemma BundleCouponParses(c: Json)
    ensures ParseBundleCoupon(c).Success? <==> c.JObj?
  {
    if c.JObj? {
      KeyDigOnObject(c, "volume");
      KeyDigOnObject(c, "expire");
      KeyDigOnObject(c, "typo");
    }
  }

  /** A record parses exactly when it has the shape `RecordOk` describes. */
  lemma RecordParsesIff(data: Json)
    ensures ParseRecord(data).Success? <==> RecordOk(data)
  {
    if data.JObj? {
      SimPathDigs(data, "volume");
      SimPathDigs(data, "expire");
      SimPathDigs(data, "type");
      LinePathDigs(data, "regulation");
      LinePathDigs(data, "couponUse");
      LinePathDigs(data, "iccid");
      LinePathDigs(data, "hdoServiceCode");
      LinePathDigs(data, "voice");
      LinePathDigs(data, "sms");
      LinePathDigs(data, "number");
      forall c ensures ParseBundleCoupon(c).Success? <==> IsObject(c) {
        BundleCouponParses(c);
      }
      EachSucceeds(Member(data, "coupon"), BundleCoupons, ParseBundleCoupon, IsObject);
      KeyDigOnObject(data, "hddServiceCode");
      KeyDigOnObject(data, "plan");
    }
  }

  /** The whole document parses exactly when it has the shape `DocumentOk` describes. */
  lemma DocumentParsesIff(doc: Json)
    ensures ParseCouponInfo(doc).Success? <==> DocumentOk(doc)
  {
    forall d ensures ParseRecord(d).Success? <==> RecordOk(d) {
      RecordParsesIff(d);
    }
    if doc.JObj? {
      EachSucceeds(Member(doc, "couponInfo"), CouponInfoList, ParseRecord, RecordOk);
    }
  }

  /** Once the first line is a Hash, its fields are the fields of that Hash. */
  lemma LinePathValue(data: Json, key: string)
    requires data.JObj?
    requires Member(data, "hdoInfo").JArr? && |Member(data, "hdoInfo").items| > 0
    requires Member(data, "hdoInfo").items[0].JObj?
    ensures Dig(data, LinePath(key)) == Dig(Member(data, "hdoInfo").items[0], [Key(key)])
  {
    assert LinePath(key) == [Key("hdoInfo")] + ([Index(0)] + [Key(key)]);
    DigCons(data, Key("hdoInfo"), [Index(0)] + [Key(key)]);
    DigCons(Member(data, "hdoInfo"), Index(0), [Key(key)]);
  }

  /** Once the in-SIM coupon is a Hash, its fields are the fields of that Hash. */
  lemma SimPathValue(data: Json, key: string)
    requires data.JObj?
    requires Member(data, "hdoInfo").JArr? && |Member(data, "hdoInfo").items| > 0
    requires Member(data, "hdoInfo").items[0].JObj?
    requires Member(Member(data, "hdoInfo").items[0], "coupon").JArr?
    requires |Member(Member(data, "hdoInfo").items[0], "coupon").items| > 0
    ensures Dig(data, SimPath(key)) == Dig(Member(Member(data, "hdoInfo").items[0], "coupon").items[0], [Key(key)])
  {
    var tail := [Key("coupon")] + ([Index(0)] + [Key(key)]);
    assert SimPath(key) == [Key("hdoInfo")] + ([Index(0)] + tail);
    DigCons(data, Key("hdoInfo"), [Index(0)] + tail);
    var h := Member(data, "hdoInfo");
    DigCons(h, Index(0), tail);
    DigCons(h.items[0], Key("coupon"), [Index(0)] + [Key(key)]);
    DigCons(Member(h.items[0], "coupon"), Index(0), [Key(key)]);
  }

  /** When a record has no first line (`data.dig('hdoInfo', 0)` is nil: `hdoInfo`
      absent, null, a Hash, empty, or starting with null), every line field and
      every in-SIM coupon field is nil, and the record still parses as long as
      its own `coupon` list does. */
  lemma NoLineLeavesFieldsUnset(data: Json)
    requires data.JObj?
    requires Dig(data, [Key("hdoInfo"), Index(0)]) == Success(None)
    ensures ParseRecord(data).Success? <==> Iterable(Member(data, "coupon"), IsObject)
    ensures ParseRecord(data).Success? ==>
      var line := ParseRecord(data).value.hdoInfo;
      && line.coupon == Coupon(None, None, None)
      && line.regulation.None? && line.couponUse.None? && line.iccid.None?
      && line.hdoServiceCode.None? && line.voice.None? && line.sms.None? && line.number.None?
  {
    NilFirstLineDigs(data, "volume");
    SimPathDigs(data, "volume");
    RecordParsesIff(data);
    if ParseRecord(data).Success? {
      ParsedRecordValue(data);
      NilFirstLineDigs(data, "expire");
      NilFirstLineDigs(data, "type");
      NilFirstLineDigs(data, "regulation");
      NilFirstLineDigs(data, "couponUse");
      NilFirstLineDigs(data, "iccid");
      NilFirstLineDigs(data, "hdoServiceCode");
      NilFirstLineDigs(data, "voice");
      NilFirstLineDigs(data, "sms");
      NilFirstLineDigs(data, "number");
    }
  }

  /** Below a nil first line, every line path and in-SIM path digs nil. */
  lemma NilFirstLineDigs(data: Json, key: string)
    requires Dig(data, [Key("hdoInfo"), Index(0)]) == Success(None)
    ensures Dig(data, LinePath(key)) == Success(None)
    ensures Dig(data, SimPath(key)) == Success(None)
  {
    var first := [Key("hdoInfo"), Index(0)];
    assert LinePath(key) == first + [Key(key)];
    DigAppend(data, first, [Key(key)]);
    assert SimPath(key) == first + [Key("coupon"), Index(0), Key(key)];
    DigAppend(data, first, [Key("coupon"), Index(0), Key(key)]);
  }

  /** When the first line has no in-SIM coupon (`data.dig('hdoInfo', 0, 'coupon', 0)`
      is nil: `coupon` absent, null, a Hash, empty, or starting with null), the
      parsed in-SIM coupon has every field nil. */
  lemma NoSimCouponLeavesItUnset(data: Json)
    requires ParseRecord(data).Success?
    requires Dig(data, [Key("hdoInfo"), Index(0), Key("coupon"), Index(0)]) == Success(None)
    ensures ParseRecord(data).value.hdoInfo.coupon == Coupon(None, None, None)
  {
    var prefix := [Key("hdoInfo"), Index(0), Key("coupon"), Index(0)];
    forall key ensures Dig(data, SimPath(key)) == Success(None) {
      assert SimPath(key) == prefix + [Key(key)];
      DigAppend(data, prefix, [Key(key)]);
    }
    ParsedRecordValue(data);
  }

  /** A missing in-SIM coupon does not make the record fail: it parses exactly
      when its own `coupon` list does. */
  lemma NoSimCouponKeepsParsing(data: Json)
    requires data.JObj?
    requires Dig(data, [Key("hdoInfo"), Index(0), Key("coupon"), Index(0)]) == Success(None)
    ensures ParseRecord(data).Success? <==> Iterable(Member(data, "coupon"), IsObject)
  {
    var prefix := [Key("hdoInfo"), Index(0), Key("coupon"), Index(0)];
    assert SimPath("volume") == prefix + [Key("volume")];
    DigAppend(data, prefix, [Key("volume")]);
    SimPathDigs(data, "volume");
    RecordParsesIff(data);
  }

  /** A parsed `couponInfo` Array gives one record per element, in order. */
  lemma ParsePreservesOrder(doc: Json)
    requires doc.JObj? && Member(doc, "couponInfo").JArr?
    ensures var a := Member(doc, "couponInfo").items;
      && (ParseCouponInfo(doc).Success? <==> forall i :: 0 <= i < |a| ==> RecordOk(a[i]))
      && (ParseCouponInfo(doc).Success? ==>
            && |ParseCouponInfo(doc).value| == |a|
            && forall i :: 0 <= i < |a| ==> ParseCouponInfo(doc).value[i] == ParseRecord(a[i]).value)
  {
    DocumentParsesIff(doc);
  }

  /** Which key each field of a parsed record is read from: the account fields
      from the record itself, the line fields from `hdoInfo[0]`, the in-SIM
      coupon from `hdoInfo[0].coupon[0]` (type under `type`), and one bundle
      coupon per element of the record's own `coupon` Array (type under `typo`). */
  lemma RecordFieldSources(data: Json)
    requires ParseRecord(data).Success?
    ensures data.JObj?
    ensures var r := ParseRecord(data).value;
      && r.hddServiceCode == Dig(data, [Key("hddServiceCode")]).value
      && r.plan == Dig(data, [Key("plan")]).value
      && r.hdoInfo.regulation == Dig(data, LinePath("regulation")).value
      && r.hdoInfo.couponUse == Dig(data, LinePath("couponUse")).value
      && r.hdoInfo.iccid == Dig(data, LinePath("iccid")).value
      && r.hdoInfo.hdoServiceCode == Dig(data, LinePath("hdoServiceCode")).value
      && r.hdoInfo.voice == Dig(data, LinePath("voice")).value
      && r.hdoInfo.sms == Dig(data, LinePath("sms")).value
      && r.hdoInfo.number == Dig(data, LinePath("number")).value
      && r.hdoInfo.coupon.volume == Dig(data, SimPath("volume")).value
      && r.hdoInfo.coupon.expire == Dig(data, SimPath("expire")).value
      && r.hdoInfo.coupon.couponType == Dig(data, SimPath("type")).value
    ensures var r := ParseRecord(data).value;
      var bundle := Member(data, "coupon");
      bundle.JArr? ==>
        && |r.coupon| == |bundle.items|
        && forall k :: 0 <= k < |bundle.items| ==>
             && bundle.items[k].JObj?
             && r.coupon[k].volume == Dig(bundle.items[k], [Key("volume")]).value
             && r.coupon[k].expire == Dig(bundle.items[k], [Key("expire")]).value
             && r.coupon[k].couponType == Dig(bundle.items[k], [Key("typo")]).value
    ensures Member(data, "coupon").JObj? ==> ParseRecord(data).value.coupon == []
  {
    ParsedRecordValue(data);
    var bundle := Member(data, "coupon");
    if bundle.JArr? {
      forall k | 0 <= k < |bundle.items|
        ensures bundle.items[k].JObj?
        ensures ParseBundleCoupon(bundle.items[k]).value == Coupon(
          Dig(bundle.items[k], [Key("volume")]).value,
          Dig(bundle.items[k], [Key("expire")]).value,
          Dig(bundle.items[k], [Key("typo")]).value)
      {
        BundleCouponValue(bundle.items[k]);
      }
    }
  }

  lemma ParsedRecordValue(data: Json)
    requires ParseRecord(data).Success?
    ensures data.JObj?
    ensures Each(Member(data, "coupon"), BundleCoupons, ParseBundleCoupon).Success?
    ensures ParseRecord(data).value == CouponInfo(
      Dig(data, [Key("hddServiceCode")]).value,
      HdoInfo(
        Dig(data, LinePath("regulation")).value,
        Dig(data, LinePath("couponUse")).value,
        Dig(data, LinePath("iccid")).value,
        Coupon(Dig(data, SimPath("volume")).value, Dig(data, SimPath("expire")).value, Dig(data, SimPath("type")).value),
        Dig(data, LinePath("hdoServiceCode")).value,
        Dig(data, LinePath("voice")).value,
        Dig(data, LinePath("sms")).value,
        Dig(data, LinePath("number")).value),
      Each(Member(data, "coupon"), BundleCoupons, ParseBundleCoupon).value,
      Dig(data, [Key("plan")]).value)
  {
  }

  lemma BundleCouponValue(c: Json)
    requires ParseBundleCoupon(c).Success?
    ensures c.JObj?
    ensures ParseBundleCoupon(c).value ==
      Coupon(Dig(c, [Key("volume")]).value, Dig(c, [Key("expire")]).value, Dig(c, [Key("typo")]).value)
  {
  }

  /** The two `nil.each` failures: a document whose `couponInfo` is absent or
      null fails at line 86, and one record whose own `coupon` is absent or
      null fails the whole parse at line 101, whatever the other records hold. */
  lemma NilEachFails(doc: Json)
    requires doc.JObj?
    ensures Member(doc, "couponInfo").JNull? ==>
      ParseCouponInfo(doc) == Failure(NotIterable(CouponInfoList))
    ensures var list := Member(doc, "couponInfo");
      (list.JArr? && exists i :: 0 <= i < |list.items| && list.items[i].JObj?
                                 && Member(list.items[i], "coupon").JNull?)
      ==> ParseCouponInfo(doc).Failure?
  {
    DocumentParsesIff(doc);
  }
}
