/** The coupon-info document the API sends for given records, laid out the way
    the parser reads it: the records under `couponInfo`, one line under
    `hdoInfo`, that line's in-SIM coupon under `coupon` with its type under
    `type`, and the bundle coupons under the record's own `coupon` with their
    type under `typo`. Unset fields are left out. Parsing this document gives
    the records back, which pins down every key the parser reads. */
module ResponseDocument {
  import opened Wrappers
  import opened Json
  import opened CouponModel
  import opened Parser
  import opened ParserProperties

  type Entry = (string, Field)

  /** The members of an object holding the set fields among `entries`. */
  function ObjectOf(entries: seq<Entry>): (m: map<string, Json>)
    decreases |entries|
  {
    if |entries| == 0 then map[]
    else
      var last := entries[|entries| - 1];
      var m := ObjectOf(entries[..|entries| - 1]);
      if last.1.Some? then m[last.0 := last.1.value] else m
  }

  predicate DistinctKeys(entries: seq<Entry>) {
    forall a, b :: 0 <= a < b < |entries| ==> entries[a].0 != entries[b].0
  }

  /** With distinct keys, each entry's field is what the object holds under its key. */
  lemma {:induction false} ObjectOfLookup(entries: seq<Entry>, i: nat)
    requires DistinctKeys(entries) && i < |entries|
    ensures entries[i].1.Some? ==>
      entries[i].0 in ObjectOf(entries) && ObjectOf(entries)[entries[i].0] == entries[i].1.value
    ensures entries[i].1.None? ==> entries[i].0 !in ObjectOf(entries)
    decreases |entries|
  {
    var n := |entries| - 1;
    if i < n {
      var prefix := entries[..n];
      assert prefix[i] == entries[i];
      ObjectOfLookup(prefix, i);
    } else if entries[i].1.None? && entries[i].0 in ObjectOf(entries[..n]) {
      // an earlier entry would share the last entry's key
      var j := KeyFromEntry(entries[..n], entries[i].0);
      assert false;
    }
  }

  /** Every key of the object comes from some entry. */
  lemma {:induction false} KeyFromEntry(entries: seq<Entry>, key: string) returns (j: nat)
    requires key in ObjectOf(entries)
    ensures j < |entries| && entries[j].0 == key
    decreases |entries|
  {
    var n := |entries| - 1;
    if entries[n].1.Some? && entries[n].0 == key {
      j := n;
    } else {
      j := KeyFromEntry(entries[..n], key);
    }
  }

  /** A single-key `dig` on the object finds exactly the entry's field. */
  lemma DigEntry(entries: seq<Entry>, i: nat)
    requires DistinctKeys(entries) && i < |entries| && FieldOk(entries[i].1)
    ensures Dig(JObj(ObjectOf(entries)), [Key(entries[i].0)]) == Success(entries[i].1)
  {
    ObjectOfLookup(entries, i);
    KeyDigOnObject(JObj(ObjectOf(entries)), entries[i].0);
  }

  function CouponEntries(c: Coupon, typeKey: string): (es: seq<Entry>) {
    [("volume", c.volume), ("expire", c.expire), (typeKey, c.couponType)]
  }

  function LineEntries(h: HdoInfo): (es: seq<Entry>) {
    [ ("regulation", h.regulation), ("couponUse", h.couponUse), ("iccid", h.iccid),
      ("hdoServiceCode", h.hdoServiceCode), ("voice", h.voice), ("sms", h.sms),
      ("number", h.number), ("coupon", Some(JArr([JObj(ObjectOf(CouponEntries(h.coupon, "type")))]))) ]
  }

  function BundleObjects(cs: seq<Coupon>): (objs: seq<Json>) {
    seq(|cs|, k requires 0 <= k < |cs| => JObj(ObjectOf(CouponEntries(cs[k], "typo"))))
  }

  function RecordEntries(ci: CouponInfo): (es: seq<Entry>) {
    [ ("hddServiceCode", ci.hddServiceCode),
      ("hdoInfo", Some(JArr([JObj(ObjectOf(LineEntries(ci.hdoInfo)))]))),
      ("coupon", Some(JArr(BundleObjects(ci.coupon)))),
      ("plan", ci.plan) ]
  }

  /** The response document for `infos`. */
  function Document(infos: seq<CouponInfo>): (doc: Json) {
    JObj(map["couponInfo" := JArr(seq(|infos|, i requires 0 <= i < |infos| => JObj(ObjectOf(RecordEntries(infos[i])))))])
  }

  lemma CouponRoundTrip(c: Coupon, typeKey: string)
    requires CouponOk(c)
    requires typeKey != "volume" && typeKey != "expire"
    ensures ParseBundleCoupon(JObj(ObjectOf(CouponEntries(c, "typo")))) == Success(c)
    ensures var o := JObj(ObjectOf(CouponEntries(c, typeKey)));
      && Dig(o, [Key("volume")]) == Success(c.volume)
      && Dig(o, [Key("expire")]) == Success(c.expire)
      && Dig(o, [Key(typeKey)]) == Success(c.couponType)
  {
    DigEntry(CouponEntries(c, typeKey), 0);
    DigEntry(CouponEntries(c, typeKey), 1);
    DigEntry(CouponEntries(c, typeKey), 2);
    DigEntry(CouponEntries(c, "typo"), 0);
    DigEntry(CouponEntries(c, "typo"), 1);
    DigEntry(CouponEntries(c, "typo"), 2);
  }

  lemma LineRoundTrip(h: HdoInfo)
    requires HdoInfoOk(h)
    ensures var line := JObj(ObjectOf(LineEntries(h)));
      && Member(line, "coupon") == JArr([JObj(ObjectOf(CouponEntries(h.coupon, "type")))])
      && Dig(line, [Key("regulation")]) == Success(h.regulation)
      && Dig(line, [Key("couponUse")]) == Success(h.couponUse)
      && Dig(line, [Key("iccid")]) == Success(h.iccid)
      && Dig(line, [Key("hdoServiceCode")]) == Success(h.hdoServiceCode)
      && Dig(line, [Key("voice")]) == Success(h.voice)
      && Dig(line, [Key("sms")]) == Success(h.sms)
      && Dig(line, [Key("number")]) == Success(h.number)
  {
    var e := LineEntries(h);
    assert DistinctKeys(e);
    DigEntry(e, 0);
    DigEntry(e, 1);
    DigEntry(e, 2);
    DigEntry(e, 3);
    DigEntry(e, 4);
    DigEntry(e, 5);
    DigEntry(e, 6);
    ObjectOfLookup(e, 7);
  }

  /** Every path the parser digs in a rendered record finds the matching field. */
  lemma RecordPathsRoundTrip(ci: CouponInfo)
    requires CouponInfoOk(ci)
    ensures var data := JObj(ObjectOf(RecordEntries(ci))); var h := ci.hdoInfo;
      && Dig(data, SimPath("volume")) == Success(h.coupon.volume)
      && Dig(data, SimPath("expire")) == Success(h.coupon.expire)
      && Dig(data, SimPath("type")) == Success(h.coupon.couponType)
      && Dig(data, LinePath("regulation")) == Success(h.regulation)
      && Dig(data, LinePath("couponUse")) == Success(h.couponUse)
      && Dig(data, LinePath("iccid")) == Success(h.iccid)
      && Dig(data, LinePath("hdoServiceCode")) == Success(h.hdoServiceCode)
      && Dig(data, LinePath("voice")) == Success(h.voice)
      && Dig(data, LinePath("sms")) == Success(h.sms)
      && Dig(data, LinePath("number")) == Success(h.number)
      && Dig(data, [Key("hddServiceCode")]) == Success(ci.hddServiceCode)
      && Dig(data, [Key("plan")]) == Success(ci.plan)
      && Member(data, "coupon") == JArr(BundleObjects(ci.coupon))
  {
    var e := RecordEntries(ci);
    var data := JObj(ObjectOf(e));
    assert DistinctKeys(e);
    ObjectOfLookup(e, 1);
    ObjectOfLookup(e, 2);
    DigEntry(e, 0);
    DigEntry(e, 3);
    LineRoundTrip(ci.hdoInfo);
    CouponRoundTrip(ci.hdoInfo.coupon, "type");
    SimPathValue(data, "volume");
    SimPathValue(data, "expire");
    SimPathValue(data, "type");
    LinePathValue(data, "regulation");
    LinePathValue(data, "couponUse");
    LinePathValue(data, "iccid");
    LinePathValue(data, "hdoServiceCode");
    LinePathValue(data, "voice");
    LinePathValue(data, "sms");
    LinePathValue(data, "number");
  }

  lemma BundleRoundTrip(cs: seq<Coupon>)
    requires forall k :: 0 <= k < |cs| ==> CouponOk(cs[k])
    ensures Each(JArr(BundleObjects(cs)), BundleCoupons, ParseBundleCoupon) == Success(cs)
  {
    var bundle := BundleObjects(cs);
    forall k | 0 <= k < |bundle| ensures ParseBundleCoupon(bundle[k]) == Success(cs[k]) {
      CouponRoundTrip(cs[k], "typo");
    }
    var parsed := Traverse(bundle, ParseBundleCoupon);
    assert parsed.Success? && parsed.value == cs;
  }

  lemma RecordRoundTrip(ci: CouponInfo)
    requires CouponInfoOk(ci)
    ensures ParseRecord(JObj(ObjectOf(RecordEntries(ci)))) == Success(ci)
  {
    RecordPathsRoundTrip(ci);
    BundleRoundTrip(ci.coupon);
  }

  /** Parsing the document for `infos` gives `infos` back. */
  lemma ParseDocumentRoundTrip(infos: seq<CouponInfo>)
    requires forall i :: 0 <= i < |infos| ==> CouponInfoOk(infos[i])
    ensures ParseCouponInfo(Document(infos)) == Success(infos)
  {
    var items := Member(Document(infos), "couponInfo").items;
    forall i | 0 <= i < |infos| ensures ParseRecord(items[i]) == Success(infos[i]) {
      RecordRoundTrip(infos[i]);
    }
    var parsed := Traverse(items, ParseRecord);
    assert parsed.Success? && parsed.value == infos;
  }
}
