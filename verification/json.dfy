/** A decoded JSON document, as `JSON.parse` hands it to the parser, and
    Ruby's `Hash#dig` / `Array#dig` over it. */
module Json {
  import opened Wrappers

  /** JSON values. Floating-point numbers are not part of this model. */
  datatype Json =
    | JNull
    | JBool(b: bool)
    | JInt(n: int)
    | JStr(s: string)
    | JArr(items: seq<Json>)
    | JObj(fields: map<string, Json>)

  /** One argument of `dig`: a string key or a (non-negative) array index. */
  datatype Step = Key(key: string) | Index(index: nat)

  /** The ways a Ruby call on a decoded document can raise. */
  datatype Site = CouponInfoList | BundleCoupons

  datatype ParseError =
    | RootNotObject          // `doc['couponInfo']` on a document that is not a Hash
    | NotIterable(at: Site)  // `.each` on nil or on a scalar
    | ElementNotObject(at: Site) // `.dig` with a string key on an element that is not a Hash
    | DigTypeError           // `dig` stepped into a value that has no `#dig`

  /** `obj[key]` on a Hash, with JSON null and a missing key both read as nil (`JNull`). */
  function Member(j: Json, key: string): (r: Json)
    requires j.JObj?
  {
    if key in j.fields then j.fields[key] else JNull
  }

  /** What one step of `dig` does to the current value. */
  datatype Stepped = Nil | Value(v: Json) | NoDig

  function Child(j: Json, step: Step): (s: Stepped)
  {
    match j
    case JNull => Nil
    case JObj(m) =>
      (match step
       case Key(k) => if k in m then Value(m[k]) else Nil
       case Index(_) => Nil)   // JSON object keys are strings, so an integer key is never found
    case JArr(a) =>
      (match step
       case Index(i) => if i < |a| then Value(a[i]) else Nil
       case Key(_) => NoDig)   // `Array#dig` with a String raises TypeError
    case _ => NoDig            // String, Integer, true and false have no `#dig`
  }

  /** `j.dig(*path)`: `None` is Ruby's nil (a missing key, an index past the end,
      JSON null, or nil met part way), `Failure` is the TypeError `dig` raises. */
  function Dig(j: Json, path: seq<Step>): (r: Result<Option<Json>, ParseError>)
    decreases |path|
  {
    if |path| == 0 then Success(if j.JNull? then None else Some(j))
    else
      match Child(j, path[0])
      case Nil => Success(None)
      case NoDig => Failure(DigTypeError)
      case Value(c) => Dig(c, path[1..])
  }

  /** Digging never produces a JSON null: null reads as nil; and the only thing
      it can raise is the TypeError. */
  lemma {:induction false} DigResultShape(j: Json, path: seq<Step>)
    ensures Dig(j, path).Success? && Dig(j, path).value.Some? ==> !Dig(j, path).value.value.JNull?
    ensures Dig(j, path).Failure? ==> Dig(j, path).error == DigTypeError
    decreases |path|
  {
    if |path| > 0 {
      match Child(j, path[0])
      case Nil =>
      case NoDig =>
      case Value(c) => DigResultShape(c, path[1..]);
    }
  }

  /** `dig` composes: digging `p + q` is digging `p`, then digging `q` from
      what was found; nil and the TypeError both short-circuit. */
  lemma {:induction false} DigAppend(j: Json, p: seq<Step>, q: seq<Step>)
    ensures Dig(j, p + q) ==
      match Dig(j, p)
      case Failure(e) => Failure(e)
      case Success(None) => Success(None)
      case Success(Some(v)) => Dig(v, q)
    decreases |p|
  {
    if |p| == 0 {
      assert p + q == q;
      if j.JNull? && |q| > 0 {
        assert Child(j, q[0]) == Nil;
      }
    } else {
      assert (p + q)[0] == p[0];
      assert (p + q)[1..] == p[1..] + q;
      match Child(j, p[0])
      case Nil =>
      case NoDig =>
      case Value(c) => DigAppend(c, p[1..], q);
    }
  }

  /** Digging one step further: `j.dig(s, *rest)` is `rest` dug from `j`'s child at `s`. */
  lemma DigCons(j: Json, s: Step, rest: seq<Step>)
    ensures Dig(j, [s] + rest) ==
      match Child(j, s)
      case Nil => Success(None)
      case NoDig => Failure(DigTypeError)
      case Value(c) => Dig(c, rest)
  {
    assert ([s] + rest)[0] == s;
    assert ([s] + rest)[1..] == rest;
  }
}
