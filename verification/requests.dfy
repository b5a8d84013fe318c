/** What the three operations send: the configuration they read, the request
    headers, the authorization URL and the body of the coupon switch
    (model/coupon_info.rb, lines 31-38, 75-79, 124-129). */
module Requests {
  import opened Wrappers
  import opened Json

  /** The two configuration values the operations read: the developer id and
      the access token. Either may be unset (nil). */
  datatype Config = Config(developerId: Option<string>, accessToken: Option<string>)

  const CouponUrl: string := "https://api.iijmio.jp/mobile/d/v1/coupon/"
  const AuthorizationEndpoint: string := "https://api.iijmio.jp/mobile/d/v1/authorization/"
  const State: string := "mikutter_iij_coupon_checker"
  const RedirectUri: string := "http://localhost:8080/"

  datatype Header = Header(name: string, value: Option<string>)
  datatype Verb = Get | Put
  datatype Request = Request(verb: Verb, url: string, headers: seq<Header>, body: Option<Json>)

  /** The default headers of both API calls, read from the configuration. */
  function Headers(config: Config): (h: seq<Header>) {
    [ Header("Content-Type", Some("application/json")),
      Header("X-IIJmio-Developer", config.developerId),
      Header("X-IIJmio-Authorization", config.accessToken) ]
  }

  /** The value of the first header named `name`, if any. */
  function HeaderValue(headers: seq<Header>, name: string): (v: Option<Option<string>>)
    decreases |headers|
  {
    if |headers| == 0 then None
    else if headers[0].name == name then Some(headers[0].value)
    else HeaderValue(headers[1..], name)
  }

  /** Each header carries what it is named for: JSON content, the configured
      developer id, the configured access token (nil when unset). */
  lemma HeadersCarryConfig(config: Config)
    ensures |Headers(config)| == 3
    ensures HeaderValue(Headers(config), "Content-Type") == Some(Some("application/json"))
    ensures HeaderValue(Headers(config), "X-IIJmio-Developer") == Some(config.developerId)
    ensures HeaderValue(Headers(config), "X-IIJmio-Authorization") == Some(config.accessToken)
  {
    var h := Headers(config);
    assert HeaderValue(h[2..], "X-IIJmio-Authorization") == Some(config.accessToken);
    assert h[1..][1..] == h[2..];
  }

  // ---- query strings ----

  type Param = (string, string)

  /** `params.map { |k, v| "#{k}=#{v}" }.join('&')`: nothing is percent-encoded. */
  function JoinQuery(params: seq<Param>): (q: string)
    decreases |params|
  {
    if |params| == 0 then ""
    else if |params| == 1 then params[0].0 + "=" + params[0].1
    else params[0].0 + "=" + params[0].1 + "&" + JoinQuery(params[1..])
  }

  /** Splits `s` at every `&`; `current` is the segment read so far. */
  function SplitAmpFrom(s: string, current: string): (r: seq<string>)
    ensures |r| >= 1
    decreases |s|
  {
    if |s| == 0 then [current]
    else if s[0] == '&' then [current] + SplitAmpFrom(s[1..], "")
    else SplitAmpFrom(s[1..], current + [s[0]])
  }

  /** The first segment split off `s` extends the segment read so far. */
  lemma {:induction false} FirstSegment(s: string, current: string) returns (w: string)
    ensures SplitAmpFrom(s, current)[0] == current + w
    decreases |s|
  {
    if |s| == 0 || s[0] == '&' {
      w := "";
      assert current + w == current;
    } else {
      var w' := FirstSegment(s[1..], current + [s[0]]);
      w := [s[0]] + w';
      assert current + [s[0]] + w' == current + w;
    }
  }

  /** An `&`-free prefix only extends the segment being read. */
  lemma {:induction false} SplitAmpFromPrefix(p: string, r: string, current: string)
    requires '&' !in p
    ensures SplitAmpFrom(p + r, current) == SplitAmpFrom(r, current + p)
    decreases |p|
  {
    if |p| == 0 {
      assert p + r == r && current + p == current;
    } else {
      assert p[0] in p;
      assert (p + r)[0] == p[0] && (p + r)[1..] == p[1..] + r;
      assert '&' !in p[1..] by {
        forall k | 0 <= k < |p[1..]| ensures p[1..][k] != '&' {
          assert p[1..][k] == p[k + 1];
        }
      }
      SplitAmpFromPrefix(p[1..], r, current + [p[0]]);
      assert current + [p[0]] + p[1..] == current + p;
    }
  }

  /** Splits `s` at every `&`. */
  function SplitAmp(s: string): (r: seq<string>)
    ensures |r| >= 1
  {
    SplitAmpFrom(s, "")
  }

  /** The position of the first `c` in `s`. */
  function IndexOf(s: string, c: char): (i: nat)
    requires c in s
    ensures i < |s| && s[i] == c && c !in s[..i]
  {
    if s[0] == c then 0
    else
      var i := IndexOf(s[1..], c);
      assert s[..i + 1] == [s[0]] + s[1..][..i];
      i + 1
  }

  /** Splits one `key=value` segment at its first `=`; a segment without `=` has an empty value. */
  function SplitPair(seg: string): (p: Param) {
    if '=' !in seg then (seg, "")
    else
      var i := IndexOf(seg, '=');
      (seg[..i], seg[i + 1..])
  }

  /** Reads a query string back into its parameters, in order. */
  function SplitQuery(s: string): (ps: seq<Param>)
    ensures |ps| == |SplitAmp(s)|
  {
    var segs := SplitAmp(s);
    seq(|segs|, k requires 0 <= k < |segs| => SplitPair(segs[k]))
  }

  lemma {:induction false} SplitAmpFromAppend(x: string, y: string, current: string)
    ensures SplitAmpFrom(x + "&" + y, current) == SplitAmpFrom(x, current) + SplitAmp(y)
    decreases |x|
  {
    var s := x + "&" + y;
    if |x| == 0 {
      assert s[0] == '&' && s[1..] == y;
    } else {
      assert s[0] == x[0];
      assert s[1..] == x[1..] + "&" + y;
      if x[0] == '&' {
        SplitAmpFromAppend(x[1..], y, "");
      } else {
        SplitAmpFromAppend(x[1..], y, current + [x[0]]);
      }
    }
  }

  /** Splitting is compatible with joining at an `&`. */
  lemma SplitAmpAppend(x: string, y: string)
    ensures SplitAmp(x + "&" + y) == SplitAmp(x) + SplitAmp(y)
  {
    SplitAmpFromAppend(x, y, "");
  }

  lemma {:induction false} SplitAmpFromPlain(s: string, current: string)
    requires '&' !in s
    ensures SplitAmpFrom(s, current) == [current + s]
    decreases |s|
  {
    if |s| > 0 {
      assert s[0] in s;
      assert forall k :: 0 <= k < |s[1..]| ==> s[1..][k] == s[k + 1];
      SplitAmpFromPlain(s[1..], current + [s[0]]);
      assert current + [s[0]] + s[1..] == current + s;
    } else {
      assert current + s == current;
    }
  }

  /** A string without `&` is a single segment. */
  lemma SplitAmpPlain(s: string)
    requires '&' !in s
    ensures SplitAmp(s) == [s]
  {
    SplitAmpFromPlain(s, "");
    assert "" + s == s;
  }

  /** A string holding an `&` splits into at least two segments. */
  lemma {:induction false} SplitAmpSeveral(s: string, current: string)
    requires '&' in s
    ensures |SplitAmpFrom(s, current)| >= 2
    decreases |s|
  {
    if s[0] != '&' {
      assert '&' in s[1..] by {
        var k :| 0 <= k < |s| && s[k] == '&';
        assert s[1..][k - 1] == '&';
      }
      SplitAmpSeveral(s[1..], current + [s[0]]);
    }
  }

  lemma SplitPairJoin(key: string, value: string)
    requires '=' !in key
    ensures SplitPair(key + "=" + value) == (key, value)
  {
    var seg := key + "=" + value;
    assert seg[|key|] == '=';
    assert seg[..|key|] == key;
    var i := IndexOf(seg, '=');
    if i < |key| {
      assert false;
    }
    assert seg[i + 1..] == value;
  }

  /** Keys free of `&` and `=`, values free of `&`: the separators stay unambiguous. */
  predicate PlainParams(params: seq<Param>) {
    forall k :: 0 <= k < |params| ==>
      '&' !in params[k].0 && '=' !in params[k].0 && '&' !in params[k].1
  }

  lemma SplitQueryCons(seg: string, rest: string)
    requires '&' !in seg
    ensures SplitQuery(seg + "&" + rest) == [SplitPair(seg)] + SplitQuery(rest)
  {
    SplitAmpAppend(seg, rest);
    SplitAmpPlain(seg);
  }

  /** Joining plain parameters and reading them back gives the same parameters, in order. */
  lemma {:induction false} QueryRoundTrip(params: seq<Param>)
    requires |params| > 0 && PlainParams(params)
    ensures SplitQuery(JoinQuery(params)) == params
    decreases |params|
  {
    var seg := params[0].0 + "=" + params[0].1;
    assert '&' !in seg;
    SplitPairJoin(params[0].0, params[0].1);
    if |params| == 1 {
      SplitAmpPlain(seg);
    } else {
      var rest := params[1..];
      assert PlainParams(rest) by {
        forall k | 0 <= k < |rest| ensures '&' !in rest[k].0 && '=' !in rest[k].0 && '&' !in rest[k].1 {
          assert rest[k] == params[k + 1];
        }
      }
      QueryRoundTrip(rest);
      assert JoinQuery(params) == seg + "&" + JoinQuery(rest);
      SplitQueryCons(seg, JoinQuery(rest));
      assert params == [params[0]] + rest;
    }
  }

  // ---- authorization ----

  /** The authorization query's parameters, in the order of the source's Hash literal. */
  function AuthorizationParams(developerId: string): (ps: seq<Param>) {
    [("response_type", "token"), ("client_id", developerId), ("state", State), ("redirect_uri", RedirectUri)]
  }

  /** The query string of the authorization URL, one `key=value` per parameter. */
  lemma AuthorizationQueryText(developerId: string)
    ensures JoinQuery(AuthorizationParams(developerId)) ==
      "response_type" + "=" + "token" + "&" + "client_id" + "=" + developerId + "&"
      + "state" + "=" + State + "&" + "redirect_uri" + "=" + RedirectUri
  {
    var p := AuthorizationParams(developerId);
    var s0, s1, s2, s3 := p[0].0 + "=" + p[0].1, p[1].0 + "=" + p[1].1, p[2].0 + "=" + p[2].1, p[3].0 + "=" + p[3].1;
    assert p[2..][1..] == p[3..];
    assert p[1..][1..] == p[2..];
    assert JoinQuery(p[3..]) == s3;
    assert JoinQuery(p[2..]) == s2 + "&" + s3;
    assert JoinQuery(p[1..]) == s1 + "&" + (s2 + "&" + s3);
    assert JoinQuery(p) == s0 + "&" + (s1 + "&" + (s2 + "&" + s3));
  }

  /** The URL opened in the browser; the developer id is inserted verbatim. */
  function AuthorizationUrl(developerId: string): (url: string)
    ensures url == AuthorizationEndpoint + "?"
                   + "response_type" + "=" + "token" + "&" + "client_id" + "=" + developerId + "&"
                   + "state" + "=" + State + "&" + "redirect_uri" + "=" + RedirectUri
  {
    AuthorizationQueryText(developerId);
    AuthorizationEndpoint + "?" + JoinQuery(AuthorizationParams(developerId))
  }

  /** The query reads back as the four parameters when the id holds no `&`. */
  lemma AuthorizationQueryReadsBack(developerId: string)
    requires '&' !in developerId
    ensures SplitQuery(JoinQuery(AuthorizationParams(developerId))) == AuthorizationParams(developerId)
  {
    var p := AuthorizationParams(developerId);
    assert PlainParams(p) by {
      assert '&' !in "response_type" && '=' !in "response_type" && '&' !in "token";
      assert '&' !in "client_id" && '=' !in "client_id";
      assert '&' !in "state" && '=' !in "state" && '&' !in State;
      assert '&' !in "redirect_uri" && '=' !in "redirect_uri" && '&' !in RedirectUri;
    }
    QueryRoundTrip(p);
  }

  /** The id is not escaped: an id holding `&` splits the query into more than
      the four parameters it was built from. */
  lemma AmpersandInIdAddsParameters(developerId: string)
    requires '&' in developerId
    ensures |SplitQuery(JoinQuery(AuthorizationParams(developerId)))| > 4
  {
    var p := AuthorizationParams(developerId);
    var s0, s1, s2, s3 := p[0].0 + "=" + p[0].1, p[1].0 + "=" + p[1].1, p[2].0 + "=" + p[2].1, p[3].0 + "=" + p[3].1;
    assert p[2..][1..] == p[3..];
    assert p[1..][1..] == p[2..];
    assert JoinQuery(p[3..]) == s3;
    assert JoinQuery(p[2..]) == s2 + "&" + s3;
    assert JoinQuery(p[1..]) == s1 + "&" + (s2 + "&" + s3);
    assert JoinQuery(p) == s0 + "&" + (s1 + "&" + (s2 + "&" + s3));
    SplitAmpAppend(s0, s1 + "&" + (s2 + "&" + s3));
    SplitAmpAppend(s1, s2 + "&" + s3);
    SplitAmpAppend(s2, s3);
    assert '&' in s1 by {
      var k :| 0 <= k < |developerId| && developerId[k] == '&';
      assert s1[|p[1].0| + 1 + k] == '&';
    }
    SplitAmpSeveral(s1, "");
  }

  // ---- coupon switch ----

  /** The PUT body of `switch`: one record holding one line. Read with `dig`,
      it names exactly one line of one record, with the given service code and
      coupon flag and nothing else. */
  function SwitchBody(hdo: string, isValid: bool): (body: Json)
    ensures body.JObj? && body.fields.Keys == {"couponInfo"}
    ensures body.fields["couponInfo"].JArr? && |body.fields["couponInfo"].items| == 1
    ensures body.fields["couponInfo"].items[0].JObj?
    ensures body.fields["couponInfo"].items[0].fields.Keys == {"hdoInfo"}
    ensures body.fields["couponInfo"].items[0].fields["hdoInfo"].JArr?
    ensures |body.fields["couponInfo"].items[0].fields["hdoInfo"].items| == 1
    ensures body.fields["couponInfo"].items[0].fields["hdoInfo"].items[0].JObj?
    ensures body.fields["couponInfo"].items[0].fields["hdoInfo"].items[0].fields.Keys == {"hdoServiceCode", "couponUse"}
    ensures Dig(body, [Key("couponInfo"), Index(0), Key("hdoInfo"), Index(0), Key("hdoServiceCode")]) == Success(Some(JStr(hdo)))
    ensures Dig(body, [Key("couponInfo"), Index(0), Key("hdoInfo"), Index(0), Key("couponUse")]) == Success(Some(JBool(isValid)))
  {
    JObj(map["couponInfo" := JArr([
      JObj(map["hdoInfo" := JArr([
        JObj(map["hdoServiceCode" := JStr(hdo), "couponUse" := JBool(isValid)])])])])])
  }
}
