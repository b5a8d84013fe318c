/** The request handler the OAuth listener mounts on `/` (model/coupon_info.rb,
    lines 49-58): what status it answers with and which access token, if any,
    it stores. Two versions: the handler as written, and the handler its
    surrounding code evidently intends. */
module Redirect {
  import opened Wrappers
  import opened Requests

  /** An inbound request: its path and its parsed query (`req.query`). */
  datatype RedirectRequest = RedirectRequest(path: string, query: Option<map<string, string>>)

  /** `Served(status, stored)`: answered with `status`, writing `stored` (when
      present) as the access token. `Raised`: the handler raised. */
  datatype RedirectOutcome = Served(status: int, stored: Option<string>) | Raised

  /** `s.include?(t)`. */
  predicate Contains(s: string, t: string)
    decreases |s|
  {
    |t| <= |s| && (s[..|t|] == t || Contains(s[1..], t))
  }

  /** The handler as written. Line 53 compares the status with 451 and discards
      the result, so the status stays 200. Line 55 enters only when the query is
      present and EMPTY; there `req.query['access_token']` is nil and line 57's
      `nil.empty?` raises. */
  function HandleAsWritten(req: RedirectRequest): (o: RedirectOutcome)
    ensures o.Served? ==> o == Served(200, None)
    ensures o.Raised? <==> req.query == Some(map[])
  {
    match req.query
    case Some(q) => if q == map[] then Raised else Served(200, None)
    case None => Served(200, None)
  }

  /** The handler as evidently intended: a favicon probe is refused with 451,
      and a non-empty `access_token` in the query is stored. */
  function HandleRedirect(req: RedirectRequest): (o: RedirectOutcome)
    ensures o.Served?
    ensures o.status == 451 <==> Contains(req.path, "favicon.ico")
    ensures o.stored.Some? <==>
      req.query.Some? && "access_token" in req.query.value && req.query.value["access_token"] != ""
    ensures o.stored.Some? ==> o.stored.value == req.query.value["access_token"]
  {
    var status := if Contains(req.path, "favicon.ico") then 451 else 200;
    match req.query
    case Some(q) =>
      if "access_token" in q && q["access_token"] != "" then Served(status, Some(q["access_token"]))
      else Served(status, None)
    case None => Served(status, None)
  }

  /** The query Hash WEBrick builds from a query string's parameters: the
      first value given for a key is the one kept. */
  function QueryMap(params: seq<Param>): (m: map<string, string>)
    ensures forall k :: 0 <= k < |params| ==> params[k].0 in m
    decreases |params|
  {
    if |params| == 0 then map[]
    else
      var earlier := QueryMap(params[..|params| - 1]);
      var last := params[|params| - 1];
      assert forall k :: 0 <= k < |params| - 1 ==> params[..|params| - 1][k] == params[k];
      if last.0 in earlier then earlier else earlier[last.0 := last.1]
  }

  /** The request the browser makes when redirected back with `token`. */
  function TokenRedirect(token: string): (req: RedirectRequest) {
    RedirectRequest("/", Some(QueryMap(SplitQuery("access_token=" + token))))
  }

  /** As written, no request ever gets a token stored: not even the redirect
      that carries one. */
  lemma AsWrittenNeverStoresToken(req: RedirectRequest, token: string)
    ensures HandleAsWritten(req).Served? ==> HandleAsWritten(req).stored.None?
    ensures HandleAsWritten(TokenRedirect(token)) == Served(200, None)
  {
    var s := "access_token=" + token;
    SplitAmpFromPrefix("access_token=", token, "");
    assert "" + "access_token=" == "access_token=";
    var w := FirstSegment(token, "access_token=");
    assert SplitAmp(s)[0] == "access_token" + "=" + w;
    SplitPairJoin("access_token", w);
    assert SplitQuery(s)[0].0 == "access_token";
    assert "access_token" in TokenRedirect(token).query.value;
  }

  /** As written, a favicon probe is answered with 200 (or the handler raises),
      never with 451. */
  lemma AsWrittenNeverRefusesFavicon(req: RedirectRequest)
    ensures HandleAsWritten(req).Served? ==> HandleAsWritten(req).status == 200
    ensures HandleAsWritten(RedirectRequest("/favicon.ico", Some(map[]))) == Raised
    ensures HandleAsWritten(RedirectRequest("/favicon.ico", Some(map["v" := "1"]))) == Served(200, None)
  {
    assert "v" in map["v" := "1"];
  }

  /** The redirect's query reads back as the one parameter `access_token`.
      The token must hold none of the characters WEBrick's `parse_query`
      splits on (`&`, `;`) or unescapes (`%`, `+`). */
  lemma TokenRedirectQuery(token: string)
    requires '&' !in token && ';' !in token && '%' !in token && '+' !in token
    ensures TokenRedirect(token).query == Some(map["access_token" := token])
  {
    var s := "access_token" + "=" + token;
    assert "access_token=" + token == s;
    assert '&' !in s;
    SplitAmpPlain(s);
    SplitPairJoin("access_token", token);
    var params := SplitQuery(s);
    assert params == [("access_token", token)];
    assert params[..0] == [];
    assert QueryMap(params) == map["access_token" := token];
    assert TokenRedirect(token).query == Some(QueryMap(params));
  }

  /** The intended handler stores exactly the token the redirect carries, and
      ignores a redirect whose token is empty. */
  lemma CapturesRedirectToken(token: string)
    requires '&' !in token && ';' !in token && '%' !in token && '+' !in token
    ensures token != "" ==> HandleRedirect(TokenRedirect(token)) == Served(200, Some(token))
    ensures token == "" ==> HandleRedirect(TokenRedirect(token)) == Served(200, None)
  {
    TokenRedirectQuery(token);
  }

  /** A string holding `t` anywhere contains it. */
  lemma {:induction false} ContainsInfix(prefix: string, t: string, suffix: string)
    ensures Contains(prefix + t + suffix, t)
    decreases |prefix|
  {
    var s := prefix + t + suffix;
    if |prefix| == 0 {
      assert s[..|t|] == t;
    } else {
      assert s[1..] == prefix[1..] + t + suffix;
      ContainsInfix(prefix[1..], t, suffix);
    }
  }

  /** The intended handler refuses every favicon probe, whatever surrounds
      `favicon.ico` in the path, and still reads the query for a token. */
  lemma RefusesFavicon(prefix: string, suffix: string, query: Option<map<string, string>>)
    ensures HandleRedirect(RedirectRequest(prefix + "favicon.ico" + suffix, query)).status == 451
    ensures HandleRedirect(RedirectRequest("/favicon.ico", Some(map[]))) == Served(451, None)
  {
    ContainsInfix(prefix, "favicon.ico", suffix);
    ContainsInfix("/", "favicon.ico", "");
    assert "/" + "favicon.ico" + "" == "/favicon.ico";
  }
}
