/**
 * `InvoiceAPI._get_user_from_key`: the API token is read from the request
 * headers and looked up among the active records of the `api.key` table.
 */
module ApiAuth {
  import opened Wrappers
  import opened Text

  /** Request headers; a header's name is matched exactly. */
  type Headers = map<string, string>

  /** A record of `api.key`. */
  datatype ApiKey = ApiKey(key: string, userId: nat, active: bool)

  const ApiKeyHeader := "X-API-KEY"
  const AuthorizationHeader := "Authorization"
  const BearerPrefix := "Bearer "

  /** `headers.get(name)`. */
  function Header(h: Headers, name: string): Option<string> {
    if name in h then Some(h[name]) else None
  }

  /** `headers.get('X-API-KEY') or headers.get('Authorization')`. */
  function RawToken(h: Headers): (r: Option<string>)
    ensures r == Header(h, AuthorizationHeader) || (r.Some? && r.value != "" && r == Header(h, ApiKeyHeader))
  {
    match Header(h, ApiKeyHeader)
    case Some(t) => if t != "" then Some(t) else Header(h, AuthorizationHeader)
    case None => Header(h, AuthorizationHeader)
  }

  /** `t.split(' ', 1)[1]`, for a text that holds a space. */
  function AfterFirstSpace(t: string): string
    requires ' ' in t
  {
    t[FirstIndex(t, ' ') + 1..]
  }

  /**
   * The token after the `Bearer ` rule: a token starting with `"Bearer "`
   * is replaced by the stripped text after its first space; an absent or
   * empty token is no token.
   */
  function Token(h: Headers): (r: Option<string>)
    ensures r.Some? ==> r.value != ""
    ensures RawToken(h).None? || RawToken(h) == Some("") ==> r.None?
  {
    match RawToken(h)
    case None => None
    case Some(t) =>
      var u := if StartsWith(t, BearerPrefix) then
                 assert t[6] == ' ';
                 Trim(AfterFirstSpace(t))
               else t;
      if u == "" then None else Some(u)
  }

  /** The key record matches `[('key', '=', token), ('active', '=', True)]`. */
  predicate Accepts(k: ApiKey, token: string) {
    k.key == token && k.active
  }

  /** `search(domain, limit=1)`: the position of the first accepting record. */
  function FirstAccepting(keys: seq<ApiKey>, token: string): (r: Option<nat>)
    ensures r.Some? ==> r.value < |keys| && Accepts(keys[r.value], token)
    ensures r.Some? ==> forall j :: 0 <= j < r.value ==> !Accepts(keys[j], token)
    ensures r.None? <==> forall j :: 0 <= j < |keys| ==> !Accepts(keys[j], token)
  {
    if keys == [] then None
    else if Accepts(keys[0], token) then Some(0)
    else match FirstAccepting(keys[1..], token)
      case None => None
      case Some(i) => Some(i + 1)
  }

  /**
   * `_get_user_from_key`: the user of the first active key equal to the
   * token; `None` exactly when there is no token or no such key.
   */
  function UserFromKey(h: Headers, keys: seq<ApiKey>): (r: Option<nat>)
    ensures r.Some? <==>
              (Token(h).Some? && exists i :: 0 <= i < |keys| && Accepts(keys[i], Token(h).value))
    ensures r.Some? ==>
              exists i :: 0 <= i < |keys| && Accepts(keys[i], Token(h).value) && keys[i].userId == r.value
  {
    match Token(h)
    case None => None
    case Some(t) =>
      match FirstAccepting(keys, t)
      case None => None
      case Some(i) => Some(keys[i].userId)
  }

  // ------------------------------------------------------------ properties

  /** A non-empty `X-API-KEY` wins: the `Authorization` header is then never read. */
  lemma ApiKeyHeaderWins(h: Headers, v: string)
    requires ApiKeyHeader in h && h[ApiKeyHeader] != ""
    ensures RawToken(h) == Some(h[ApiKeyHeader])
    ensures RawToken(h[AuthorizationHeader := v]) == RawToken(h)
  {
    var h2 := h[AuthorizationHeader := v];
    assert AuthorizationHeader != ApiKeyHeader by {
      assert |AuthorizationHeader| != |ApiKeyHeader|;
    }
    assert Header(h2, ApiKeyHeader) == Header(h, ApiKeyHeader);
  }

  /** With `X-API-KEY` absent or empty, the token is the `Authorization` header, if any. */
  lemma AuthorizationFallback(h: Headers)
    requires ApiKeyHeader !in h || h[ApiKeyHeader] == ""
    ensures RawToken(h) == Header(h, AuthorizationHeader)
  {
  }

  /** The text after `Bearer ` is what `split(' ', 1)[1]` yields. */
  lemma BearerRest(s: string)
    ensures ' ' in BearerPrefix + s
    ensures AfterFirstSpace(BearerPrefix + s) == s
  {
    var t := BearerPrefix + s;
    assert t[6] == ' ';
    assert ' ' !in t[..6] by {
      assert t[..6] == "Bearer";
    }
    FirstIndexIs(t, ' ', 6);
    assert t[7..] == s;
  }

  /** `"Bearer "` followed by nothing but whitespace is no token, so no user. */
  lemma BlankBearerIsNoToken(h: Headers, s: string, keys: seq<ApiKey>)
    requires RawToken(h) == Some(BearerPrefix + s) && AllSpace(s)
    ensures Token(h) == None && UserFromKey(h, keys) == None
  {
    var t := BearerPrefix + s;
    assert StartsWith(t, BearerPrefix) by {
      assert t[..|BearerPrefix|] == BearerPrefix;
    }
    BearerRest(s);
  }
  /** No header, or an empty one where the other is absent or empty, gives no token and so no user. */
  lemma AbsentOrEmptyIsNoUser(h: Headers, keys: seq<ApiKey>)
    requires RawToken(h).None? || RawToken(h) == Some("")
    ensures Token(h).None? && UserFromKey(h, keys).None?
  {
  }


  /** A bearer token is the stripped text after the prefix. */
  lemma BearerTokenStripped(h: Headers, s: string)
    requires RawToken(h) == Some(BearerPrefix + s) && !AllSpace(s)
    ensures Token(h) == Some(Trim(s))
  {
    var t := BearerPrefix + s;
    assert StartsWith(t, BearerPrefix) by {
      assert t[..|BearerPrefix|] == BearerPrefix;
    }
    BearerRest(s);
  }

  /** A non-empty token without the prefix is used verbatim, whitespace included. */
  lemma PlainTokenVerbatim(h: Headers, t: string)
    requires RawToken(h) == Some(t) && t != "" && !StartsWith(t, BearerPrefix)
    ensures Token(h) == Some(t)
  {
  }

  /** Only an active record can authenticate: a table of inactive records accepts no token. */
  lemma InactiveKeysNeverAuthenticate(h: Headers, keys: seq<ApiKey>)
    requires forall i :: 0 <= i < |keys| ==> !keys[i].active
    ensures UserFromKey(h, keys) == None
  {
  }

  /** The user found is that of the FIRST accepting record, whatever later records say. */
  lemma FirstKeyDecides(h: Headers, keys: seq<ApiKey>, more: seq<ApiKey>)
    requires UserFromKey(h, keys).Some?
    ensures UserFromKey(h, keys + more) == UserFromKey(h, keys)
  {
    FirstAcceptingAppend(keys, more, Token(h).value);
  }

  lemma {:induction false} FirstAcceptingAppend(keys: seq<ApiKey>, more: seq<ApiKey>, t: string)
    requires FirstAccepting(keys, t).Some?
    ensures FirstAccepting(keys + more, t) == FirstAccepting(keys, t)
  {
    assert (keys + more)[0] == keys[0];
    if !Accepts(keys[0], t) {
      assert (keys + more)[1..] == keys[1..] + more;
      FirstAcceptingAppend(keys[1..], more, t);
    }
  }
}
