/**
 * The JWT helpers: the token lives in `localStorage` under `token`, and
 * `apiFetch` normalises the caller's headers into one record and, for an
 * authenticated call, adds `Authorization: Bearer <token>` (the bearer scheme
 * of section 2.1 of RFC 6750).  The network call itself is not modelled: the
 * method returns the arguments it would hand to `fetch`.
 */
module Auth {
  import opened Wrappers
  import opened Browser

  const TokenKey := "token"
  const AuthorizationHeader := "Authorization"

  /** `setToken`. */
  method SetToken(store: Storage, token: string)
    modifies store
    ensures store.items == Put(old(store.items), TokenKey, token)
  {
    store.SetItem(TokenKey, token);
  }

  /** `getToken`: the stored token, or `null`. */
  function GetToken(store: Storage): (t: Option<string>)
    reads store
    ensures t.Some? <==> TokenKey in store.items
    ensures t.Some? ==> t.value == store.items[TokenKey]
  {
    store.GetItem(TokenKey)
  }

  /** `removeToken`. */
  method RemoveToken(store: Storage)
    modifies store
    ensures store.items == Delete(old(store.items), TokenKey)
  {
    store.RemoveItem(TokenKey);
  }

  /** Reading the token back after storing it gives the stored token. */
  method SetThenGet(store: Storage, token: string) returns (t: Option<string>)
    modifies store
    ensures t == Some(token)
  {
    SetToken(store, token);
    t := GetToken(store);
  }

  /** Reading the token back after removing it gives `null`. */
  method RemoveThenGet(store: Storage) returns (t: Option<string>)
    modifies store
    ensures t == None
  {
    RemoveToken(store);
    t := GetToken(store);
  }

  // ---------------------------------------------------------------- headers

  /** The three shapes `RequestInit.headers` can take. */
  datatype HeadersInit =
    /** A `Headers` object, as the pairs its `forEach` visits. */
    | HeadersObject(entries: seq<(string, string)>)
    /** An array of `[key, value]` pairs. */
    | PairArray(pairs: seq<(string, string)>)
    /** A plain record. */
    | HeaderRecord(fields: map<string, string>)

  /** The options `apiFetch` receives: headers, the `auth` flag, and the rest of `RequestInit`. */
  datatype FetchOptions = FetchOptions(headers: Option<HeadersInit>, auth: bool, rest: map<string, string>)

  /**
   * The arguments `apiFetch` hands to `fetch`.  The spread `{ ...options, headers }`
   * also passes the `auth` flag on; `fetch` ignores that key.
   */
  datatype OutgoingRequest = OutgoingRequest(url: string, headers: map<string, string>, auth: bool, rest: map<string, string>)

  /** The record built by assigning each pair in turn: repeated names collapse to one entry. */
  function FromPairs(pairs: seq<(string, string)>): (record: map<string, string>)
    ensures |record| <= |pairs|
  {
    if pairs == [] then map[]
    else FromPairs(pairs[..|pairs| - 1])[pairs[|pairs| - 1].0 := pairs[|pairs| - 1].1]
  }

  /** Assigning pairs in turn: the keys are those of the pairs, and a later pair overwrites an earlier one. */
  lemma {:induction false} FromPairsLastWins(pairs: seq<(string, string)>, key: string)
    ensures key in FromPairs(pairs) <==> exists i :: 0 <= i < |pairs| && pairs[i].0 == key
    ensures forall i :: 0 <= i < |pairs| && pairs[i].0 == key
                        && (forall j :: i < j < |pairs| ==> pairs[j].0 != key)
                        ==> key in FromPairs(pairs) && FromPairs(pairs)[key] == pairs[i].1
  {
    if pairs != [] {
      var init := pairs[..|pairs| - 1];
      FromPairsLastWins(init, key);
      assert forall i :: 0 <= i < |init| ==> init[i] == pairs[i];
    }
  }

  /**
   * The header record `apiFetch` starts from: empty without headers, a plain
   * record as given, and the two pair shapes copied pair by pair alike.
   */
  function NormalisedHeaders(h: Option<HeadersInit>): (headers: map<string, string>)
    ensures h.None? ==> headers == map[]
    ensures h.Some? && h.value.HeaderRecord? ==> headers == h.value.fields
    ensures h.Some? && h.value.HeadersObject? ==> headers == FromPairs(h.value.entries)
    ensures h.Some? && h.value.PairArray? ==> headers == FromPairs(h.value.pairs)
  {
    match h
    case None => map[]
    case Some(HeadersObject(entries)) => FromPairs(entries)
    case Some(PairArray(pairs)) => FromPairs(pairs)
    case Some(HeaderRecord(fields)) => fields
  }

  /** The `forEach` loop that copies pairs into the record. */
  method CopyPairs(pairs: seq<(string, string)>) returns (headers: map<string, string>)
    ensures headers == FromPairs(pairs)
  {
    headers := map[];
    var i := 0;
    while i < |pairs|
      invariant 0 <= i <= |pairs|
      invariant headers == FromPairs(pairs[..i])
    {
      var (key, value) := pairs[i];
      assert pairs[..i + 1][..i] == pairs[..i];
      headers := headers[key := value];
      i := i + 1;
    }
    assert pairs[..i] == pairs;
  }

  /**
   * `apiFetch(url, options)`: the outgoing headers are the normalised input
   * headers, plus `Authorization: Bearer <token>` exactly when `auth` is set
   * and a non-empty token is stored.  The other options pass through.
   */
  method ApiFetch(url: string, options: FetchOptions, store: Storage) returns (request: OutgoingRequest)
    ensures request.url == url && request.auth == options.auth && request.rest == options.rest
    ensures var token := GetToken(store);
      if options.auth && token.Some? && token.value != "" then
        request.headers == NormalisedHeaders(options.headers)[AuthorizationHeader := "Bearer " + token.value]
      else
        request.headers == NormalisedHeaders(options.headers)
  {
    var headers: map<string, string> := map[];
    match options.headers {
      case None =>
      case Some(HeadersObject(entries)) =>
        headers := CopyPairs(entries);
      case Some(PairArray(pairs)) =>
        headers := CopyPairs(pairs);
      case Some(HeaderRecord(fields)) =>
        headers := fields;
    }
    if options.auth {
      var token := GetToken(store);
      if token.Some? && token.value != "" {
        headers := headers[AuthorizationHeader := "Bearer " + token.value];
      }
    }
    request := OutgoingRequest(url, headers, options.auth, options.rest);
  }

  /** With `auth`, the bearer header carries the stored token; every other header is the caller's. */
  lemma BearerInjected(h: Option<HeadersInit>, token: string, key: string)
    requires token != ""
    ensures var sent := NormalisedHeaders(h)[AuthorizationHeader := "Bearer " + token];
      && sent[AuthorizationHeader] == "Bearer " + token
      && (key != AuthorizationHeader ==> (key in sent <==> key in NormalisedHeaders(h)))
      && (key != AuthorizationHeader && key in sent ==> sent[key] == NormalisedHeaders(h)[key])
  {
  }
}
