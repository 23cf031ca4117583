/**
 * The token helpers of the Python back end, over the Flask session seen as a
 * map from keys to JSON values. Reads are functions of the map; the helpers
 * that write or pop session keys are methods of `Session`, each proved
 * against the map-level function beside it.
 */
module Auth {

  import opened Json

  /** The claims stored when no user information accompanies the token. */
  const DefaultClaims: Json :=
    JObj(map["name" := JStr("Authenticated User"), "preferred_username" := JStr("user@example.com")])

  /** The keys `clear_token_cache` pops, in the order it pops them. */
  const AuthKeys: seq<string> := ["access_token", "id_token_claims", "auth_error"]

  /** `get_auth_url`: the manual token-entry page. */
  function AuthUrl(): string {
    "/token-entry"
  }

  /** The session only ever holds a token as text, the form field it came from. */
  predicate TokenIsText(m: map<string, Json>) {
    "access_token" in m ==> m["access_token"].JStr?
  }

  /** `set_access_token` on session `m`: the new session and the returned flag. */
  function Stored(m: map<string, Json>, token: Option<string>, userInfo: Json): (map<string, Json>, bool) {
    if token.None? || token.value == [] then (m, false)
    else
      var claims := if PyTruthy(userInfo) then userInfo else DefaultClaims;
      (m["access_token" := JStr(token.value)]["id_token_claims" := claims], true)
  }

  /** `get_token`: the token wrapped in a one-key dict, or None. */
  function TokenOf(m: map<string, Json>): (r: Option<Json>)
    ensures r.Some? <==> "access_token" in m
    ensures r.Some? ==> r.value == JObj(map["access_token" := m["access_token"]])
  {
    if "access_token" in m then Some(JObj(map["access_token" := m["access_token"]])) else None
  }

  /** `get_auth_header`: the bearer header for the stored token, or None. */
  function HeaderOf(m: map<string, Json>): (r: Option<string>)
    requires TokenIsText(m)
    ensures r.Some? <==> "access_token" in m
    ensures r.Some? ==> r.value == "Bearer " + m["access_token"].s
  {
    match TokenOf(m)
    case None => None
    case Some(token) =>
      // A one-key dict is truthy and holds its key, so the guard always passes.
      assert PyTruthy(token) && PyIn("access_token", token) == Some(true);
      Some("Bearer " + token.fields["access_token"].s)
  }

  /**
   * `handle_auth_error`: None when `result` is falsy or lacks "error"; the
   * error record otherwise. `in` raises on a truthy non-container, and
   * `.get` raises on a list or string that passes the `in` test.
   */
  function AuthErrorOf(result: Json): Py<Option<Json>> {
    if !PyTruthy(result) then Ok(None)
    else match PyIn("error", result)
      case None => Raise
      case Some(has) =>
        if !has then Ok(None)
        else if !result.JObj? then Raise
        else
          var fields := result.fields;
          Ok(Some(JObj(map[
            "error" := PyGet(fields, "error", JStr("")),
            "error_description" := PyGet(fields, "error_description", JStr(""))])))
  }

  /** `clear_token_cache` on session `m`. */
  function Cleared(m: map<string, Json>): map<string, Json> {
    m - {"access_token", "id_token_claims", "auth_error"}
  }

  /** A None or empty token is refused and the session is left as it was. */
  lemma EmptyTokenIsRefused(m: map<string, Json>, token: Option<string>, userInfo: Json)
    requires token.None? || token == Some("")
    ensures Stored(m, token, userInfo) == (m, false)
  {
  }

  /** After a non-empty token is set it is what `get_token` and `get_auth_header` report, with the claims chosen by truthiness. */
  lemma StoredTokenIsRead(m: map<string, Json>, t: string, userInfo: Json)
    requires t != ""
    ensures var (m', ok) := Stored(m, Some(t), userInfo);
      && ok
      && TokenOf(m') == Some(JObj(map["access_token" := JStr(t)]))
      && HeaderOf(m') == Some("Bearer " + t)
      && m'["id_token_claims"] == (if PyTruthy(userInfo) then userInfo else DefaultClaims)
      && (forall k :: k in m && k != "access_token" && k != "id_token_claims" ==> k in m' && m'[k] == m[k])
  {
  }

  /** Setting a token keeps the session's token textual. */
  lemma StoredKeepsTokenText(m: map<string, Json>, token: Option<string>, userInfo: Json)
    requires TokenIsText(m)
    ensures TokenIsText(Stored(m, token, userInfo).0)
  {
  }

  /** The error record: None for a falsy result or a dict without "error"; otherwise both fields, the description defaulting to "". */
  lemma AuthErrorCases(result: Json)
    ensures !PyTruthy(result) ==> AuthErrorOf(result) == Ok(None)
    ensures result.JObj? && "error" !in result.fields ==> AuthErrorOf(result) == Ok(None)
    ensures result.JObj? && "error" in result.fields ==>
      AuthErrorOf(result) == Ok(Some(JObj(map[
        "error" := result.fields["error"],
        "error_description" := PyGet(result.fields, "error_description", JStr(""))])))
    ensures result.JNum? && result.n != 0 ==> AuthErrorOf(result) == Raise
  {
  }

  /** A list naming "error" passes the `in` test but has no `.get`. */
  lemma ErrorListRaises()
    ensures AuthErrorOf(JArr([JStr("error")])) == Raise
  {
    assert JStr("error") in [JStr("error")];
  }

  /** Clearing removes exactly the three auth keys and keeps every other entry. */
  lemma ClearedRemovesExactlyAuthKeys(m: map<string, Json>)
    ensures forall k :: k in Cleared(m) <==> k in m && k !in AuthKeys
    ensures forall k :: k in Cleared(m) ==> Cleared(m)[k] == m[k]
    ensures TokenOf(Cleared(m)) == None && HeaderOf(Cleared(m)) == None
  {
  }

  /** Clearing twice is clearing once. */
  lemma ClearIsIdempotent(m: map<string, Json>)
    ensures Cleared(Cleared(m)) == Cleared(m)
  {
  }

  /** Setting a token and then clearing leaves the same session as clearing alone. */
  lemma ClearUndoesStore(m: map<string, Json>, token: Option<string>, userInfo: Json)
    ensures Cleared(Stored(m, token, userInfo).0) == Cleared(m)
  {
    var m' := Stored(m, token, userInfo).0;
    assert forall k :: k in Cleared(m') <==> k in Cleared(m);
  }

  /** The Flask session of one user. */
  class Session {
    var data: map<string, Json>

    ghost predicate Valid()
      reads this
    {
      TokenIsText(data)
    }

    constructor(initial: map<string, Json>)
      requires TokenIsText(initial)
      ensures Valid() && data == initial
    {
      data := initial;
    }

    /** `set_access_token`. */
    method SetAccessToken(token: Option<string>, userInfo: Json) returns (ok: bool)
      requires Valid()
      modifies this`data
      ensures Valid()
      ensures (data, ok) == Stored(old(data), token, userInfo)
    {
      if token.None? || token.value == [] {
        return false;
      }
      data := data["access_token" := JStr(token.value)];
      if PyTruthy(userInfo) {
        data := data["id_token_claims" := userInfo];
      } else {
        data := data["id_token_claims" := DefaultClaims];
      }
      return true;
    }

    /** `handle_auth_error`: the session gains "auth_error" exactly when a record is returned. */
    method HandleAuthError(result: Json) returns (r: Py<Option<Json>>)
      requires Valid()
      modifies this`data
      ensures Valid()
      ensures r == AuthErrorOf(result)
      ensures data == (if r.Ok? && r.value.Some? then old(data)["auth_error" := r.value.value] else old(data))
    {
      r := AuthErrorOf(result);
      if r.Ok? && r.value.Some? {
        data := data["auth_error" := r.value.value];
      }
    }

    /** `clear_token_cache`: pops each auth key that is present. */
    method ClearTokenCache()
      requires Valid()
      modifies this`data
      ensures Valid()
      ensures data == Cleared(old(data))
    {
      for i := 0 to |AuthKeys|
        invariant data == old(data) - set k | k in AuthKeys[..i]
      {
        var key := AuthKeys[i];
        assert AuthKeys[..i+1] == AuthKeys[..i] + [key];
        if key in data {
          data := data - {key};
        }
      }
      assert AuthKeys[..|AuthKeys|] == AuthKeys;
      assert (set k | k in AuthKeys) == {"access_token", "id_token_claims", "auth_error"};
    }
  }
}
