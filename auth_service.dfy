/**
 * The credential gateway of app/auth_service.py: it checks a caller's
 * credentials against its own user table, hands out a session token, and
 * resolves a `Bearer` header back to the user it was issued to.
 */
module AuthService {
  import opened Wrappers
  import opened Text

  /** One entry of `USERS`. */
  datatype UserRecord = UserRecord(peselLast4: string, telepin: string, motherMaidenName: string)

  /** The gateway's own demo users; they do not match the assistant's database. */
  const Users: map<string, UserRecord> := map["user-1" := UserRecord("1234", "4321", "NOWAK")]

  datatype AuthRequest = AuthRequest(userId: string, peselLast4: string, telepin: string, motherMaidenName: string)

  datatype AuthResponse = AuthResponse(success: bool, message: string, token: Option<string>)

  datatype HttpError = HttpError(status: int, detail: string)

  const MissingBearer := "Brak Bearer tokenu."
  const BadToken := "Nieprawidłowy lub wygasły token."
  const BadCredentials := "Błędne dane uwierzytelniające."
  const Welcome := "Dzień dobry! Uwierzytelnienie przebiegło pomyślnie. Za chwilę połączę Cię z asystentem."
  const Bearer := "Bearer "

  /**
   * `verify_user`: the user is known, the ID digits and the PIN are exactly
   * the stored ones, and the maiden name matches whatever its letter case
   * and the whitespace around the caller's answer.
   */
  function VerifyUser(users: map<string, UserRecord>, req: AuthRequest): (r: bool)
    ensures req.userId !in users ==> !r
    ensures r <==> req.userId in users
                   && users[req.userId].peselLast4 == req.peselLast4
                   && users[req.userId].telepin == req.telepin
                   && Lower(users[req.userId].motherMaidenName) == Strip(Lower(req.motherMaidenName))
  {
    if req.userId !in users then false
    else
      var user := users[req.userId];
      user.peselLast4 == req.peselLast4
      && user.telepin == req.telepin
      && Lower(user.motherMaidenName) == Strip(Lower(req.motherMaidenName))
  }

  lemma {:induction false} LowerConcat(a: string, b: string)
    ensures Lower(a + b) == Lower(a) + Lower(b)
  {
    assert forall i :: 0 <= i < |a + b| ==> (a + b)[i] == if i < |a| then a[i] else b[i - |a|];
  }

  lemma LowerAllSpace(s: string)
    requires AllSpace(s)
    ensures AllSpace(Lower(s))
  {
    assert forall i :: 0 <= i < |s| ==> Lower(s)[i] == LowerChar(s[i]);
  }

  /** Whitespace around the spoken maiden name does not change the verdict. */
  lemma VerifyIgnoresPadding(users: map<string, UserRecord>, req: AuthRequest, pre: string, post: string)
    requires AllSpace(pre) && AllSpace(post)
    ensures VerifyUser(users, req.(motherMaidenName := pre + req.motherMaidenName + post)) == VerifyUser(users, req)
  {
    var n := req.motherMaidenName;
    LowerConcat(pre + n, post);
    LowerConcat(pre, n);
    LowerAllSpace(pre);
    LowerAllSpace(post);
    StripPadded(Lower(pre), Lower(n), Lower(post));
  }

  /** Nor does its letter case. */
  lemma VerifyIgnoresCase(users: map<string, UserRecord>, req: AuthRequest, name: string)
    requires Lower(name) == Lower(req.motherMaidenName)
    ensures VerifyUser(users, req.(motherMaidenName := name)) == VerifyUser(users, req)
  {
  }

  /** Any other ID digits are refused even with the right PIN and name. */
  lemma VerifyNeedsDigits(users: map<string, UserRecord>, req: AuthRequest)
    requires req.userId in users && req.peselLast4 != users[req.userId].peselLast4
    ensures !VerifyUser(users, req)
  {
  }

  /** The token a header carries: what follows `Bearer `, stripped. */
  function TokenOf(authorization: string): (r: Option<string>)
    ensures r.Some? <==> StartsWith(authorization, Bearer)
    ensures r.Some? ==> r.value == Strip(authorization[|Bearer|..])
  {
    if StartsWith(authorization, Bearer) then Some(Strip(authorization[|Bearer|..])) else None
  }

  /**
   * `get_user_id_from_token`: 401 for a header that is not a `Bearer`
   * header, 401 for a token no session (or an empty user id) belongs to,
   * the session's user id otherwise.
   */
  function GetUserIdFromToken(sessions: map<string, string>, authorization: string): (r: Result<string, HttpError>)
    ensures !StartsWith(authorization, Bearer) ==> r == Failure(HttpError(401, MissingBearer))
    ensures StartsWith(authorization, Bearer) ==>
      var token := Strip(authorization[|Bearer|..]);
      if token in sessions && sessions[token] != [] then r == Success(sessions[token])
      else r == Failure(HttpError(401, BadToken))
    ensures r.Success? ==> r.value != [] && r.value in sessions.Values
  {
    match TokenOf(authorization)
    case None => Failure(HttpError(401, MissingBearer))
    case Some(token) =>
      if token in sessions && sessions[token] != [] then Success(sessions[token])
      else Failure(HttpError(401, BadToken))
  }

  /** The alphabet of `secrets.token_urlsafe`. */
  predicate UrlSafe(token: string) {
    forall i :: 0 <= i < |token| ==>
      'A' <= token[i] <= 'Z' || 'a' <= token[i] <= 'z' || '0' <= token[i] <= '9' || token[i] == '-' || token[i] == '_'
  }

  /** A token issued for a user opens that user's session when presented as `Bearer <token>`. */
  lemma LoginRoundTrip(sessions: map<string, string>, token: string, userId: string)
    requires UrlSafe(token) && userId != []
    ensures GetUserIdFromToken(sessions[token := userId], Bearer + token) == Success(userId)
  {
    var header := Bearer + token;
    assert TokenOf(header) == Some(token) by {
      PrefixedRest(Bearer, token);
      UrlSafeUnpadded(token);
    }
    var s := sessions[token := userId];
    assert token in s && s[token] == userId;
  }

  lemma PrefixedRest(p: string, t: string)
    ensures StartsWith(p + t, p) && (p + t)[|p|..] == t
  {
  }

  /** A URL-safe token carries no whitespace, so stripping it is the identity. */
  lemma UrlSafeUnpadded(token: string)
    requires UrlSafe(token)
    ensures Strip(token) == token
  {
    if token != [] {
      assert !IsSpace(token[0]) && !IsSpace(token[|token| - 1]);
      StripUnpadded(token);
    }
  }

  /** Any header that does not start with `Bearer ` is refused, whatever the sessions. */
  lemma NoBearerRefused(sessions: map<string, string>, authorization: string)
    ensures !StartsWith(authorization, Bearer) ==>
      GetUserIdFromToken(sessions, authorization) == Failure(HttpError(401, MissingBearer))
  {
  }

  /** `SESSIONS` and the `/auth/verify` endpoint. */
  class Gateway {
    var sessions: map<string, string>
    const users: map<string, UserRecord>

    constructor (users: map<string, UserRecord>)
      ensures this.users == users && sessions == map[]
    {
      this.users := users;
      sessions := map[];
    }

    /**
     * `authenticate`, with `token` the freshly drawn token: bad credentials
     * are refused with 401 and no session; good ones open exactly one
     * session, for the requested user, under that token.
     */
    method Authenticate(req: AuthRequest, token: string) returns (r: Result<AuthResponse, HttpError>)
      modifies this
      ensures !VerifyUser(users, req) ==> r == Failure(HttpError(401, BadCredentials)) && sessions == old(sessions)
      ensures VerifyUser(users, req) ==>
        && r == Success(AuthResponse(true, Welcome, Some(token)))
        && sessions == old(sessions)[token := req.userId]
    {
      if !VerifyUser(users, req) {
        return Failure(HttpError(401, BadCredentials));
      }
      sessions := sessions[token := req.userId];
      return Success(AuthResponse(true, Welcome, Some(token)));
    }
  }

  /** `payload.setdefault("user_id", user_id)`: a caller's own `user_id` wins. */
  function WithUserId<V>(payload: map<string, V>, userId: V): (r: map<string, V>)
    ensures "user_id" in r
    ensures "user_id" in payload ==> r["user_id"] == payload["user_id"]
    ensures "user_id" !in payload ==> r["user_id"] == userId
    ensures forall k :: k in payload ==> k in r && r[k] == payload[k]
    ensures r.Keys == payload.Keys + {"user_id"}
  {
    if "user_id" in payload then payload else payload[("user_id") := userId]
  }
}
