/**
 * The token helpers of the server: issuing a signed token for a user id,
 * verifying one, and pulling one out of an `Authorization` header.
 *
 * The signing library itself is not part of this model: `sign` and `verify`
 * are passed in as functions and may succeed or fail in any way.
 */
module Jwt {
  import opened Common
  import Strings

  /** The only scheme accepted, with its single trailing space. */
  const BearerPrefix: string := "Bearer "

  /** `expiresIn: "7d"`, in seconds. */
  const ExpiresInSeconds: nat := 7 * 24 * 60 * 60

  const TokenCreationFailed: string := "Token creation failed"
  const TokenVerificationFailed: string := "Error verifying token"

  /** What is handed to the signer: the payload and the expiry option. */
  datatype SignRequest = SignRequest(payload: Claims, expiresIn: nat)

  /** The payload of every token this server issues. */
  datatype Claims = Claims(id: Id)

  /** What the signing library reports. */
  datatype SignOutcome = Signed(token: string) | SignError(message: string)

  /** What the verifying library reports; its failure kinds are all distinct. */
  datatype VerifyOutcome =
    | Decoded(claims: Claims)
    | Malformed(message: string)
    | BadSignature
    | TokenExpired(expiredAt: Timestamp)
    | NotYetValid(date: Timestamp)

  /**
   * generateToken(payload, options): signs the payload with a fixed 7-day
   * expiry (the `options` argument is ignored) and turns every failure of
   * the library into the one generic error.
   */
  function GenerateToken(sign: SignRequest -> SignOutcome, payload: Claims, options: seq<string>): (r: Result<string, string>)
    ensures r.Ok? <==> sign(SignRequest(payload, ExpiresInSeconds)).Signed?
    ensures r.Ok? ==> r.value == sign(SignRequest(payload, ExpiresInSeconds)).token
    ensures r.Err? ==> r.error == TokenCreationFailed
  {
    match sign(SignRequest(payload, ExpiresInSeconds))
    case Signed(token) => Ok(token)
    case SignError(_) => Err(TokenCreationFailed)
  }

  /** verifyToken(token): the decoded claims, or the one generic error. */
  function VerifyToken(verify: string -> VerifyOutcome, token: string): (r: Result<Claims, string>)
    ensures r.Ok? <==> verify(token).Decoded?
    ensures r.Ok? ==> r.value == verify(token).claims
    ensures r.Err? ==> r.error == TokenVerificationFailed
  {
    match verify(token)
    case Decoded(claims) => Ok(claims)
    case _ => Err(TokenVerificationFailed)
  }

  /**
   * An expired token and a forged one are reported identically: the kind
   * of a verification failure does not reach the caller.
   */
  lemma VerifyFailuresIndistinguishable(verify: string -> VerifyOutcome, t1: string, t2: string)
    requires !verify(t1).Decoded? && !verify(t2).Decoded?
    ensures VerifyToken(verify, t1) == VerifyToken(verify, t2)
  {
  }

  /**
   * extractTokenFromHeader(authHeader): nothing for a missing or empty
   * header or one without the exact, case-sensitive `"Bearer "` prefix;
   * otherwise the second space-separated field of the header.
   */
  function ExtractTokenFromHeader(authHeader: Option<string>): (r: Option<string>)
    ensures r.Some? <==> authHeader.Some? && BearerPrefix <= authHeader.value
    ensures r.Some? ==> ' ' !in r.value
  {
    if !Truthy(authHeader) || !(BearerPrefix <= authHeader.value) then None
    else
      var fields := Strings.Split(authHeader.value, ' ');
      BearerWords(authHeader.value);
      Some(fields[1])
  }

  /** A header carrying the prefix splits into "Bearer" and then the rest's fields. */
  lemma BearerWords(h: string)
    requires BearerPrefix <= h
    ensures Strings.Split(h, ' ') == ["Bearer"] + Strings.Split(h[|BearerPrefix|..], ' ')
  {
    assert h == "Bearer" + [' '] + h[|BearerPrefix|..];
    Strings.SplitAfterWord("Bearer", ' ', h[|BearerPrefix|..]);
  }

  /**
   * The token found is the text after the prefix up to the next space:
   * "Bearer a b" yields "a" and "Bearer " yields "".
   */
  lemma ExtractTakesFirstField(h: string)
    requires BearerPrefix <= h
    ensures ExtractTokenFromHeader(Some(h)) == Some(Strings.FirstField(h[|BearerPrefix|..], ' '))
  {
    BearerWords(h);
    Strings.SplitFirst(h[|BearerPrefix|..], ' ');
  }

  /** The header a client builds as `Bearer ${token}` gives the token back. */
  lemma ExtractRoundTrip(token: string)
    requires ' ' !in token
    ensures ExtractTokenFromHeader(Some(BearerPrefix + token)) == Some(token)
  {
    var h := BearerPrefix + token;
    assert h[|BearerPrefix|..] == token;
    ExtractTakesFirstField(h);
    Strings.SplitFirst(token, ' ');
    FirstFieldOfWord(token);
  }

  /** A word with no space is its own first field. */
  lemma {:induction false} FirstFieldOfWord(w: string)
    requires ' ' !in w
    ensures Strings.FirstField(w, ' ') == w
  {
    if |w| > 0 {
      assert ' ' !in w[1..];
      FirstFieldOfWord(w[1..]);
      assert w == [w[0]] + w[1..];
    }
  }
}
