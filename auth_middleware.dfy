/** The bearer-token gate. The token is the second piece of the
    `Authorization` header split on single spaces; the first word (the scheme)
    is never looked at. A missing or empty token and a token that fails
    verification are rejected with 401; otherwise the verified user id and
    role are attached to the request and the next handler runs. Verification
    (`jwt.verify` with the server secret) is a function parameter that yields
    the claims, or None where the library throws. */
module AuthMiddleware {
  import opened Http
  import opened Js
  import opened Users

  /** `authorization?.split(" ")[1]`: None for a missing header or a header
      with no space. */
  function SecondPiece(header: Option<string>): (t: Option<string>)
    ensures header.None? ==> t.None?
    ensures t.Some? ==> ' ' !in t.value
  {
    if header.None? then None
    else
      var pieces := Split(header.value, ' ');
      if |pieces| < 2 then None else Some(pieces[1])
  }

  /** What the gate does with a request. */
  datatype Decision = Proceed(claims: Claims) | Reject(status: Status, message: string)

  const NoTokenMessage: string := "Unauthorized - No token provided"
  const InvalidTokenMessage: string := "Unauthorized - Invalid token"

  /** The token the gate accepts for verification: a present, non-empty second piece. */
  predicate HasToken(header: Option<string>) {
    SecondPiece(header).Some? && SecondPiece(header).value != ""
  }

  /** The gate's decision: 401 "No token provided" without a usable token,
      401 "Invalid token" when verification fails, otherwise proceed with
      the verified claims. */
  function Decide(header: Option<string>, verify: string -> Option<Claims>): (d: Decision)
    ensures d.Reject? ==> d.status == Unauthorized
    ensures !HasToken(header) ==> d == Reject(Unauthorized, NoTokenMessage)
    ensures HasToken(header) && verify(SecondPiece(header).value).None? ==>
      d == Reject(Unauthorized, InvalidTokenMessage)
    ensures d.Proceed? <==> HasToken(header) && verify(SecondPiece(header).value).Some?
    ensures d.Proceed? ==> Some(d.claims) == verify(SecondPiece(header).value)
  {
    var token := SecondPiece(header);
    if token.None? || token.value == "" then Reject(Unauthorized, NoTokenMessage)
    else
      match verify(token.value)
      case None => Reject(Unauthorized, InvalidTokenMessage)
      case Some(claims) => Proceed(claims)
  }

  /** A header without a space yields no token. */
  lemma NoSpaceNoToken(header: string, verify: string -> Option<Claims>)
    requires ' ' !in header
    ensures Decide(Some(header), verify) == Reject(Unauthorized, NoTokenMessage)
  {
    assert Split(header, ' ') == [header];
  }

  /** `Split` of `head + " " + tail` for a space-free head starts with head
      and continues with the pieces of tail. */
  lemma SplitAfterFirstSpace(head: string, tail: string)
    requires ' ' !in head
    ensures Split(head + " " + tail, ' ') == [head] + Split(tail, ' ')
  {
    var s := head + " " + tail;
    assert s == head + [' '] + tail;
    IndexOfCharAfter(head, tail, ' ');
    assert s[..|head|] == head;
    assert s[|head| + 1..] == tail;
  }

  /** "Bearer " and "Bearer  x": an empty second piece yields no token. */
  lemma EmptySecondPieceNoToken(scheme: string, rest: string, verify: string -> Option<Claims>)
    requires ' ' !in scheme
    requires rest == "" || rest[0] == ' '
    ensures Decide(Some(scheme + " " + rest), verify) == Reject(Unauthorized, NoTokenMessage)
  {
    SplitAfterFirstSpace(scheme, rest);
    if rest != "" {
      assert IndexOfChar(rest, ' ') == 0;
      assert Split(rest, ' ')[0] == rest[..0] == "";
    } else {
      assert Split(rest, ' ') == [""];
    }
  }

  /** Any scheme word followed by one space and a space-free non-empty token
      hands exactly that token to verification. */
  lemma {:induction false} BearerRoundTrip(scheme: string, token: string, verify: string -> Option<Claims>)
    requires ' ' !in scheme && ' ' !in token && token != ""
    ensures SecondPiece(Some(scheme + " " + token)) == Some(token)
    ensures Decide(Some(scheme + " " + token), verify) ==
      match verify(token)
      case None => Reject(Unauthorized, InvalidTokenMessage)
      case Some(claims) => Proceed(claims)
  {
    assert Join([scheme, token], ' ') == scheme + " " + token by {
      assert [scheme, token][1..] == [token];
    }
    SplitJoin([scheme, token], ' ');
  }

  /** The parts of an Express request this gate reads and writes, with a
      count of how often the next handler has been called. */
  class Request {
    const authorization: Option<string>
    var userId: Option<string>
    var role: Option<string>
    var nextCalls: nat

    constructor (authorization: Option<string>)
      ensures this.authorization == authorization
      ensures userId == None && role == None && nextCalls == 0
    {
      this.authorization := authorization;
      userId, role, nextCalls := None, None, 0;
    }
  }

  /** `authMiddleware`: on success copy `user_id` and `role` from the claims
      onto the request and call next exactly once; on a rejection leave the
      request alone and do not call next. */
  method Run(req: Request, verify: string -> Option<Claims>) returns (d: Decision)
    modifies req
    ensures d == Decide(req.authorization, verify)
    ensures d.Proceed? ==>
      req.userId == Some(d.claims.userId) && req.role == Some(d.claims.role) &&
      req.nextCalls == old(req.nextCalls) + 1
    ensures d.Reject? ==>
      req.userId == old(req.userId) && req.role == old(req.role) && req.nextCalls == old(req.nextCalls)
  {
    var token := SecondPiece(req.authorization);
    if token.None? || token.value == "" {
      return Reject(Unauthorized, NoTokenMessage);
    }
    var decoded := verify(token.value);
    if decoded.None? {
      return Reject(Unauthorized, InvalidTokenMessage);
    }
    req.userId := Some(decoded.value.userId);
    req.role := Some(decoded.value.role);
    req.nextCalls := req.nextCalls + 1;
    d := Proceed(decoded.value);
  }
}
