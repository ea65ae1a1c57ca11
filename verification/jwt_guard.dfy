/** `JwtGuard`: reads the `Authorization` header, takes the token after
    "Bearer ", verifies it and stores the decoded claims on the request. The
    signature check is a parameter: the model does not see the secret or
    the crypto. */
module JwtAuth {
  import opened Common

  const Bearer := "Bearer "
  const MissingMessage := "Token invalide ou manquant"
  const InvalidMessage := "Token invalide"

  /** `s.split(sep)` for a one-character separator. */
  function Split(s: string, sep: char): (parts: seq<string>)
    ensures |parts| >= 1
    ensures forall i :: 0 <= i < |parts| ==> sep !in parts[i]
    decreases |s|
  {
    var k := IndexWhere(s, (c: char) => c == sep);
    if k.None? then [s]
    else [s[..k.value]] + Split(s[k.value + 1..], sep)
  }

  /** `parts.join(sep)`. */
  function Join(parts: seq<string>, sep: char): string
    requires |parts| >= 1
    decreases |parts|
  {
    if |parts| == 1 then parts[0] else parts[0] + [sep] + Join(parts[1..], sep)
  }

  /** The characters of `s` before the first `sep`. */
  function TakeUntil(s: string, sep: char): (t: string)
    ensures t <= s && sep !in t
    ensures |t| < |s| ==> s[|t|] == sep
  {
    var k := IndexWhere(s, (c: char) => c == sep);
    if k.None? then s else s[..k.value]
  }

  /** Joining the pieces of a split gives the string back. */
  lemma {:induction false} SplitJoin(s: string, sep: char)
    ensures Join(Split(s, sep), sep) == s
    decreases |s|
  {
    var k := IndexWhere(s, (c: char) => c == sep);
    if k.Some? {
      var rest := s[k.value + 1..];
      SplitJoin(rest, sep);
      assert Split(s, sep)[1..] == Split(rest, sep);
      assert s == s[..k.value] + [sep] + rest;
    }
  }

  /** The first piece of a split is the prefix before the separator. */
  lemma SplitHead(s: string, sep: char)
    ensures Split(s, sep)[0] == TakeUntil(s, sep)
  {
  }

  /** `header.startsWith('Bearer ')`. */
  predicate StartsWithBearer(h: string) {
    Bearer <= h
  }

  /** The token the guard hands to `verify`, or None when it throws
      "Token invalide ou manquant". */
  function BearerToken(header: Option<string>): (t: Option<string>)
    ensures t.Some? <==> header.Some? && header.value != "" && StartsWithBearer(header.value)
  {
    if header.None? || header.value == "" || !StartsWithBearer(header.value) then None
    else
      var h := header.value;
      BearerSplit(h);
      Some(Split(h, ' ')[1])
  }

  /** After "Bearer " the split has a second piece: the text up to the next
      space. */
  lemma BearerSplit(h: string)
    requires StartsWithBearer(h)
    ensures |Split(h, ' ')| >= 2
    ensures Split(h, ' ')[1] == TakeUntil(h[|Bearer|..], ' ')
  {
    var p := (c: char) => c == ' ';
    assert h[6] == ' ' && h[..6] == "Bearer";
    assert forall j :: 0 <= j < 6 ==> !p(h[j]);
    var k := IndexWhere(h, p);
    assert k == Some(6);
    assert Split(h, ' ') == [h[..6]] + Split(h[7..], ' ');
    SplitHead(h[7..], ' ');
  }

  /** The token is everything after "Bearer " up to the next space, so a
      header "Bearer a b" sends "a" and "Bearer  a" sends "". */
  lemma TokenIsFirstWord(header: string)
    requires StartsWithBearer(header)
    ensures BearerToken(Some(header)) == Some(TakeUntil(header[|Bearer|..], ' '))
    ensures ' ' !in BearerToken(Some(header)).value
  {
    BearerSplit(header);
  }

  /** An Express request as the guards see it. */
  class Request {
    var authorization: Option<string>
    var user: Option<JwtPayload>

    constructor (authorization: Option<string>)
      ensures this.authorization == authorization && user.None?
    {
      this.authorization := authorization;
      user := None;
    }
  }

  /** `JwtGuard.canActivate`. `verify` is `jwtService.verify` with the
      configured secret: the claims of a valid token, None when it throws. */
  method CanActivate(request: Request, verify: string -> Option<JwtPayload>) returns (r: Result<bool>)
    modifies request
    ensures request.authorization == old(request.authorization)
    ensures var t := BearerToken(old(request.authorization));
            if t.None? then
              r == Err(Unauthorized(MissingMessage)) && request.user == old(request.user)
            else if verify(t.value).None? then
              r == Err(Unauthorized(InvalidMessage)) && request.user == old(request.user)
            else
              r == Ok(true) && request.user == verify(t.value)
  {
    var token := BearerToken(request.authorization);
    if token.None? {
      return Err(Unauthorized(MissingMessage));
    }
    var decoded := verify(token.value);
    if decoded.None? {
      return Err(Unauthorized(InvalidMessage));
    }
    request.user := decoded;
    r := Ok(true);
  }
}
