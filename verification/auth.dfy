/**
  The bearer-token middleware and the authorization gates. Signature
  checking is an oracle `verify(token, secret)` that answers with the
  decoded payload or nothing; a payload is a JSON object.
 */
module Auth {
  import opened Base
  import opened Store

  /** The JSON values a token payload field can hold. */
  datatype Json = JNull | JBool(b: bool) | JNum(n: int) | JStr(str: string)

  type Payload = map<string, Json>

  // ---------------------------------------------------------------------
  // Splitting the Authorization header

  /** `s.startsWith(prefix)`. */
  predicate StartsWith(s: string, prefix: string): (b: bool)
    ensures b <==> |prefix| <= |s| && forall i :: 0 <= i < |prefix| ==> s[i] == prefix[i]
    ensures b ==> s == prefix + s[|prefix|..]
  {
    |prefix| <= |s| && s[..|prefix|] == prefix
  }

  /** The fields joined back with the separator between each two. */
  function Join(fields: seq<string>, sep: char): string
    requires |fields| >= 1
  {
    if |fields| == 1 then fields[0]
    else fields[0] + [sep] + Join(fields[1..], sep)
  }

  /**
    `s.split(sep)` for a one-character separator: the maximal runs between
    separators, empty ones included, so there is one more field than there
    are separators.
   */
  function Split(s: string, sep: char): (r: seq<string>)
    ensures |r| >= 1
    ensures forall i :: 0 <= i < |r| ==> sep !in r[i]
    ensures Join(r, sep) == s
    decreases |s|
  {
    if |s| == 0 then [""]
    else
      var rest := Split(s[1..], sep);
      if s[0] == sep then
        assert ([""] + rest)[1..] == rest;
        [""] + rest
      else
        var r := [[s[0]] + rest[0]] + rest[1..];
        assert r[1..] == rest[1..];
        assert s == [s[0]] + s[1..];
        r
  }

  /** Position of the first `c` in `s`, or `|s|` when there is none. */
  function FirstIndex(s: string, c: char): (k: nat)
    ensures k <= |s|
    decreases |s|
  {
    if |s| == 0 then 0
    else if s[0] == c then 0
    else 1 + FirstIndex(s[1..], c)
  }

  lemma {:induction false} FirstIndexOfJoin(x: string, c: char, y: string)
    requires c !in x
    ensures FirstIndex(x + [c] + y, c) == |x|
    decreases |x|
  {
    if |x| > 0 {
      assert (x + [c] + y)[1..] == x[1..] + [c] + y;
      FirstIndexOfJoin(x[1..], c, y);
    }
  }

  /** The text before the first separator determines where the rest begins. */
  lemma FirstFieldDetermined(x: string, y: string, x2: string, y2: string, sep: char)
    requires sep !in x && sep !in x2
    requires x + [sep] + y == x2 + [sep] + y2
    ensures x == x2 && y == y2
  {
    var j := x + [sep] + y;
    FirstIndexOfJoin(x, sep, y);
    FirstIndexOfJoin(x2, sep, y2);
    assert x == j[..|x|] == x2;
    assert y == j[|x| + 1..] == y2;
  }

  /** Separator-free fields are determined by their join. */
  lemma {:induction false} JoinInjective(a: seq<string>, b: seq<string>, sep: char)
    requires |a| >= 1 && |b| >= 1
    requires forall i :: 0 <= i < |a| ==> sep !in a[i]
    requires forall i :: 0 <= i < |b| ==> sep !in b[i]
    requires Join(a, sep) == Join(b, sep)
    ensures a == b
    decreases |a|
  {
    if |a| > 1 && |b| > 1 {
      FirstFieldDetermined(a[0], Join(a[1..], sep), b[0], Join(b[1..], sep), sep);
      JoinInjective(a[1..], b[1..], sep);
      assert a == [a[0]] + a[1..];
      assert b == [b[0]] + b[1..];
    }
  }

  /** Splitting a join of separator-free fields gives the fields back. */
  lemma SplitJoin(fields: seq<string>, sep: char)
    requires |fields| >= 1
    requires forall i :: 0 <= i < |fields| ==> sep !in fields[i]
    ensures Split(Join(fields, sep), sep) == fields
  {
    JoinInjective(Split(Join(fields, sep), sep), fields, sep);
  }

  /**
    `header` is `x`, a space, `t` and `y`, where `x` holds no space and `y`
    is empty or starts with a space: `t` is the field after the first space.
   */
  predicate SecondField(header: string, x: string, t: string, y: string) {
    ' ' !in x && header == x + [' '] + t + y && (y == [] || y[0] == ' ')
  }

  /** A space-free second field is determined by the header. */
  lemma SecondFieldUnique(header: string, x: string, t: string, y: string,
                          x2: string, t2: string, y2: string)
    requires SecondField(header, x, t, y) && SecondField(header, x2, t2, y2)
    requires ' ' !in t && ' ' !in t2
    ensures t == t2
  {
    assert header == x + [' '] + (t + y) == x2 + [' '] + (t2 + y2);
    FirstFieldDetermined(x, t + y, x2, t2 + y2, ' ');
    var w := t + y;
    assert t == w[..|t|] && t2 == w[..|t2|];
  }

  /** What follows the second field of a join: nothing, or a separator and the remaining fields. */
  function SecondFieldTail(fields: seq<string>): (y: string)
    requires |fields| >= 2
    ensures Join(fields, ' ') == fields[0] + [' '] + fields[1] + y
    ensures y == [] || y[0] == ' '
  {
    if |fields| == 2 then []
    else
      assert fields[1..][1..] == fields[2..];
      [' '] + Join(fields[2..], ' ')
  }

  /** The token part of the header: its second space-separated field, if any. */
  function BearerToken(header: string): (t: Option<string>)
    ensures t.Some? <==> ' ' in header
    ensures t.Some? ==> ' ' !in t.value
    ensures t.Some? ==> exists x, y :: SecondField(header, x, t.value, y)
  {
    var fields := Split(header, ' ');
    if |fields| >= 2 then
      var y := SecondFieldTail(fields);
      assert SecondField(header, fields[0], fields[1], y);
      Some(fields[1])
    else
      assert Join(fields, ' ') == fields[0];
      None
  }

  // ---------------------------------------------------------------------
  // Middleware verdicts

  /** Either the next handler runs (with the payload stored), or a status is sent. */
  datatype AuthResult = Next(payload: Payload) | Halt(code: int)

  /**
    The bearer-token middleware: 401 without a header starting with
    `Bearer` or without a non-empty second field, then 500 without a
    configured secret, then 403 when the oracle rejects the token.
   */
  function VerifyJwt(header: Option<string>, secret: Option<string>,
                     verify: (string, string) -> Option<Payload>): (r: AuthResult)
    ensures r == Halt(401) <==>
      || header.None? || !StartsWith(header.value, "Bearer")
      || BearerToken(header.value).None? || BearerToken(header.value).value == ""
    ensures r == Halt(403) <==>
      && header.Some? && StartsWith(header.value, "Bearer")
      && BearerToken(header.value).Some? && BearerToken(header.value).value != ""
      && secret.Some? && verify(BearerToken(header.value).value, secret.value).None?
    ensures r.Next? ==>
      && header.Some? && StartsWith(header.value, "Bearer")
      && BearerToken(header.value).Some? && BearerToken(header.value).value != ""
      && secret.Some?
      && verify(BearerToken(header.value).value, secret.value) == Some(r.payload)
    ensures r == Halt(500) <==>
      && header.Some? && StartsWith(header.value, "Bearer")
      && BearerToken(header.value).Some? && BearerToken(header.value).value != ""
      && secret.None?
    ensures r.Halt? ==> r.code in {401, 403, 500}
  {
    if header.None? || header == Some("") || !StartsWith(header.value, "Bearer") then Halt(401)
    else
      var token := BearerToken(header.value);
      if token.None? || token.value == "" then Halt(401)
      else if secret.None? then Halt(500)
      else
        var payload := verify(token.value, secret.value);
        if payload.None? then Halt(403) else Next(payload.value)
  }

  /**
    A header `Bearer <t>` with a non-empty, space-free `t` hands exactly `t`
    to the oracle; the outcome is the oracle's.
   */
  lemma WellFormedHeaderReachesOracle(t: string, secret: string, verify: (string, string) -> Option<Payload>)
    requires t != "" && ' ' !in t
    ensures var r := VerifyJwt(Some("Bearer " + t), Some(secret), verify);
      && (verify(t, secret).Some? ==> r == Next(verify(t, secret).value))
      && (verify(t, secret).None? ==> r == Halt(403))
  {
    var h := "Bearer " + t;
    assert ' ' !in "Bearer";
    assert Join(["Bearer", t], ' ') == h;
    SplitJoin(["Bearer", t], ' ');
    assert h[..6] == "Bearer";
  }

  /** Headers the split leaves without a usable token are refused with 401. */
  lemma MalformedHeadersRejected(secret: Option<string>, verify: (string, string) -> Option<Payload>, t: string)
    requires ' ' !in t
    ensures VerifyJwt(Some("Bearer"), secret, verify) == Halt(401)
    ensures VerifyJwt(Some("BearerX"), secret, verify) == Halt(401)
    ensures VerifyJwt(Some("Bearer  " + t), secret, verify) == Halt(401)
  {
    assert "Bearer"[..6] == "Bearer";
    assert "BearerX"[..6] == "Bearer";
    assert ' ' !in "BearerX";
    var h := "Bearer  " + t;
    assert h[..6] == "Bearer";
    assert Join(["", t], ' ') == [' '] + t;
    assert Join(["Bearer", "", t], ' ') == "Bearer" + [' '] + ([' '] + t);
    assert "Bearer" + [' '] + ([' '] + t) == h;
    SplitJoin(["Bearer", "", t], ' ');
  }

  // ---------------------------------------------------------------------
  // Gates on the stored payload

  /** What a gate does: let the request through or refuse it. */
  datatype Verdict = Proceed | Refuse(code: int)

  /** The payload's `type` field as a role ordinal, when it holds a number. */
  function Role(payload: Option<Payload>): (r: Option<int>)
    ensures r.Some? <==> payload.Some? && "type" in payload.value && payload.value["type"].JNum?
    ensures r.Some? ==> payload.value["type"] == JNum(r.value)
  {
    if payload.Some? && "type" in payload.value && payload.value["type"].JNum?
    then Some(payload.value["type"].n) else None
  }

  function VerifyAdministrator(payload: Option<Payload>): (v: Verdict)
    ensures v == Proceed <==> Role(payload) == Some(0)
    ensures v != Proceed ==> v == Refuse(403)
  {
    if Role(payload) == Some(0) then Proceed else Refuse(403)
  }

  function VerifyModerator(payload: Option<Payload>): (v: Verdict)
    ensures v == Proceed <==> Role(payload) == Some(0) || Role(payload) == Some(1)
    ensures v != Proceed ==> v == Refuse(403)
  {
    var role := Role(payload);
    if role == Some(0) || role == Some(1) then Proceed else Refuse(403)
  }

  /** The owner gate: moderators and above, or the account the path names. */
  function VerifyOwner(payload: Option<Payload>, requestedId: Uuid): (v: Verdict)
    ensures v == Proceed <==>
      || Role(payload) == Some(0) || Role(payload) == Some(1)
      || (payload.Some? && "uuid" in payload.value && payload.value["uuid"] == JStr(requestedId))
    ensures v != Proceed ==> v == Refuse(403)
  {
    var role := Role(payload);
    var isOwner := payload.Some? && "uuid" in payload.value && payload.value["uuid"] == JStr(requestedId);
    if role == Some(0) || role == Some(1) || isOwner then Proceed else Refuse(403)
  }

  /** The verified-email gate reads the payload's `verification` field. */
  function VerifyVerification(payload: Option<Payload>): (v: Verdict)
    ensures v == Proceed <==>
      payload.Some? && "verification" in payload.value && payload.value["verification"] == JBool(true)
    ensures v != Proceed ==> v == Refuse(403)
  {
    if payload.Some? && "verification" in payload.value && payload.value["verification"] == JBool(true)
    then Proceed else Refuse(403)
  }

  /** Gates are nested: administrator implies moderator implies owner of anything. */
  lemma GatesNested(payload: Option<Payload>, requestedId: Uuid)
    ensures VerifyAdministrator(payload) == Proceed ==> VerifyModerator(payload) == Proceed
    ensures VerifyModerator(payload) == Proceed ==> VerifyOwner(payload, requestedId) == Proceed
  {
  }

  // ---------------------------------------------------------------------
  // Tokens as the login handler builds them

  /** The payload the login handler signs: uuid, name, verified flag and role. */
  function AccessPayload(uuid: Uuid, a: Account): (p: Payload)
    ensures p.Keys == {"uuid", "name", "verified", "type"}
  {
    map["uuid" := JStr(uuid), "name" := JStr(a.name), "verified" := JBool(a.verified),
        "type" := if a.userType.Some? then JNum(a.userType.value.Ordinal()) else JNull]
  }

  /**
    The payload a verified token decodes to: the signed fields plus the
    issue and expiry times (seconds) the signing library adds when given an
    expiry.
   */
  function SignedPayload(uuid: Uuid, a: Account, iat: int, exp: int): (p: Payload)
    ensures p.Keys == {"uuid", "name", "verified", "type", "iat", "exp"}
    ensures forall k :: k in AccessPayload(uuid, a) ==> p[k] == AccessPayload(uuid, a)[k]
  {
    AccessPayload(uuid, a)["iat" := JNum(iat)]["exp" := JNum(exp)]
  }

  /**
    The verified-email gate looks for a field the issued tokens do not
    carry, so a token from the login handler never passes it, verified
    account or not.
   */
  lemma IssuedTokenFailsVerificationGate(uuid: Uuid, a: Account, iat: int, exp: int)
    ensures VerifyVerification(Some(SignedPayload(uuid, a, iat, exp))) == Refuse(403)
  {
    assert "verification" !in SignedPayload(uuid, a, iat, exp);
  }

  /** On issued tokens the role gates follow the account's user type. */
  lemma IssuedTokenRoles(uuid: Uuid, a: Account, iat: int, exp: int, requestedId: Uuid)
    ensures var p := Some(SignedPayload(uuid, a, iat, exp));
      VerifyAdministrator(p) == Proceed <==> a.userType == Some(Admin)
    ensures var p := Some(SignedPayload(uuid, a, iat, exp));
      VerifyModerator(p) == Proceed <==> a.userType == Some(Admin) || a.userType == Some(Moderator)
    ensures var p := Some(SignedPayload(uuid, a, iat, exp));
      VerifyOwner(p, requestedId) == Proceed <==>
        a.userType == Some(Admin) || a.userType == Some(Moderator) || uuid == requestedId
  {
  }
}
