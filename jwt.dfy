/**
 * The `jsonwebtoken` calls the core makes: `jwt.sign`, `jwt.decode` and
 * `jwt.verify`. A token is a string. Its layout is a model of the compact JWS
 * form: a self-delimiting, escaped rendering of the payload followed by the
 * signature, never containing a space (as base64url never does). HMAC-SHA256
 * is symbolic: the signature names the secret that produced it.
 */
module Jwt {
  import opened Wrappers

  /** The `{id, role}` object placed in a token; `role` is absent when the record has none. */
  datatype Subject = Subject(id: string, role: Option<string>)

  /** A decoded payload: the claims the code signs, with `iat` and `exp` in seconds. */
  datatype Payload = Payload(
    user: Option<Subject>,
    dealership: Option<Subject>,
    admin: Option<Subject>,
    id: Option<string>,
    role: Option<string>,
    iat: int,
    exp: Option<int>)

  /** A payload together with its (symbolic) signature. */
  datatype Jws = Jws(payload: Payload, signedWith: string)

  /** Why `jwt.verify` throws. */
  datatype VerifyError = Malformed | InvalidSignature | Expired

  // ---------------------------------------------------------------------------
  // Escaped strings: `~s` for a space, `~~` for `~`, `~d` for `.`; a `.` ends the field.

  function EscapeChar(c: char): string {
    if c == ' ' then "~s" else if c == '~' then "~~" else if c == '.' then "~d" else [c]
  }

  function UnescapeChar(c: char): Option<char> {
    if c == 's' then Some(' ') else if c == '~' then Some('~') else if c == 'd' then Some('.') else None
  }

  function Escape(s: string): (r: string)
    ensures ' ' !in r
    decreases |s|
  {
    if |s| == 0 then "" else EscapeChar(s[0]) + Escape(s[1..])
  }

  /** `s` written as one field in front of `rest`. */
  function PutString(s: string, rest: string): (r: string)
    ensures ' ' !in rest ==> ' ' !in r
  {
    Escape(s) + ['.'] + rest
  }

  /** Reads one field off the front of `s`; a raw space or a bad escape is malformed. */
  function TakeString(s: string): (r: Option<(string, string)>)
    ensures r.Some? ==> |r.value.1| < |s|
    decreases |s|
  {
    if |s| == 0 then None
    else if s[0] == '.' then Some(("", s[1..]))
    else if s[0] == ' ' then None
    else if s[0] == '~' then
      if |s| < 2 || UnescapeChar(s[1]).None? then None
      else
        var p :- TakeString(s[2..]);
        Some(([UnescapeChar(s[1]).value] + p.0, p.1))
    else
      var p :- TakeString(s[1..]);
      Some(([s[0]] + p.0, p.1))
  }

  /** An escaped character in front of a readable field extends what is read by that character. */
  lemma TakeStringCons(c: char, tail: string)
    requires TakeString(tail).Some?
    ensures TakeString(EscapeChar(c) + tail) == Some(([c] + TakeString(tail).value.0, TakeString(tail).value.1))
  {
    var s := EscapeChar(c) + tail;
    if c == ' ' || c == '~' || c == '.' {
      assert s[2..] == tail;
    } else {
      assert s[1..] == tail;
    }
  }

  lemma {:induction false} TakePutString(x: string, rest: string)
    ensures TakeString(PutString(x, rest)) == Some((x, rest))
    decreases |x|
  {
    if |x| == 0 {
      assert PutString(x, rest) == ['.'] + rest;
    } else {
      PutStringCons(x, rest);
      TakePutString(x[1..], rest);
      TakeStringCons(x[0], PutString(x[1..], rest));
      assert [x[0]] + x[1..] == x;
    }
  }

  lemma EscapeOfUnescape(c: char)
    requires UnescapeChar(c).Some?
    ensures EscapeChar(UnescapeChar(c).value) == ['~', c]
  {
  }

  /** A field is written one escaped character at a time. */
  lemma PutStringCons(x: string, rest: string)
    requires x != []
    ensures PutString(x, rest) == EscapeChar(x[0]) + PutString(x[1..], rest)
  {
  }

  lemma {:induction false} PutTakeString(s: string)
    requires TakeString(s).Some?
    ensures PutString(TakeString(s).value.0, TakeString(s).value.1) == s
    decreases |s|
  {
    var p := TakeString(s).value;
    if s[0] == '.' {
      assert PutString(p.0, p.1) == ['.'] + s[1..];
    } else {
      var n := if s[0] == '~' then 2 else 1;
      var q := TakeString(s[n..]).value;
      PutTakeString(s[n..]);
      var c := if s[0] == '~' then UnescapeChar(s[1]).value else s[0];
      assert p == ([c] + q.0, q.1);
      assert ([c] + q.0)[1..] == q.0;
      PutStringCons(p.0, p.1);
      if s[0] == '~' {
        EscapeOfUnescape(s[1]);
      }
      assert EscapeChar(c) == s[..n];
      assert s == s[..n] + s[n..];
    }
  }

  // ---------------------------------------------------------------------------
  // Integers in decimal, as JSON writes them.

  function Digit(d: nat): char
    requires d < 10
  {
    ('0' as int + d) as char
  }

  function DigitValue(c: char): Option<nat> {
    if '0' <= c <= '9' then Some(c as int - '0' as int) else None
  }

  /** The decimal digits of `n`, most significant first. */
  function Decimal(n: nat): (r: string)
    ensures |r| >= 1
    ensures forall i :: 0 <= i < |r| ==> '0' <= r[i] <= '9'
    decreases n
  {
    if n < 10 then [Digit(n)] else Decimal(n / 10) + [Digit(n % 10)]
  }

  function ParseDecimal(s: string): Option<nat>
    decreases |s|
  {
    if |s| == 0 then None
    else
      var d :- DigitValue(s[|s| - 1]);
      if |s| == 1 then Some(d)
      else
        var v :- ParseDecimal(s[..|s| - 1]);
        Some(10 * v + d)
  }

  lemma {:induction false} ParseDecimalOfDecimal(n: nat)
    ensures ParseDecimal(Decimal(n)) == Some(n)
    decreases n
  {
    if n >= 10 {
      var s := Decimal(n);
      assert s[..|s| - 1] == Decimal(n / 10);
      ParseDecimalOfDecimal(n / 10);
    }
  }

  function IntText(i: int): string {
    if i < 0 then ['-'] + Decimal(-i) else Decimal(i)
  }

  /** Reads an integer back; only the text `IntText` itself writes is accepted. */
  function ParseInt(t: string): Option<int> {
    var v :- SignedDecimal(t);
    if IntText(v) == t then Some(v) else None
  }

  function SignedDecimal(t: string): Option<int> {
    if |t| > 0 && t[0] == '-' then
      var m :- ParseDecimal(t[1..]);
      Some(0 - m)
    else
      var m :- ParseDecimal(t);
      Some(m)
  }

  lemma SignedDecimalOfUnsigned(digits: string, n: nat)
    requires ParseDecimal(digits) == Some(n) && |digits| > 0 && digits[0] != '-'
    ensures SignedDecimal(digits) == Some(n)
  {
  }

  lemma SignedDecimalOfNegated(digits: string, n: nat)
    requires ParseDecimal(digits) == Some(n)
    ensures SignedDecimal(['-'] + digits) == Some(0 - n)
  {
    assert (['-'] + digits)[1..] == digits;
  }

  lemma SignedDecimalOfIntText(i: int)
    ensures SignedDecimal(IntText(i)) == Some(i)
  {
    if i < 0 {
      ParseDecimalOfDecimal(-i);
      SignedDecimalOfNegated(Decimal(-i), -i);
    } else {
      ParseDecimalOfDecimal(i);
      SignedDecimalOfUnsigned(Decimal(i), i);
    }
  }

  lemma ParseIntOfIntText(i: int)
    ensures ParseInt(IntText(i)) == Some(i)
  {
    SignedDecimalOfIntText(i);
  }

  // ---------------------------------------------------------------------------
  // Fields: `-` when absent, `+` and an escaped string when present. A token
  // is a run of fields, read until the text ends.

  function PutField(o: Option<string>, rest: string): (r: string)
    ensures ' ' !in rest ==> ' ' !in r
  {
    match o
    case None => ['-'] + rest
    case Some(x) => ['+'] + PutString(x, rest)
  }

  function TakeField(s: string): (r: Option<(Option<string>, string)>)
    ensures r.Some? ==> |r.value.1| < |s|
  {
    if |s| == 0 then None
    else if s[0] == '-' then Some((None, s[1..]))
    else if s[0] == '+' then
      var p :- TakeString(s[1..]);
      Some((Some(p.0), p.1))
    else None
  }

  lemma TakePutField(o: Option<string>, rest: string)
    ensures TakeField(PutField(o, rest)) == Some((o, rest))
  {
    if o.Some? {
      TakePutString(o.value, rest);
      assert PutField(o, rest)[1..] == PutString(o.value, rest);
    } else {
      assert PutField(o, rest)[1..] == rest;
    }
  }

  lemma PutTakeField(s: string)
    requires TakeField(s).Some?
    ensures PutField(TakeField(s).value.0, TakeField(s).value.1) == s
  {
    if s[0] == '+' {
      PutTakeString(s[1..]);
    }
    assert [s[0]] + s[1..] == s;
  }

  function PutFields(fs: seq<Option<string>>): (r: string)
    ensures ' ' !in r
    ensures fs != [] ==> r != ""
  {
    if fs == [] then "" else PutField(fs[0], PutFields(fs[1..]))
  }

  function TakeFields(s: string): Option<seq<Option<string>>>
    decreases |s|
  {
    if s == "" then Some([])
    else
      var p :- TakeField(s);
      var rest :- TakeFields(p.1);
      Some([p.0] + rest)
  }

  lemma {:induction false} TakePutFields(fs: seq<Option<string>>)
    ensures TakeFields(PutFields(fs)) == Some(fs)
  {
    if fs != [] {
      TakePutField(fs[0], PutFields(fs[1..]));
      TakePutFields(fs[1..]);
      assert [fs[0]] + fs[1..] == fs;
    }
  }

  lemma {:induction false} PutTakeFields(s: string)
    requires TakeFields(s).Some?
    ensures PutFields(TakeFields(s).value) == s
    decreases |s|
  {
    if s != "" {
      var p := TakeField(s).value;
      PutTakeFields(p.1);
      PutTakeField(s);
      var fs := TakeFields(s).value;
      assert fs[0] == p.0 && fs[1..] == TakeFields(p.1).value;
    }
  }

  // ---------------------------------------------------------------------------
  // Claims as fields: a subject is one absent field or its id and its role;
  // `iat`, `exp` and the signature follow the five fixed claims.

  function SubjectFields(o: Option<Subject>): seq<Option<string>> {
    match o
    case None => [None]
    case Some(x) => [Some(x.id), x.role]
  }

  function TakeSubjectFields(fs: seq<Option<string>>): Option<(Option<Subject>, seq<Option<string>>)> {
    if |fs| == 0 then None
    else if fs[0].None? then Some((None, fs[1..]))
    else if |fs| == 1 then None
    else Some((Some(Subject(fs[0].value, fs[1])), fs[2..]))
  }

  function OptIntField(o: Option<int>): Option<string> {
    match o
    case None => None
    case Some(i) => Some(IntText(i))
  }

  function TakeOptIntField(f: Option<string>): Option<Option<int>> {
    match f
    case None => Some(None)
    case Some(t) =>
      var i :- ParseInt(t);
      Some(Some(i))
  }

  function ClaimFields(j: Jws): seq<Option<string>> {
    [j.payload.id, j.payload.role, Some(IntText(j.payload.iat)), OptIntField(j.payload.exp), Some(j.signedWith)]
  }

  function FieldsOf(j: Jws): seq<Option<string>> {
    SubjectFields(j.payload.user) + (SubjectFields(j.payload.dealership) + (SubjectFields(j.payload.admin) + ClaimFields(j)))
  }

  function FromFields(fs: seq<Option<string>>): Option<Jws> {
    var user :- TakeSubjectFields(fs);
    var dealership :- TakeSubjectFields(user.1);
    var admin :- TakeSubjectFields(dealership.1);
    FromClaimFields(user.0, dealership.0, admin.0, admin.1)
  }

  function FromClaimFields(user: Option<Subject>, dealership: Option<Subject>, admin: Option<Subject>,
                           c: seq<Option<string>>): Option<Jws> {
    if |c| != 5 || c[2].None? || c[4].None? then None
    else
      var iat :- ParseInt(c[2].value);
      var exp :- TakeOptIntField(c[3]);
      Some(Jws(Payload(user, dealership, admin, c[0], c[1], iat, exp), c[4].value))
  }

  lemma TakeSubjectFieldsOf(o: Option<Subject>, rest: seq<Option<string>>)
    ensures TakeSubjectFields(SubjectFields(o) + rest) == Some((o, rest))
  {
    assert (SubjectFields(o) + rest)[|SubjectFields(o)|..] == rest;
  }

  lemma SubjectFieldsOfTake(fs: seq<Option<string>>)
    requires TakeSubjectFields(fs).Some?
    ensures SubjectFields(TakeSubjectFields(fs).value.0) + TakeSubjectFields(fs).value.1 == fs
  {
    if fs[0].None? {
      assert [fs[0]] + fs[1..] == fs;
    } else {
      assert [fs[0], fs[1]] + fs[2..] == fs;
    }
  }

  lemma FromFieldsOf(j: Jws)
    ensures FromFields(FieldsOf(j)) == Some(j)
  {
    var p := j.payload;
    var claims := ClaimFields(j);
    var a := SubjectFields(p.admin) + claims;
    var d := SubjectFields(p.dealership) + a;
    TakeSubjectFieldsOf(p.user, d);
    TakeSubjectFieldsOf(p.dealership, a);
    TakeSubjectFieldsOf(p.admin, claims);
    ParseIntOfIntText(p.iat);
    if p.exp.Some? {
      ParseIntOfIntText(p.exp.value);
    }
  }

  lemma OptIntFieldOfTake(f: Option<string>)
    requires TakeOptIntField(f).Some?
    ensures OptIntField(TakeOptIntField(f).value) == f
  {
  }

  lemma ClaimFieldsOfFrom(user: Option<Subject>, dealership: Option<Subject>, admin: Option<Subject>,
                          c: seq<Option<string>>)
    requires FromClaimFields(user, dealership, admin, c).Some?
    ensures var j := FromClaimFields(user, dealership, admin, c).value;
      j.payload.user == user && j.payload.dealership == dealership && j.payload.admin == admin
      && ClaimFields(j) == c
  {
    var iat := ParseInt(c[2].value).value;
    var exp := TakeOptIntField(c[3]).value;
    OptIntFieldOfTake(c[3]);
    var j := Jws(Payload(user, dealership, admin, c[0], c[1], iat, exp), c[4].value);
    assert FromClaimFields(user, dealership, admin, c) == Some(j);
    assert ClaimFields(j) == [c[0], c[1], c[2], c[3], c[4]];
  }

  lemma FieldsOfFrom(fs: seq<Option<string>>)
    requires FromFields(fs).Some?
    ensures FieldsOf(FromFields(fs).value) == fs
  {
    var user := TakeSubjectFields(fs).value;
    var dealership := TakeSubjectFields(user.1).value;
    var admin := TakeSubjectFields(dealership.1).value;
    SubjectFieldsOfTake(fs);
    SubjectFieldsOfTake(user.1);
    SubjectFieldsOfTake(dealership.1);
    ClaimFieldsOfFrom(user.0, dealership.0, admin.0, admin.1);
  }

  // ---------------------------------------------------------------------------
  // The token string.

  /** The compact form of a signed token: never empty, never containing a space. */
  function Encode(j: Jws): (token: string)
    ensures ' ' !in token
    ensures token != ""
  {
    PutFields(FieldsOf(j))
  }

  /** Reads a whole token string; a field that does not read, or a wrong number of fields, is malformed. */
  function Parse(token: string): Option<Jws> {
    var fs :- TakeFields(token);
    FromFields(fs)
  }

  /** Every token reads back as the payload and signature it was written from. */
  lemma ParseEncode(j: Jws)
    ensures Parse(Encode(j)) == Some(j)
  {
    TakePutFields(FieldsOf(j));
    FromFieldsOf(j);
  }

  /** The layout is canonical: a string that parses is exactly the encoding of what it parses to. */
  lemma EncodeParse(token: string)
    requires Parse(token).Some?
    ensures Encode(Parse(token).value) == token
  {
    PutTakeFields(token);
    FieldsOfFrom(TakeFields(token).value);
  }

  /** Distinct signed payloads give distinct token strings. */
  lemma EncodeInjective(a: Jws, b: Jws)
    ensures Encode(a) == Encode(b) ==> a == b
  {
    ParseEncode(a);
    ParseEncode(b);
  }

  /** `jwt.sign(payload, key)`, with `iat` and `exp` already placed in the payload. */
  function Sign(payload: Payload, key: string): string {
    Encode(Jws(payload, key))
  }

  /** `jwt.decode(token)`: the payload without any check; `None` where the library returns null. */
  function Decode(token: string): Option<Payload> {
    var j :- Parse(token);
    Some(j.payload)
  }

  /** Decoding a signed token gives back its payload, whatever key signed it. */
  lemma DecodeSigned(payload: Payload, key: string)
    ensures Decode(Sign(payload, key)) == Some(payload)
  {
    ParseEncode(Jws(payload, key));
  }

  /**
   * `jwt.verify(token, key)` at second `now`: malformed text, a signature made
   * with another key, and `now >= exp` each throw; a token without `exp` never expires.
   */
  function Verify(token: string, key: string, now: int): (r: Result<Payload, VerifyError>)
    ensures r.Success? ==> token == Sign(r.value, key)
    ensures r.Success? ==> r.value.exp.None? || now < r.value.exp.value
  {
    match Parse(token)
    case None => Failure(Malformed)
    case Some(j) =>
      if j.signedWith != key then Failure(InvalidSignature)
      else if j.payload.exp.Some? && now >= j.payload.exp.value then Failure(Expired)
      else
        EncodeParse(token);
        Success(j.payload)
  }

  /** What `Verify` says of a token the process signed, for every key and every instant. */
  lemma VerifySigned(payload: Payload, signingKey: string, key: string, now: int)
    ensures Verify(Sign(payload, signingKey), key, now) ==
      if signingKey != key then Failure(InvalidSignature)
      else if payload.exp.Some? && now >= payload.exp.value then Failure(Expired)
      else Success(payload)
  {
    ParseEncode(Jws(payload, signingKey));
  }
}
