/**
  The other end of the digest exchange: what a server that follows section 3.4.1 of
  RFC 7616 makes of a header that a session printed.
 */
module DigestServer {
  import opened Optional
  import opened Text
  import opened DigestHeader
  import AuthLoop

  const SCHEME := "Digest "

  /** The value of the first parameter with that name. */
  function Find(parts: seq<string>, name: string): Option<string> {
    if parts == [] then None
    else
      match ReadParam(parts[0])
      case None => None
      case Some(x) => if x.0 == name then Some(x.1) else Find(parts[1..], name)
  }

  /** The parameters of a header, if it has the digest scheme. */
  function PartsOf(header: string): seq<string> {
    if SCHEME <= header then SplitFrom(header[|SCHEME|..], "", false, false) else []
  }

  /** What the server knows: the challenge it sent and the user's password. */
  datatype Expectation = Expectation(realm: string, nonce: string, opaqueValue: string, password: string)

  /** What is hashed with the user's secret: user name, realm and password. */
  function Secret(e: Expectation, username: string): string { username + ":" + e.realm + ":" + e.password }

  /** What the server hashes into the response, from the parameters it received; `count` and
      `cnonce` matter only when the request carries a quality of protection. */
  function ResponseInput(h: string -> string, httpMethod: string, e: Expectation, username: string, uri: string,
                         qop: Option<string>, count: string, cnonce: string): string
  {
    var secret, request := h(Secret(e, username)), h(httpMethod + ":" + uri);
    match qop
    case None => secret + ":" + e.nonce + ":" + request
    case Some(q) => secret + ":" + e.nonce + ":" + count + ":" + cnonce + ":" + q + ":" + request
  }

  function OrEmpty(v: Option<string>): string { if v.Some? then v.value else "" }

  /** The header answers the challenge for this request. */
  predicate Accepts(h: string -> string, httpMethod: string, e: Expectation, header: string) {
    var ps := PartsOf(header);
    var username, uri, response := Find(ps, "username"), Find(ps, "uri"), Find(ps, "response");
    && username.Some? && uri.Some?
    && Find(ps, "realm") == Some(e.realm) && Find(ps, "nonce") == Some(e.nonce)
    && Find(ps, "algorithm") == Some("SHA-256")
    && OrEmpty(Find(ps, "opaque")) == e.opaqueValue
    && (Find(ps, "qop") == None || Find(ps, "qop") == Some("auth"))
    && response == Some(h(ResponseInput(h, httpMethod, e, username.value, uri.value, Find(ps, "qop"),
                                        OrEmpty(Find(ps, "nc")), OrEmpty(Find(ps, "cnonce")))))
  }

  // ------------------------------------------------------------- finding parameters

  lemma {:induction false} FindPrinted(ps: seq<Param>, name: string)
    requires forall p :: p in ps ==> Printable(p)
    ensures Find(Prints(ps), name) == Named(ps, name)
  {
    if ps != [] {
      ReadPrinted(ps[0]);
      FindPrinted(ps[1..], name);
      assert Prints(ps)[1..] == Prints(ps[1..]);
    }
  }

  lemma NamedCons(p: Param, rest: seq<Param>, name: string)
    ensures Named([p] + rest, name) == if p.name == name then Some(p.value) else Named(rest, name)
  {
    assert ([p] + rest)[1..] == rest;
  }

  lemma {:induction false} NamedAppend(a: seq<Param>, b: seq<Param>, name: string)
    ensures Named(a + b, name) == if Named(a, name).Some? then Named(a, name) else Named(b, name)
  {
    if a == [] {
      assert a + b == b;
    } else {
      assert (a + b)[1..] == a[1..] + b;
      NamedAppend(a[1..], b, name);
    }
  }

  /** The six parameters that every header has. */
  function Always(username: string, realm: string, nonce: string, uri: string, response: string): seq<Param> {
    [Quoted("username", username), Quoted("realm", realm), Quoted("nonce", nonce), Quoted("uri", uri),
     Bare("algorithm", "SHA-256"), Quoted("response", response)]
  }

  lemma NamedAlways(username: string, realm: string, nonce: string, uri: string, response: string, name: string)
    ensures Named(Always(username, realm, nonce, uri, response), name) ==
      if name == "username" then Some(username) else if name == "realm" then Some(realm)
      else if name == "nonce" then Some(nonce) else if name == "uri" then Some(uri)
      else if name == "algorithm" then Some("SHA-256") else if name == "response" then Some(response) else None
  {
    var ps := Always(username, realm, nonce, uri, response);
    NamedCons(ps[0], ps[1..], name);
    NamedCons(ps[1], ps[2..], name);
    NamedCons(ps[2], ps[3..], name);
    NamedCons(ps[3], ps[4..], name);
    NamedCons(ps[4], ps[5..], name);
    NamedCons(ps[5], ps[6..], name);
    assert ps == [ps[0]] + ps[1..] && ps[1..] == [ps[1]] + ps[2..] && ps[2..] == [ps[2]] + ps[3..];
    assert ps[3..] == [ps[3]] + ps[4..] && ps[4..] == [ps[4]] + ps[5..] && ps[5..] == [ps[5]] + ps[6..];
  }

  function Protection(auth: bool, count: string, cnonce: string): seq<Param> {
    if auth then [Bare("qop", "auth"), Bare("nc", count), Quoted("cnonce", cnonce)] else []
  }

  lemma NamedProtection(auth: bool, count: string, cnonce: string, name: string)
    ensures Named(Protection(auth, count, cnonce), name) ==
      if !auth then None else if name == "qop" then Some("auth") else if name == "nc" then Some(count)
      else if name == "cnonce" then Some(cnonce) else None
  {
    if auth {
      var ps := Protection(auth, count, cnonce);
      NamedCons(ps[0], ps[1..], name);
      NamedCons(ps[1], ps[2..], name);
      NamedCons(ps[2], ps[3..], name);
      assert ps == [ps[0]] + ps[1..] && ps[1..] == [ps[1]] + ps[2..] && ps[2..] == [ps[2]] + ps[3..];
    }
  }

  function Opaque(value: string): seq<Param> { if value != "" then [Quoted("opaque", value)] else [] }

  lemma NamedOpaque(value: string, name: string)
    ensures Named(Opaque(value), name) == if value != "" && name == "opaque" then Some(value) else None
  {
    if value != "" {
      NamedCons(Quoted("opaque", value), [], name);
      assert Opaque(value) == [Quoted("opaque", value)] + [];
    }
  }

  /** A printed header. */
  function Header(x: Challenge, count: nat, h: string -> string, httpMethod: string, uri: string,
                  username: string, password: string): string
  {
    SCHEME + Join(Prints(Parameters(x, count, h, httpMethod, uri, username, password)))
  }

  /** What the server finds in a printed header, by name. */
  lemma FoundInHeader(x: Challenge, count: nat, h: string -> string, httpMethod: string, uri: string,
                      username: string, password: string, name: string)
    ensures Find(PartsOf(Header(x, count, h, httpMethod, uri, username, password)), name) ==
      var a := Named(Always(username, x.realm, x.nonce, uri, Response(x, Hex(count, 8), h, httpMethod, uri, username, password)), name);
      var b := Named(Protection(x.auth, Hex(count, 8), x.cnonce), name);
      if a.Some? then a else if b.Some? then b else Named(Opaque(x.opaqueValue), name)
  {
    var ps := Parameters(x, count, h, httpMethod, uri, username, password);
    var a := Always(username, x.realm, x.nonce, uri, Response(x, Hex(count, 8), h, httpMethod, uri, username, password));
    var b := Protection(x.auth, Hex(count, 8), x.cnonce);
    forall p | p in ps ensures Printable(p) {
      var i :| 0 <= i < |ps| && ps[i] == p;
      ParametersPrintable(x, count, h, httpMethod, uri, username, password, i);
    }
    HeaderRoundTrip(x, count, h, httpMethod, uri, username, password);
    assert Header(x, count, h, httpMethod, uri, username, password)[|SCHEME|..] == Join(Prints(ps));
    FindPrinted(ps, name);
    assert ps == a + b + Opaque(x.opaqueValue);
    NamedAppend(a + b, Opaque(x.opaqueValue), name);
    NamedAppend(a, b, name);
  }

  lemma FoundValue(x: Challenge, count: nat, h: string -> string, httpMethod: string, uri: string,
                   username: string, password: string, name: string)
    ensures Find(PartsOf(Header(x, count, h, httpMethod, uri, username, password)), name) ==
      if name == "username" then Some(username) else if name == "realm" then Some(x.realm)
      else if name == "nonce" then Some(x.nonce) else if name == "uri" then Some(uri)
      else if name == "algorithm" then Some("SHA-256")
      else if name == "response" then Some(Response(x, Hex(count, 8), h, httpMethod, uri, username, password))
      else if name == "qop" && x.auth then Some("auth") else if name == "nc" && x.auth then Some(Hex(count, 8))
      else if name == "cnonce" && x.auth then Some(x.cnonce)
      else if name == "opaque" && x.opaqueValue != "" then Some(x.opaqueValue) else None
  {
    var response := Response(x, Hex(count, 8), h, httpMethod, uri, username, password);
    FoundInHeader(x, count, h, httpMethod, uri, username, password, name);
    NamedAlways(username, x.realm, x.nonce, uri, response, name);
    NamedProtection(x.auth, Hex(count, 8), x.cnonce, name);
    NamedOpaque(x.opaqueValue, name);
  }

  /** For every challenge, user, password, method and URI the printed header answers the
      challenge, and the count the server reads is the count of the session. */
  lemma ServerAccepts(x: Challenge, count: nat, h: string -> string, httpMethod: string, uri: string,
                      username: string, password: string)
    requires count <= AuthLoop.MAX_DIGEST_NONCE_COUNT
    ensures var header := Header(x, count, h, httpMethod, uri, username, password);
      && Accepts(h, httpMethod, Expectation(x.realm, x.nonce, x.opaqueValue, password), header)
      && (x.auth ==> Find(PartsOf(header), "nc").Some? && ParseHex(Find(PartsOf(header), "nc").value) == count)
  {
    FoundValue(x, count, h, httpMethod, uri, username, password, "username");
    FoundValue(x, count, h, httpMethod, uri, username, password, "realm");
    FoundValue(x, count, h, httpMethod, uri, username, password, "nonce");
    FoundValue(x, count, h, httpMethod, uri, username, password, "uri");
    FoundValue(x, count, h, httpMethod, uri, username, password, "algorithm");
    FoundValue(x, count, h, httpMethod, uri, username, password, "response");
    FoundValue(x, count, h, httpMethod, uri, username, password, "qop");
    FoundValue(x, count, h, httpMethod, uri, username, password, "nc");
    FoundValue(x, count, h, httpMethod, uri, username, password, "cnonce");
    FoundValue(x, count, h, httpMethod, uri, username, password, "opaque");
    CountRoundTrip(count);
  }

  predicate Collides(h: string -> string, a: string, b: string) { a != b && h(a) == h(b) }

  lemma SamePrefix(a: string, b: string, s: string, t: string)
    requires |a| == |b| && a + s == b + t
    ensures a == b && s == t
  {
    assert a == (a + s)[..|a|] && b == (b + t)[..|b|];
    assert s == (a + s)[|a|..] && t == (b + t)[|b|..];
  }

  lemma SecretsDiffer(e: Expectation, username: string, other: string)
    requires other != e.password
    ensures Secret(e, username) != Secret(e.(password := other), username)
  {
    var front := username + ":" + e.realm + ":";
    if Secret(e, username) == Secret(e.(password := other), username) {
      SamePrefix(front, front, e.password, other);
    }
  }

  /** Equal inputs to the outer hash begin with equal hashes of the secrets. */
  lemma InputHoldsSecret(h: string -> string, httpMethod: string, e: Expectation, f: Expectation, username: string,
                         uri: string, qop: Option<string>, count: string, cnonce: string)
    requires |h(Secret(e, username))| == |h(Secret(f, username))|
    requires ResponseInput(h, httpMethod, e, username, uri, qop, count, cnonce) ==
             ResponseInput(h, httpMethod, f, username, uri, qop, count, cnonce)
    ensures h(Secret(e, username)) == h(Secret(f, username))
  {
    var a, b := h(Secret(e, username)), h(Secret(f, username));
    var i, j := ResponseInput(h, httpMethod, e, username, uri, qop, count, cnonce), ResponseInput(h, httpMethod, f, username, uri, qop, count, cnonce);
    assert i[..|a|] == a && j[..|b|] == b;
  }

  /** A header is accepted under another password only through a hash collision on the
      secrets or on the response inputs. */
  lemma OtherPasswordNeedsCollision(x: Challenge, count: nat, h: string -> string, httpMethod: string, uri: string,
                                    username: string, password: string, other: string)
    requires count <= AuthLoop.MAX_DIGEST_NONCE_COUNT && other != password
    requires |h(username + ":" + x.realm + ":" + password)| == |h(username + ":" + x.realm + ":" + other)|
    requires var e := Expectation(x.realm, x.nonce, x.opaqueValue, other);
      Accepts(h, httpMethod, e, Header(x, count, h, httpMethod, uri, username, password))
    ensures var e := Expectation(x.realm, x.nonce, x.opaqueValue, password);
      var f := e.(password := other);
      var qop := if x.auth then Some("auth") else None;
      var nc, cnonce := if x.auth then Hex(count, 8) else "", if x.auth then x.cnonce else "";
      || Collides(h, Secret(e, username), Secret(f, username))
      || Collides(h, ResponseInput(h, httpMethod, e, username, uri, qop, nc, cnonce),
                     ResponseInput(h, httpMethod, f, username, uri, qop, nc, cnonce))
  {
    var e := Expectation(x.realm, x.nonce, x.opaqueValue, password);
    var f := e.(password := other);
    var qop := if x.auth then Some("auth") else None;
    var nc, cnonce := if x.auth then Hex(count, 8) else "", if x.auth then x.cnonce else "";
    FoundValue(x, count, h, httpMethod, uri, username, password, "username");
    FoundValue(x, count, h, httpMethod, uri, username, password, "uri");
    FoundValue(x, count, h, httpMethod, uri, username, password, "response");
    FoundValue(x, count, h, httpMethod, uri, username, password, "qop");
    FoundValue(x, count, h, httpMethod, uri, username, password, "nc");
    FoundValue(x, count, h, httpMethod, uri, username, password, "cnonce");
    SecretsDiffer(e, username, other);
    assert Secret(e, username) == username + ":" + x.realm + ":" + password;
    if ResponseInput(h, httpMethod, e, username, uri, qop, nc, cnonce) == ResponseInput(h, httpMethod, f, username, uri, qop, nc, cnonce) {
      InputHoldsSecret(h, httpMethod, e, f, username, uri, qop, nc, cnonce);
    }
  }
}
