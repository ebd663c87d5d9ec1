/**
  The Authorization header that a digest session prints, and the quote-aware
  splitter that takes such a parameter list apart again.
 */
module DigestHeader {
  import opened Optional
  import opened Text
  import AuthLoop

  // ------------------------------------------------------------- quoting

  /** strings.ReplaceAll for a one-character pattern. */
  function ReplaceAll(s: string, c: char, repl: string): string {
    if s == [] then [] else (if s[0] == c then repl else [s[0]]) + ReplaceAll(s[1..], c, repl)
  }

  function EscapeDigest(s: string): string {
    ReplaceAll(ReplaceAll(s, '\\', "\\\\"), '"', "\\\"")
  }

  /** What quoting does to one character. */
  function Quote(c: char): string {
    if c == '\\' || c == '"' then ['\\', c] else [c]
  }

  /** Undoing quoted pairs: section 5.6.4 of RFC 9110. */
  function Unescape(s: string): Option<string> {
    if s == [] then Some([])
    else if s[0] == '\\' then
      if |s| == 1 then None
      else match Unescape(s[2..]) case Some(t) => Some([s[1]] + t) case None => None
    else match Unescape(s[1..]) case Some(t) => Some([s[0]] + t) case None => None
  }

  lemma {:induction false} ReplaceAppend(a: string, b: string, c: char, repl: string)
    ensures ReplaceAll(a + b, c, repl) == ReplaceAll(a, c, repl) + ReplaceAll(b, c, repl)
  {
    if a == [] {
      assert a + b == b;
    } else {
      assert (a + b)[1..] == a[1..] + b;
      ReplaceAppend(a[1..], b, c, repl);
    }
  }

  /** The two passes of escapeDigest quote character by character. */
  lemma EscapeCons(s: string)
    requires s != []
    ensures EscapeDigest(s) == Quote(s[0]) + EscapeDigest(s[1..])
  {
    var head := if s[0] == '\\' then "\\\\" else [s[0]];
    var rest := ReplaceAll(s[1..], '\\', "\\\\");
    ReplaceAppend(head, rest, '"', "\\\"");
    assert ReplaceAll([s[0]], '"', "\\\"") == (if s[0] == '"' then "\\\"" else [s[0]]) + ReplaceAll([], '"', "\\\"");
    assert ReplaceAll("\\\\", '"', "\\\"") == "\\\\" by {
      assert "\\\\"[1..] == "\\";
      assert "\\"[1..] == "";
    }
  }

  lemma {:induction false} UnescapeEscape(s: string)
    ensures Unescape(EscapeDigest(s)) == Some(s)
  {
    if s != [] {
      EscapeCons(s);
      UnescapeEscape(s[1..]);
      var e := EscapeDigest(s);
      assert e[|Quote(s[0])|..] == EscapeDigest(s[1..]);
      assert [s[0]] + s[1..] == s;
    }
  }

  // ------------------------------------------------------------ parameters

  datatype Param = Quoted(name: string, value: string) | Bare(name: string, value: string)

  function Print(p: Param): string {
    match p
    case Quoted(name, value) => name + "=\"" + EscapeDigest(value) + "\""
    case Bare(name, value) => name + "=" + value
  }

  function Prints(ps: seq<Param>): (r: seq<string>)
    ensures |r| == |ps| && forall i :: 0 <= i < |ps| ==> r[i] == Print(ps[i])
  {
    if ps == [] then [] else [Print(ps[0])] + Prints(ps[1..])
  }

  function Join(parts: seq<string>): string
    requires parts != []
  {
    if |parts| == 1 then parts[0] else parts[0] + ", " + Join(parts[1..])
  }

  /** A character that means nothing to the splitter. */
  predicate Ordinary(c: char) { c != '\\' && c != '"' && c != ',' && c != '=' && !IsSpace(c) }

  predicate IsToken(s: string) { s != [] && forall i :: 0 <= i < |s| ==> Ordinary(s[i]) }

  predicate Printable(p: Param) {
    IsToken(p.name) && (p.Bare? ==> IsToken(p.value))
  }

  // ---------------------------------------------------------- the splitter

  function Flush(b: string): seq<string> {
    if TrimSpace(b) != "" then [TrimSpace(b)] else []
  }

  /** The parts that splitDigestHeader still produces from `s` in a given state. */
  function SplitFrom(s: string, b: string, inQuote: bool, escaped: bool): seq<string> {
    if s == [] then Flush(b)
    else
      var c := s[0];
      if escaped then SplitFrom(s[1..], b + [c], inQuote, false)
      else if c == '\\' then SplitFrom(s[1..], b + [c], inQuote, true)
      else if c == '"' then SplitFrom(s[1..], b + [c], !inQuote, false)
      else if c == ',' && !inQuote then [TrimSpace(b)] + SplitFrom(s[1..], "", inQuote, false)
      else SplitFrom(s[1..], b + [c], inQuote, false)
  }

  method SplitDigestHeader(s: string) returns (parts: seq<string>)
    ensures parts == SplitFrom(s, "", false, false)
  {
    parts := [];
    var b := "";
    var inQuote, escaped := false, false;
    for i := 0 to |s|
      invariant SplitFrom(s, "", false, false) == parts + SplitFrom(s[i..], b, inQuote, escaped)
    {
      var r := s[i];
      assert s[i..][0] == r && s[i..][1..] == s[i + 1..];
      if escaped {
        b := b + [r];
        escaped := false;
      } else if r == '\\' {
        b := b + [r];
        escaped := true;
      } else if r == '"' {
        b := b + [r];
        inQuote := !inQuote;
      } else if r == ',' && !inQuote {
        parts := parts + [TrimSpace(b)];
        b := "";
      } else {
        b := b + [r];
      }
    }
    if TrimSpace(b) != "" {
      parts := parts + [TrimSpace(b)];
    }
  }

  /** One turn of the loop. */
  lemma Turn(c: char, rest: string, b: string, inQuote: bool, escaped: bool)
    ensures SplitFrom([c] + rest, b, inQuote, escaped) ==
      if escaped then SplitFrom(rest, b + [c], inQuote, false)
      else if c == '\\' then SplitFrom(rest, b + [c], inQuote, true)
      else if c == '"' then SplitFrom(rest, b + [c], !inQuote, false)
      else if c == ',' && !inQuote then [TrimSpace(b)] + SplitFrom(rest, "", inQuote, false)
      else SplitFrom(rest, b + [c], inQuote, false)
  {
    assert ([c] + rest)[1..] == rest;
  }

  lemma {:induction false} ScanOrdinary(w: string, rest: string, b: string)
    requires forall i :: 0 <= i < |w| ==> Ordinary(w[i]) || w[i] == '='
    ensures SplitFrom(w + rest, b, false, false) == SplitFrom(rest, b + w, false, false)
  {
    if w == [] {
      assert w + rest == rest && b + w == b;
    } else {
      assert w + rest == [w[0]] + (w[1..] + rest);
      Turn(w[0], w[1..] + rest, b, false, false);
      ScanOrdinary(w[1..], rest, b + [w[0]]);
      assert b + [w[0]] + w[1..] == b + w;
    }
  }

  /** A quoted value is passed over whole, whatever it holds. */
  lemma {:induction false} ScanQuoted(v: string, rest: string, b: string)
    ensures SplitFrom(EscapeDigest(v) + rest, b, true, false) == SplitFrom(rest, b + EscapeDigest(v), true, false)
  {
    if v == [] {
      assert EscapeDigest(v) + rest == rest && b + EscapeDigest(v) == b;
    } else {
      EscapeCons(v);
      ScanQuoted(v[1..], rest, b + Quote(v[0]));
      ScanOneMore(v[0], EscapeDigest(v[1..]), rest, b);
    }
  }

  lemma ScanOneMore(c: char, e: string, rest: string, b: string)
    requires SplitFrom(e + rest, b + Quote(c), true, false) == SplitFrom(rest, b + Quote(c) + e, true, false)
    ensures SplitFrom(Quote(c) + e + rest, b, true, false) == SplitFrom(rest, b + (Quote(c) + e), true, false)
  {
    ScanQuote(c, e + rest, b);
    assert Quote(c) + e + rest == Quote(c) + (e + rest);
    assert b + (Quote(c) + e) == b + Quote(c) + e;
  }

  lemma ScanQuote(c: char, rest: string, b: string)
    ensures SplitFrom(Quote(c) + rest, b, true, false) == SplitFrom(rest, b + Quote(c), true, false)
  {
    if |Quote(c)| == 1 {
      Turn(c, rest, b, true, false);
    } else {
      assert Quote(c) + rest == ['\\'] + ([c] + rest);
      Turn('\\', [c] + rest, b, true, false);
      Turn(c, rest, b + ['\\'], true, true);
      assert b + ['\\'] + [c] == b + Quote(c);
    }
  }

  lemma ScanParam(p: Param, rest: string, b: string)
    requires Printable(p)
    ensures SplitFrom(Print(p) + rest, b, false, false) == SplitFrom(rest, b + Print(p), false, false)
  {
    match p {
      case Bare(name, value) =>
        ScanOrdinary(name + "=" + value, rest, b);
      case Quoted(name, value) =>
        var e := EscapeDigest(value);
        var b1 := b + (name + "=");
        assert Print(p) + rest == (name + "=") + (['"'] + (e + (['"'] + rest)));
        ScanOrdinary(name + "=", ['"'] + (e + (['"'] + rest)), b);
        Turn('"', e + (['"'] + rest), b1, false, false);
        ScanQuoted(value, ['"'] + rest, b1 + ['"']);
        Turn('"', rest, b1 + ['"'] + e, true, false);
        assert b1 + ['"'] + e + ['"'] == b + Print(p);
    }
  }

  lemma PrintTrimmed(p: Param)
    requires Printable(p)
    ensures Print(p) != [] && Trimmed(Print(p))
  {
    var s := Print(p);
    assert s[0] == p.name[0];
    if p.Bare? {
      assert s[|s| - 1] == p.value[|p.value| - 1];
    } else {
      assert s[|s| - 1] == '"';
    }
  }

  /** At the end of a parameter the part collected so far is flushed. */
  lemma FlushParam(p: Param, lead: string)
    requires Printable(p) && (lead == "" || lead == " ")
    ensures TrimSpace(lead + Print(p)) == Print(p) != ""
  {
    PrintTrimmed(p);
    TrimTrimmed(Print(p));
    TrimLeading(Print(p));
    assert "" + Print(p) == Print(p);
  }

  /** Splitting a printed parameter list gives back exactly the printed parameters. */
  lemma {:induction false} SplitJoin(ps: seq<Param>, lead: string)
    requires ps != [] && (forall p :: p in ps ==> Printable(p)) && (lead == "" || lead == " ")
    ensures SplitFrom(Join(Prints(ps)), lead, false, false) == Prints(ps)
  {
    var p := ps[0];
    FlushParam(p, lead);
    if |ps| == 1 {
      ScanParam(p, "", lead);
      assert Join(Prints(ps)) == Print(p) + "";
    } else {
      var more := Join(Prints(ps[1..]));
      assert Prints(ps)[1..] == Prints(ps[1..]);
      assert Join(Prints(ps)) == Print(p) + ([','] + ([' '] + more));
      SplitJoin(ps[1..], " ");
      NextParam(p, more, lead);
    }
  }

  lemma NextParam(p: Param, more: string, lead: string)
    requires Printable(p) && (lead == "" || lead == " ")
    ensures SplitFrom(Print(p) + ([','] + ([' '] + more)), lead, false, false) ==
      [Print(p)] + SplitFrom(more, " ", false, false)
  {
    ScanParam(p, [','] + ([' '] + more), lead);
    FlushParam(p, lead);
    Turn(',', [' '] + more, lead + Print(p), false, false);
    Turn(' ', more, "", false, false);
    assert "" + [' '] == " ";
  }

  // ------------------------------------------------------ reading one parameter

  /** strings.Cut at the first '='. */
  function CutName(part: string): Option<(string, string)> {
    if part == [] then None
    else if part[0] == '=' then Some(([], part[1..]))
    else match CutName(part[1..])
         case Some(x) => Some(([part[0]] + x.0, x.1))
         case None => None
  }

  lemma {:induction false} CutNameFinds(name: string, raw: string)
    requires '=' !in name
    ensures CutName(name + "=" + raw) == Some((name, raw))
  {
    var s := name + "=" + raw;
    if name == [] {
      assert s[0] == '=' && s[1..] == raw;
    } else {
      assert s[1..] == name[1..] + "=" + raw;
      CutNameFinds(name[1..], raw);
      assert [name[0]] + name[1..] == name;
    }
  }

  /** Reads a parameter value: strip the quotes and undo the quoted pairs. */
  function ReadValue(raw: string): Option<string> {
    if raw == [] || raw[0] != '"' then Some(raw)
    else if |raw| < 2 || raw[|raw| - 1] != '"' then None
    else Unescape(raw[1..|raw| - 1])
  }

  function ReadParam(part: string): Option<(string, string)> {
    match CutName(part)
    case None => None
    case Some(x) =>
      match ReadValue(x.1)
      case None => None
      case Some(v) => Some((x.0, v))
  }

  /** Reading a printed parameter recovers its name and its original value. */
  lemma ReadPrinted(p: Param)
    requires Printable(p)
    ensures ReadParam(Print(p)) == Some((p.name, p.value))
  {
    if p.Quoted? {
      var e := EscapeDigest(p.value);
      var raw := "\"" + e + "\"";
      assert Print(p) == p.name + "=" + raw;
      CutNameFinds(p.name, raw);
      assert raw[1..|raw| - 1] == e;
      UnescapeEscape(p.value);
    } else {
      CutNameFinds(p.name, p.value);
      assert Ordinary(p.value[0]);
    }
  }

  /** The value of the first parameter with that name. */
  function Named(ps: seq<Param>, name: string): Option<string> {
    if ps == [] then None else if ps[0].name == name then Some(ps[0].value) else Named(ps[1..], name)
  }

  // ------------------------------------------------------- the session's header

  const HEX := "0123456789abcdef"

  /** `n` in `width` lower-case hexadecimal digits, more significant digits cut off. */
  function Hex(n: nat, width: nat): (s: string)
    ensures |s| == width && forall c :: c in s ==> c in HEX
  {
    if width == 0 then [] else Hex(n / 16, width - 1) + [HEX[n % 16]]
  }

  function DigitValue(c: char): nat {
    if '0' <= c <= '9' then c as nat - '0' as nat else if 'a' <= c <= 'f' then c as nat - 'a' as nat + 10 else 0
  }

  function ParseHex(s: string): nat {
    if s == [] then 0 else ParseHex(s[..|s| - 1]) * 16 + DigitValue(s[|s| - 1])
  }

  function Power16(width: nat): nat { if width == 0 then 1 else 16 * Power16(width - 1) }

  lemma {:induction false} ParsePrintHex(n: nat, width: nat)
    requires n < Power16(width)
    ensures ParseHex(Hex(n, width)) == n
  {
    if width > 0 {
      ParsePrintHex(n / 16, width - 1);
      var s := Hex(n, width);
      assert s[..|s| - 1] == Hex(n / 16, width - 1);
      assert DigitValue(HEX[n % 16]) == n % 16;
    }
  }

  /** The fields of a digest session other than its count. */
  datatype Challenge = Challenge(realm: string, nonce: string, auth: bool, opaqueValue: string, cnonce: string)

  /** The digest response; `h` stands for the hexadecimal SHA-256 of a string. */
  function Response(x: Challenge, nc: string, h: string -> string, httpMethod: string, uri: string,
                    username: string, password: string): string
  {
    var ha1 := h(username + ":" + x.realm + ":" + password);
    var ha2 := h(httpMethod + ":" + uri);
    if x.auth then h(ha1 + ":" + x.nonce + ":" + nc + ":" + x.cnonce + ":" + "auth" + ":" + ha2)
    else h(ha1 + ":" + x.nonce + ":" + ha2)
  }

  /** The parameters of the header that carries count `count`, in printing order. */
  function Parameters(x: Challenge, count: nat, h: string -> string, httpMethod: string, uri: string,
                      username: string, password: string): seq<Param>
  {
    [Quoted("username", username), Quoted("realm", x.realm), Quoted("nonce", x.nonce), Quoted("uri", uri),
     Bare("algorithm", "SHA-256"), Quoted("response", Response(x, Hex(count, 8), h, httpMethod, uri, username, password))]
    + (if x.auth then [Bare("qop", "auth"), Bare("nc", Hex(count, 8)), Quoted("cnonce", x.cnonce)] else [])
    + (if x.opaqueValue != "" then [Quoted("opaque", x.opaqueValue)] else [])
  }

  class DigestSession {
    const challenge: Challenge
    const createdAt: int
    var nonceCount: nat

    constructor (challenge: Challenge, now: int)
      ensures nonceCount == 0 && this.challenge == challenge && createdAt == now
    {
      this.challenge, this.createdAt, this.nonceCount := challenge, now, 0;
    }

    predicate Expired(now: int)
      reads this
    {
      AuthLoop.Expired(AuthLoop.Session(nonceCount, createdAt), now)
    }

    /** None is the "nonce count exhausted" error. */
    method NextAuthorizationHeader(h: string -> string, httpMethod: string, uri: string,
                                   username: string, password: string) returns (header: Option<string>)
      modifies this
      ensures old(nonceCount) >= AuthLoop.MAX_DIGEST_NONCE_COUNT ==> header == None && nonceCount == old(nonceCount)
      ensures old(nonceCount) < AuthLoop.MAX_DIGEST_NONCE_COUNT ==>
        && nonceCount == old(nonceCount) + 1
        && header == Some("Digest " + Join(Prints(Parameters(challenge, nonceCount, h, httpMethod, uri, username, password))))
    {
      if nonceCount >= AuthLoop.MAX_DIGEST_NONCE_COUNT {
        return None;
      }
      nonceCount := nonceCount + 1;
      header := Some("Digest " + Join(Prints(Parameters(challenge, nonceCount, h, httpMethod, uri, username, password))));
    }
  }

  lemma FirstNamesAreTokens()
    ensures IsToken("username") && IsToken("realm") && IsToken("nonce") && IsToken("uri") && IsToken("algorithm")
  {
  }

  lemma LaterNamesAreTokens()
    ensures IsToken("response") && IsToken("qop") && IsToken("nc") && IsToken("cnonce") && IsToken("opaque")
  {
  }

  lemma NamesAreTokens()
    ensures IsToken("username") && IsToken("realm") && IsToken("nonce") && IsToken("uri") && IsToken("algorithm")
    ensures IsToken("response") && IsToken("qop") && IsToken("nc") && IsToken("cnonce") && IsToken("opaque")
    ensures IsToken("SHA-256") && IsToken("auth")
  {
    FirstNamesAreTokens();
    LaterNamesAreTokens();
  }

  lemma HexIsToken(s: string)
    requires s != [] && forall c :: c in s ==> c in HEX
    ensures IsToken(s)
  {
    forall i | 0 <= i < |s| ensures Ordinary(s[i]) {
      assert s[i] in HEX;
    }
  }

  /** The response is printed without escaping; being hexadecimal it needs none. */
  lemma {:induction false} HexNeedsNoEscape(s: string)
    requires forall c :: c in s ==> c in HEX
    ensures EscapeDigest(s) == s
  {
    if s != [] {
      assert s[0] in s && s[0] in HEX;
      EscapeCons(s);
      HexNeedsNoEscape(s[1..]);
    }
  }

  lemma ParametersPrintable(x: Challenge, count: nat, h: string -> string, httpMethod: string, uri: string,
                            username: string, password: string, i: nat)
    requires i < |Parameters(x, count, h, httpMethod, uri, username, password)|
    ensures Printable(Parameters(x, count, h, httpMethod, uri, username, password)[i])
  {
    var p := Parameters(x, count, h, httpMethod, uri, username, password)[i];
    NamesAreTokens();
    HexIsToken(Hex(count, 8));
  }

  /** The header round trip: for every user name, realm, nonce, URI and opaque value the
      splitter returns the printed parameters in order, and each reads back as printed. */
  lemma HeaderRoundTrip(x: Challenge, count: nat, h: string -> string, httpMethod: string, uri: string,
                        username: string, password: string)
    ensures var ps := Parameters(x, count, h, httpMethod, uri, username, password);
      && SplitFrom(Join(Prints(ps)), "", false, false) == Prints(ps)
      && forall i :: 0 <= i < |ps| ==> ReadParam(Prints(ps)[i]) == Some((ps[i].name, ps[i].value))
  {
    var ps := Parameters(x, count, h, httpMethod, uri, username, password);
    forall i | 0 <= i < |ps| ensures Printable(ps[i]) {
      ParametersPrintable(x, count, h, httpMethod, uri, username, password, i);
    }
    SplitJoin(ps, "");
    forall i | 0 <= i < |ps| ensures ReadParam(Prints(ps)[i]) == Some((ps[i].name, ps[i].value)) {
      ReadPrinted(ps[i]);
    }
  }

  /** The printed count reads back as the count, so different counts print differently. */
  lemma CountRoundTrip(count: nat)
    requires count <= AuthLoop.MAX_DIGEST_NONCE_COUNT
    ensures ParseHex(Hex(count, 8)) == count
  {
    assert Power16(4) == 65536;
    assert Power16(8) >= Power16(4);
    ParsePrintHex(count, 8);
  }
}
