/**
  Reading a digest challenge: parseDigestChallenge and newDigestSession. The parser strips
  quotes but does not undo quoted pairs, so a challenge is read back exactly when its
  quoted values hold neither quotes nor backslashes.
 */
module DigestChallenge {
  import opened Optional
  import opened Text
  import opened DigestHeader

  function TrimQuotesLeft(s: string): string {
    if s == [] || s[0] != '"' then s else TrimQuotesLeft(s[1..])
  }

  function TrimQuotesRight(s: string): (t: string)
    ensures t <= s
  {
    if s == [] || s[|s| - 1] != '"' then s else TrimQuotesRight(s[..|s| - 1])
  }

  /** strings.Trim with a double quote as the cutset. */
  function TrimQuotes(s: string): string { TrimQuotesRight(TrimQuotesLeft(s)) }

  const SCHEME := "digest "

  /** The header without its scheme. */
  function Stripped(header: string): string {
    var h := TrimSpace(header);
    if SCHEME <= ToLower(h) then TrimSpace(h[|SCHEME|..]) else h
  }

  /** One part of the list: nothing without '=', and a repeated name overrides. */
  function AddPart(params: map<string, string>, part: string): map<string, string> {
    match CutName(part)
    case None => params
    case Some(x) => params[ToLower(TrimSpace(x.0)) := TrimQuotes(TrimSpace(x.1))]
  }

  function ParamsOf(parts: seq<string>): map<string, string> {
    if parts == [] then map[] else AddPart(ParamsOf(parts[..|parts| - 1]), parts[|parts| - 1])
  }

  function ParseDigestChallenge(header: string): map<string, string> {
    ParamsOf(SplitFrom(Stripped(header), "", false, false))
  }

  method ReadChallenge(header: string) returns (result: map<string, string>)
    ensures result == ParseDigestChallenge(header)
  {
    result := map[];
    var h := TrimSpace(header);
    if SCHEME <= ToLower(h) {
      h := TrimSpace(h[|SCHEME|..]);
    }
    var parts := SplitDigestHeader(h);
    for i := 0 to |parts|
      invariant result == ParamsOf(parts[..i])
    {
      assert parts[..i + 1][..i] == parts[..i];
      var cut := CutName(parts[i]);
      if cut == None {
        continue;
      }
      var key := ToLower(TrimSpace(cut.value.0));
      var value := TrimQuotes(TrimSpace(cut.value.1));
      result := result[key := value];
    }
    assert parts[..|parts|] == parts;
  }

  // ------------------------------------------------------------ the session

  /** strings.Split at commas. */
  function SplitComma(s: string): (parts: seq<string>)
    ensures parts != []
  {
    if s == [] then [""]
    else
      var rest := SplitComma(s[1..]);
      if s[0] == ',' then [""] + rest else [[s[0]] + rest[0]] + rest[1..]
  }

  /** strings.EqualFold. */
  predicate EqualFold(a: string, b: string) { ToLower(a) == ToLower(b) }

  predicate OffersAuth(qopRaw: string) {
    exists i :: 0 <= i < |SplitComma(qopRaw)| && EqualFold(TrimSpace(SplitComma(qopRaw)[i]), "auth")
  }

  method ChooseDigestQop(qopRaw: string) returns (qop: string)
    ensures qop == if OffersAuth(qopRaw) then "auth" else ""
  {
    var parts := SplitComma(qopRaw);
    for i := 0 to |parts|
      invariant forall k :: 0 <= k < i ==> !EqualFold(TrimSpace(parts[k]), "auth")
    {
      if EqualFold(TrimSpace(parts[i]), "auth") {
        return "auth";
      }
    }
    qop := "";
  }

  datatype Made = Made(x: Challenge) | MissingRealm | MissingNonce | BadAlgorithm(algorithm: string) | BadQop(qop: string) | NoRandom

  function ValueOf(params: map<string, string>, name: string): string {
    if name in params then params[name] else ""
  }

  /** newDigestSession; `random` is the client nonce, None when randomness fails. */
  function SessionOf(params: map<string, string>, random: Option<string>): Made {
    var realm, nonce, algorithm, qop := ValueOf(params, "realm"), ValueOf(params, "nonce"), ValueOf(params, "algorithm"), ValueOf(params, "qop");
    if realm == "" then MissingRealm
    else if nonce == "" then MissingNonce
    else if algorithm != "" && !EqualFold(algorithm, "SHA-256") then BadAlgorithm(algorithm)
    else if TrimSpace(qop) != "" && !OffersAuth(qop) then BadQop(qop)
    else if OffersAuth(qop) && random == None then NoRandom
    else Made(Challenge(realm, nonce, OffersAuth(qop), ValueOf(params, "opaque"), if OffersAuth(qop) then random.value else ""))
  }

  method NewDigestSession(header: string, random: Option<string>) returns (made: Made)
    ensures made == SessionOf(ParseDigestChallenge(header), random)
  {
    var params := ReadChallenge(header);
    var realm, nonce := ValueOf(params, "realm"), ValueOf(params, "nonce");
    var algorithm, qopRaw := ValueOf(params, "algorithm"), ValueOf(params, "qop");
    if realm == "" {
      return MissingRealm;
    }
    if nonce == "" {
      return MissingNonce;
    }
    if algorithm == "" {
      algorithm := "SHA-256";
    }
    if !EqualFold(algorithm, "SHA-256") {
      return BadAlgorithm(algorithm);
    }
    var qop := ChooseDigestQop(qopRaw);
    if TrimSpace(qopRaw) != "" && qop == "" {
      return BadQop(qopRaw);
    }
    var cnonce := "";
    if qop == "auth" {
      if random == None {
        return NoRandom;
      }
      cnonce := random.value;
    }
    made := Made(Challenge(realm, nonce, qop == "auth", ValueOf(params, "opaque"), cnonce));
  }

  // ------------------------------------------------- what the parser recovers

  /** Neither quotes nor backslashes: a value that needs no quoted pair. */
  predicate Plain(v: string) { '"' !in v && '\\' !in v }

  lemma {:induction false} EscapeLength(v: string)
    ensures |EscapeDigest(v)| >= |v|
    ensures Plain(v) ==> EscapeDigest(v) == v
    ensures !Plain(v) ==> |EscapeDigest(v)| > |v|
    ensures EscapeDigest(v) != [] ==> EscapeDigest(v)[0] != '"'
  {
    if v != [] {
      EscapeCons(v);
      EscapeLength(v[1..]);
      assert v == [v[0]] + v[1..];
    }
  }

  lemma {:induction false} EscapeSnoc(v: string, c: char)
    ensures EscapeDigest(v + [c]) == EscapeDigest(v) + Quote(c)
  {
    if v == [] {
      assert v + [c] == [c];
      EscapeCons([c]);
    } else {
      assert (v + [c])[1..] == v[1..] + [c];
      EscapeCons(v + [c]);
      EscapeCons(v);
      EscapeSnoc(v[1..], c);
    }
  }

  /** What is left of a quoted value when the parser has stripped its quotes: the escaped
      text, less one quote if the value ends with one. */
  function Received(p: Param): string {
    match p
    case Bare(_, value) => value
    case Quoted(_, value) =>
      var e := EscapeDigest(value);
      if value != [] && value[|value| - 1] == '"' then e[..|e| - 1] else e
  }

  lemma QuoteEnds(v: string)
    requires v != []
    ensures var e, last := EscapeDigest(v), v[|v| - 1];
      && e != [] && e[|e| - 1] == last
      && (last == '"' ==> |e| >= 2 && e[|e| - 2] == '\\')
  {
    EscapeSnoc(v[..|v| - 1], v[|v| - 1]);
    assert v == v[..|v| - 1] + [v[|v| - 1]];
  }

  lemma StripLeft(e: string)
    requires e == [] || e[0] != '"'
    ensures TrimQuotesLeft("\"" + e + "\"") == if e == [] then [] else e + "\""
  {
    var s := "\"" + e + "\"";
    assert s[1..] == e + "\"";
    assert TrimQuotesLeft(s) == TrimQuotesLeft(e + "\"");
    if e == [] {
      var q := e + "\"";
      assert q[1..] == [];
      assert TrimQuotesLeft(q) == TrimQuotesLeft(q[1..]);
    }
  }

  lemma TrimOne(s: string)
    requires s != [] && s[|s| - 1] == '"'
    ensures TrimQuotesRight(s) == TrimQuotesRight(s[..|s| - 1])
  {
  }

  lemma TrimNone(s: string)
    requires s == [] || s[|s| - 1] != '"'
    ensures TrimQuotesRight(s) == s
  {
  }

  lemma StripRight(e: string)
    requires e != []
    requires e[|e| - 1] == '"' ==> |e| >= 2 && e[|e| - 2] != '"'
    ensures TrimQuotesRight(e + "\"") == if e[|e| - 1] == '"' then e[..|e| - 1] else e
  {
    var s := e + "\"";
    TrimOne(s);
    assert s[..|s| - 1] == e;
    if e[|e| - 1] == '"' {
      TrimOne(e);
      TrimNone(e[..|e| - 1]);
    } else {
      TrimNone(e);
    }
  }

  lemma StripQuotes(v: string)
    ensures TrimQuotes("\"" + EscapeDigest(v) + "\"") == Received(Quoted("", v))
  {
    var e := EscapeDigest(v);
    EscapeLength(v);
    StripLeft(e);
    if v != [] {
      QuoteEnds(v);
      StripRight(e);
    }
  }

  /** A quoted value is recovered exactly when it is plain. */
  lemma RecoveredExactly(v: string)
    ensures TrimQuotes("\"" + EscapeDigest(v) + "\"") == v <==> Plain(v)
    ensures v != "" <==> TrimQuotes("\"" + EscapeDigest(v) + "\"") != ""
  {
    StripQuotes(v);
    EscapeLength(v);
    if v != [] {
      QuoteEnds(v);
      if v[|v| - 1] == '"' {
        var r := EscapeDigest(v)[..|EscapeDigest(v)| - 1];
        assert r[|r| - 1] == '\\';
        assert v[|v| - 1] in v;
      }
    }
  }

  // -------------------------------------------------- a printed challenge

  ghost predicate Challenging(ps: seq<Param>) {
    && ps != []
    && (forall p :: p in ps ==> Readable(p))
    && (forall i, j :: 0 <= i < j < |ps| ==> ps[i].name != ps[j].name)
  }

  lemma TokenTrimmed(s: string)
    requires IsToken(s)
    ensures TrimSpace(s) == s && '=' !in s && '"' !in s
  {
    TrimTrimmed(s);
  }

  lemma BareUnquoted(s: string)
    requires IsToken(s)
    ensures TrimQuotes(s) == s
  {
    assert s[0] != '"' && s[|s| - 1] != '"';
  }

  lemma NamedAdded(params: map<string, string>, name: string, raw: string)
    requires IsToken(name) && ToLower(name) == name && Trimmed(raw)
    ensures AddPart(params, name + "=" + raw) == params[name := TrimQuotes(raw)]
  {
    TokenTrimmed(name);
    CutNameFinds(name, raw);
    TrimTrimmed(raw);
  }

  lemma QuotedAdded(params: map<string, string>, name: string, value: string)
    requires IsToken(name) && ToLower(name) == name
    ensures AddPart(params, Print(Quoted(name, value))) == params[name := Received(Quoted(name, value))]
  {
    var raw := "\"" + EscapeDigest(value) + "\"";
    assert Print(Quoted(name, value)) == name + "=" + raw;
    assert raw[|raw| - 1] == '"';
    NamedAdded(params, name, raw);
    StripQuotes(value);
  }

  lemma PartAdded(params: map<string, string>, p: Param)
    requires Readable(p)
    ensures AddPart(params, Print(p)) == params[p.name := Received(p)]
  {
    match p {
      case Bare(name, value) =>
        NamedAdded(params, name, value);
        BareUnquoted(value);
      case Quoted(name, value) => QuotedAdded(params, name, value);
    }
  }

  lemma {:induction false} PrintsSnoc(ps: seq<Param>, p: Param)
    ensures Prints(ps + [p]) == Prints(ps) + [Print(p)]
  {
  }

  function Names(ps: seq<Param>): (ns: seq<string>)
    ensures |ns| == |ps|
  {
    if ps == [] then [] else Names(ps[..|ps| - 1]) + [ps[|ps| - 1].name]
  }

  function Values(ps: seq<Param>): (vs: seq<string>)
    ensures |vs| == |ps|
  {
    if ps == [] then [] else Values(ps[..|ps| - 1]) + [Received(ps[|ps| - 1])]
  }

  /** The map holds exactly these values under these names. */
  ghost predicate Holds(m: map<string, string>, names: seq<string>, values: seq<string>)
    requires |names| == |values|
  {
    && (forall i :: 0 <= i < |names| ==> names[i] in m && m[names[i]] == values[i])
    && (forall k :: k in m ==> k in names)
  }

  lemma HoldsOneMore(m: map<string, string>, names: seq<string>, values: seq<string>, name: string, value: string)
    requires |names| == |values| && Holds(m, names, values) && name !in names
    ensures Holds(m[name := value], names + [name], values + [value])
  {
  }

  lemma {:induction false} NamesAt(ps: seq<Param>, i: nat)
    requires i < |ps|
    ensures Names(ps)[i] == ps[i].name && Values(ps)[i] == Received(ps[i])
  {
    if i < |ps| - 1 {
      NamesAt(ps[..|ps| - 1], i);
    }
  }

  lemma NameAbsent(ps: seq<Param>, name: string)
    requires forall i :: 0 <= i < |ps| ==> ps[i].name != name
    ensures name !in Names(ps)
  {
    forall i | 0 <= i < |ps| ensures Names(ps)[i] != name {
      NamesAt(ps, i);
    }
  }

  lemma ParamsSnoc(front: seq<Param>, last: Param)
    requires Readable(last)
    ensures ParamsOf(Prints(front + [last])) == ParamsOf(Prints(front))[last.name := Received(last)]
  {
    PrintsSnoc(front, last);
    var parts := Prints(front + [last]);
    assert parts[..|parts| - 1] == Prints(front);
    PartAdded(ParamsOf(Prints(front)), last);
  }

  lemma ParamsReadStep(front: seq<Param>, last: Param, names: seq<string>, values: seq<string>)
    requires |names| == |values| && Holds(ParamsOf(Prints(front)), names, values) && last.name !in names
    requires Readable(last)
    ensures Holds(ParamsOf(Prints(front + [last])), names + [last.name], values + [Received(last)])
  {
    ParamsSnoc(front, last);
    HoldsOneMore(ParamsOf(Prints(front)), names, values, last.name, Received(last));
  }

  lemma FrontReadable(front: seq<Param>, last: Param)
    requires front == [] || Challenging(front + [last])
    ensures front == [] || Challenging(front)
    ensures front != [] ==> Readable(last) && forall i :: 0 <= i < |front| ==> front[i].name != last.name
  {
    var ps := front + [last];
    assert forall i :: 0 <= i < |front| ==> ps[i] == front[i];
    assert ps[|front|] == last;
  }

  lemma {:induction false} ParamsRead(ps: seq<Param>)
    requires Challenging(ps)
    ensures Holds(ParamsOf(Prints(ps)), Names(ps), Values(ps))
  {
    var front, last := ps[..|ps| - 1], ps[|ps| - 1];
    assert ps == front + [last];
    if front != [] {
      FrontReadable(front, last);
      ParamsRead(front);
    }
    NameAbsent(front, last.name);
    ParamsReadStep(front, last, Names(front), Values(front));
  }

  lemma HoldsAt(m: map<string, string>, names: seq<string>, values: seq<string>, i: nat, name: string, value: string)
    requires |names| == |values| && Holds(m, names, values) && i < |names|
    requires names[i] == name && values[i] == value
    ensures name in m && m[name] == value
  {
  }

  /** The value that parsing a printed challenge gives to its i-th parameter. */
  lemma ParamRead(ps: seq<Param>, i: nat)
    requires Challenging(ps) && i < |ps|
    ensures var m := ParseDigestChallenge("Digest " + Join(Prints(ps)));
      ps[i].name in m && m[ps[i].name] == Received(ps[i])
  {
    ChallengeRead(ps);
    NamesAt(ps, i);
    HoldsAt(ParseDigestChallenge("Digest " + Join(Prints(ps))), Names(ps), Values(ps), i, ps[i].name, Received(ps[i]));
  }

  lemma {:induction false} JoinTrimmed(ps: seq<Param>)
    requires ps != [] && forall p :: p in ps ==> Printable(p)
    ensures var s := Join(Prints(ps)); s != [] && Trimmed(s)
  {
    PrintTrimmed(ps[0]);
    if |ps| > 1 {
      JoinTrimmed(ps[1..]);
      assert Prints(ps)[1..] == Prints(ps[1..]);
      var s, rest := Join(Prints(ps)), Join(Prints(ps[1..]));
      assert s == Print(ps[0]) + ", " + rest;
      assert s[0] == Print(ps[0])[0] && s[|s| - 1] == rest[|rest| - 1];
    }
  }

  lemma {:induction false} LowerAppend(a: string, b: string)
    ensures ToLower(a + b) == ToLower(a) + ToLower(b)
  {
    if a == [] {
      assert a + b == b;
    } else {
      assert (a + b)[1..] == a[1..] + b;
      LowerAppend(a[1..], b);
    }
  }

  lemma SchemeFolded(s: string)
    ensures SCHEME <= ToLower("Digest " + s)
  {
    LowerAppend("Digest ", s);
    assert ToLower("Digest ") == SCHEME;
  }

  lemma SchemeStripped(s: string)
    requires s != [] && Trimmed(s)
    ensures Stripped("Digest " + s) == s
  {
    var h := "Digest " + s;
    assert h[0] == 'D' && h[|h| - 1] == s[|s| - 1];
    TrimTrimmed(h);
    SchemeFolded(s);
    assert h[|SCHEME|..] == s;
    TrimTrimmed(s);
  }

  /** Parsing a printed challenge yields each name once with the received value. */
  lemma ChallengeRead(ps: seq<Param>)
    requires Challenging(ps)
    ensures Holds(ParseDigestChallenge("Digest " + Join(Prints(ps))), Names(ps), Values(ps))
  {
    JoinTrimmed(ps);
    SchemeStripped(Join(Prints(ps)));
    SplitJoin(ps, "");
    ParamsRead(ps);
  }

  // ------------------------------------------- what a session holds, exactly

  /** The value the device gave to a parameter, empty if it sent none. */
  function Meant(ps: seq<Param>, name: string): string {
    var v := Named(ps, name);
    if v.Some? then v.value else ""
  }

  lemma {:induction false} MeantAt(ps: seq<Param>, i: nat)
    requires i < |ps| && forall j, k :: 0 <= j < k < |ps| ==> ps[j].name != ps[k].name
    ensures Meant(ps, ps[i].name) == ps[i].value
  {
    if i > 0 {
      MeantAt(ps[1..], i - 1);
    }
  }

  lemma {:induction false} MeantAbsent(ps: seq<Param>, name: string)
    requires forall i :: 0 <= i < |ps| ==> ps[i].name != name
    ensures Meant(ps, name) == ""
  {
    if ps != [] {
      MeantAbsent(ps[1..], name);
    }
  }

  lemma TokenPlain(s: string)
    requires IsToken(s)
    ensures Plain(s)
  {
  }

  /** A parameter is received as meant exactly when its value is plain, and it is received
      empty exactly when it was meant empty. */
  lemma ParamExactly(p: Param)
    requires Printable(p)
    ensures Received(p) == p.value <==> Plain(p.value)
    ensures Received(p) == "" <==> p.value == ""
  {
    match p {
      case Bare(_, value) => TokenPlain(value);
      case Quoted(name, value) => ReceivedExactly(name, value);
    }
  }

  /** Where a name is among the parameters, and what the parser and the device make of it. */
  lemma ValueAt(ps: seq<Param>, m: map<string, string>, name: string) returns (i: Option<nat>)
    requires Challenging(ps) && Holds(m, Names(ps), Values(ps))
    ensures i == None ==> ValueOf(m, name) == "" && Meant(ps, name) == ""
    ensures i.Some? ==> i.value < |ps| && ValueOf(m, name) == Received(ps[i.value]) && Meant(ps, name) == ps[i.value].value
  {
    if k :| 0 <= k < |ps| && ps[k].name == name {
      i := Some(k);
      NamesAt(ps, k);
      HoldsAt(m, Names(ps), Values(ps), k, name, Received(ps[k]));
      MeantAt(ps, k);
    } else {
      i := None;
      NameAbsent(ps, name);
      MeantAbsent(ps, name);
    }
  }

  /** What parsing a challenge yields under a name against what the device meant. */
  lemma ValueExactly(ps: seq<Param>, name: string)
    requires Challenging(ps)
    ensures var v := ValueOf(ParseDigestChallenge("Digest " + Join(Prints(ps))), name);
      && (v == Meant(ps, name) <==> Plain(Meant(ps, name)))
      && (v == "" <==> Meant(ps, name) == "")
  {
    ChallengeRead(ps);
    var i := ValueAt(ps, ParseDigestChallenge("Digest " + Join(Prints(ps))), name);
    if i.Some? {
      assert Readable(ps[i.value]);
      ParamExactly(ps[i.value]);
    }
  }

  /** For every challenge a device can print, in any order and with any parameters: the
      session made from it holds the realm, the nonce and the opaque value that the device
      meant if and only if none of the three contains a quotation mark or a backslash. */
  lemma SessionHoldsExactly(ps: seq<Param>, random: Option<string>)
    requires Challenging(ps)
    requires SessionOf(ParseDigestChallenge("Digest " + Join(Prints(ps))), random).Made?
    ensures var x := SessionOf(ParseDigestChallenge("Digest " + Join(Prints(ps))), random).x;
      (x.realm == Meant(ps, "realm") && x.nonce == Meant(ps, "nonce") && x.opaqueValue == Meant(ps, "opaque")) <==>
      (Plain(Meant(ps, "realm")) && Plain(Meant(ps, "nonce")) && Plain(Meant(ps, "opaque")))
  {
    ValueExactly(ps, "realm");
    ValueExactly(ps, "nonce");
    ValueExactly(ps, "opaque");
  }

  /** A challenge without realm or without nonce makes no session, however it is printed. */
  lemma SessionNeedsRealmAndNonce(ps: seq<Param>, random: Option<string>)
    requires Challenging(ps)
    ensures var made := SessionOf(ParseDigestChallenge("Digest " + Join(Prints(ps))), random);
      && (made == MissingRealm <==> Meant(ps, "realm") == "")
      && (made == MissingNonce <==> Meant(ps, "realm") != "" && Meant(ps, "nonce") == "")
  {
    ValueExactly(ps, "realm");
    ValueExactly(ps, "nonce");
  }

  // ------------------------------------- which challenges make a session, exactly

  function JoinComma(parts: seq<string>): string
    requires parts != []
  {
    if |parts| == 1 then parts[0] else parts[0] + "," + JoinComma(parts[1..])
  }

  ghost predicate CommaFree(parts: seq<string>) {
    parts != [] && forall i :: 0 <= i < |parts| ==> ',' !in parts[i]
  }

  lemma SplitCons(c: char, s: string)
    ensures var parts := SplitComma(s);
      SplitComma([c] + s) == if c == ',' then [""] + parts else [[c] + parts[0]] + parts[1..]
  {
    assert ([c] + s)[1..] == s;
  }

  /** The first element of a list grows by a prefix without commas. */
  function Prepended(q: string, parts: seq<string>): seq<string>
    requires parts != []
  {
    [q + parts[0]] + parts[1..]
  }

  lemma PrependTwice(c: char, q: string, parts: seq<string>)
    requires parts != []
    ensures Prepended([c], Prepended(q, parts)) == Prepended([c] + q, parts)
    ensures Prepended("", parts) == parts
  {
    assert [c] + (q + parts[0]) == ([c] + q) + parts[0];
    assert "" + parts[0] == parts[0];
  }

  lemma {:induction false} SplitPrefix(q: string, s: string)
    requires ',' !in q
    ensures SplitComma(q + s) == Prepended(q, SplitComma(s))
  {
    if q == [] {
      assert q + s == s;
      PrependTwice(',', "", SplitComma(s));
    } else {
      var c, rest := q[0], q[1..];
      SplitPrefix(rest, s);
      assert q == [c] + rest && q + s == [c] + (rest + s);
      SplitCons(c, rest + s);
      PrependTwice(c, rest, SplitComma(s));
    }
  }

  lemma SplitAtComma(q: string, s: string)
    requires ',' !in q
    ensures SplitComma(q + "," + s) == [q] + SplitComma(s)
  {
    var tail := "," + s;
    assert q + "," + s == q + tail;
    SplitPrefix(q, tail);
    SplitCons(',', s);
    assert q + "" == q;
  }

  /** Splitting at commas undoes joining with commas. */
  lemma {:induction false} SplitJoined(parts: seq<string>)
    requires CommaFree(parts)
    ensures SplitComma(JoinComma(parts)) == parts
  {
    if |parts| == 1 {
      NoComma(parts[0]);
    } else {
      SplitJoined(parts[1..]);
      SplitAtComma(parts[0], JoinComma(parts[1..]));
    }
  }

  lemma {:induction false} NoComma(s: string)
    requires ',' !in s
    ensures SplitComma(s) == [s]
  {
    if s != [] {
      NoComma(s[1..]);
      assert [s[0]] + s[1..] == s;
    }
  }

  predicate IsAuth(part: string) { EqualFold(TrimSpace(part), "auth") }

  /** A list of qualities of protection offers auth exactly when one of its elements is that
      word, in any case and with spaces around it. */
  lemma OffersExactly(parts: seq<string>)
    requires CommaFree(parts)
    ensures OffersAuth(JoinComma(parts)) <==> exists i :: 0 <= i < |parts| && IsAuth(parts[i])
  {
    SplitJoined(parts);
  }

  /** Case is ignored and nothing else. */
  lemma FoldExactly(a: string, b: string)
    ensures EqualFold(a, b) <==> |a| == |b| && forall i :: 0 <= i < |a| ==> LowerChar(a[i]) == LowerChar(b[i])
  {
    forall i | 0 <= i < |a| ensures ToLower(a)[i] == LowerChar(a[i]) {
      LowerAt(a, i);
    }
    forall i | 0 <= i < |b| ensures ToLower(b)[i] == LowerChar(b[i]) {
      LowerAt(b, i);
    }
  }

  predicate IsMark(c: char) { c == '"' || c == '\\' }

  lemma MarkTrimmed(s: string, c: char)
    requires c in s && IsMark(c)
    ensures c in TrimSpace(s)
  {
    var lead, trail := TrimTakesSpaces(s);
    assert !IsSpace(c);
    assert c !in lead && c !in trail;
  }

  lemma MarkFolded(s: string, c: char, word: string)
    requires c in s && IsMark(c) && EqualFold(s, word)
    ensures c in word
  {
    FoldExactly(s, word);
    var i :| 0 <= i < |s| && s[i] == c;
    assert word[i] == c;
  }

  lemma MarkNotAuth(s: string, c: char)
    requires c in s && IsMark(c)
    ensures !IsAuth(s)
  {
    MarkTrimmed(s, c);
    if IsAuth(s) {
      MarkFolded(TrimSpace(s), c, "auth");
    }
  }

  lemma {:induction false} MarkEscaped(v: string)
    requires !Plain(v)
    ensures '\\' in EscapeDigest(v)
  {
    EscapeCons(v);
    if !IsMark(v[0]) {
      assert v == [v[0]] + v[1..];
      MarkEscaped(v[1..]);
    }
  }

  lemma EscapedAuth(part: string)
    ensures IsAuth(EscapeDigest(part)) <==> IsAuth(part)
  {
    if Plain(part) {
      EscapeLength(part);
    } else {
      MarkEscaped(part);
      MarkNotAuth(EscapeDigest(part), '\\');
      MarkNotAuth(part, if '"' in part then '"' else '\\');
    }
  }

  predicate EscapedEach(raw: seq<string>, parts: seq<string>) {
    |raw| == |parts| && forall i :: 0 <= i < |parts| ==> raw[i] == EscapeDigest(parts[i])
  }

  lemma EscapedGrown(c: char, raw: seq<string>, parts: seq<string>)
    requires EscapedEach(raw, parts) && parts != []
    ensures EscapedEach(Prepended(Quote(c), raw), Prepended([c], parts))
    ensures EscapedEach([""] + raw, [""] + parts)
  {
    var first := [c] + parts[0];
    assert first[0] == c && first[1..] == parts[0];
    EscapeCons(first);
  }

  /** Escaping acts on each element of the list. */
  lemma {:induction false} EscapedParts(v: string)
    ensures EscapedEach(SplitComma(EscapeDigest(v)), SplitComma(v))
  {
    if v != [] {
      var c, rest := v[0], v[1..];
      var e := EscapeDigest(rest);
      EscapeCons(v);
      EscapedParts(rest);
      EscapedGrown(c, SplitComma(e), SplitComma(rest));
      assert v == [c] + rest;
      SplitCons(c, rest);
      if c == ',' {
        SplitCons(c, e);
      } else {
        SplitPrefix(Quote(c), e);
      }
    }
  }

  predicate AuthAmong(parts: seq<string>) { exists i :: 0 <= i < |parts| && IsAuth(parts[i]) }

  lemma EscapedAmong(raw: seq<string>, parts: seq<string>, n: nat)
    requires EscapedEach(raw, parts) && n <= |parts|
    ensures AuthAmong(raw[..n]) <==> AuthAmong(parts[..n])
  {
    forall i | 0 <= i < n ensures IsAuth(raw[..n][i]) <==> IsAuth(parts[..n][i]) {
      EscapedAuth(parts[i]);
    }
  }

  lemma OffersAmong(s: string)
    ensures OffersAuth(s) <==> AuthAmong(SplitComma(s))
  {
  }

  lemma EscapedOffers(v: string)
    ensures OffersAuth(EscapeDigest(v)) <==> OffersAuth(v)
  {
    EscapedParts(v);
    var raw, parts := SplitComma(EscapeDigest(v)), SplitComma(v);
    EscapedAmong(raw, parts, |parts|);
    assert raw[..|parts|] == raw && parts[..|parts|] == parts;
    OffersAmong(EscapeDigest(v));
    OffersAmong(v);
  }

  /** The last element of a list grows by a suffix without commas. */
  function Appended(parts: seq<string>, q: string): seq<string>
    requires parts != []
  {
    parts[..|parts| - 1] + [parts[|parts| - 1] + q]
  }

  lemma AppendBehind(c: char, parts: seq<string>, q: string)
    requires parts != []
    ensures Appended([""] + parts, q) == [""] + Appended(parts, q)
    ensures Appended(Prepended([c], parts), q) == Prepended([c], Appended(parts, q))
  {
    if |parts| == 1 {
      assert ([c] + parts[0]) + q == [c] + (parts[0] + q);
    }
  }

  lemma {:induction false} SplitSuffix(s: string, q: string)
    requires ',' !in q
    ensures SplitComma(s + q) == Appended(SplitComma(s), q)
  {
    if s == [] {
      assert s + q == q && "" + q == q;
      NoComma(q);
    } else {
      var c, rest := s[0], s[1..];
      SplitSuffix(rest, q);
      assert s == [c] + rest && s + q == [c] + (rest + q);
      SplitCons(c, rest);
      SplitCons(c, rest + q);
      AppendBehind(c, SplitComma(rest), q);
    }
  }

  lemma AmongSnoc(parts: seq<string>, last: string)
    requires !IsAuth(last)
    ensures AuthAmong(parts + [last]) <==> AuthAmong(parts)
  {
    var all := parts + [last];
    if AuthAmong(parts) {
      var i :| 0 <= i < |parts| && IsAuth(parts[i]);
      assert IsAuth(all[i]);
    }
  }

  /** A mark at the end only spoils the last element. */
  lemma MarkAtEnd(s: string, c: char)
    requires IsMark(c)
    ensures var parts := SplitComma(s); OffersAuth(s + [c]) <==> AuthAmong(parts[..|parts| - 1])
  {
    var parts := SplitComma(s);
    var last := parts[|parts| - 1] + [c];
    SplitSuffix(s, [c]);
    MarkNotAuth(last, c);
    AmongSnoc(parts[..|parts| - 1], last);
    OffersAmong(s + [c]);
  }

  lemma QuoteDropped(v: string)
    requires v != [] && v[|v| - 1] == '"'
    ensures Received(Quoted("", v)) == EscapeDigest(v[..|v| - 1]) + "\\"
  {
    var front := v[..|v| - 1];
    assert v == front + ['"'];
    EscapeSnoc(front, '"');
    var e := EscapeDigest(v);
    assert e == EscapeDigest(front) + "\\" + "\"";
  }

  lemma QuotedOffers(front: string)
    ensures OffersAuth(EscapeDigest(front) + "\\") <==> OffersAuth(front + "\"")
  {
    EscapedParts(front);
    var raw, parts := SplitComma(EscapeDigest(front)), SplitComma(front);
    EscapedAmong(raw, parts, |parts| - 1);
    MarkAtEnd(front, '"');
    MarkAtEnd(EscapeDigest(front), '\\');
  }

  lemma QopReceived(v: string)
    ensures OffersAuth(Received(Quoted("", v))) <==> OffersAuth(v)
  {
    if v != [] && v[|v| - 1] == '"' {
      var front := v[..|v| - 1];
      assert v == front + "\"";
      QuoteDropped(v);
      QuotedOffers(front);
    } else {
      EscapedOffers(v);
    }
  }

  lemma MarkReceived(v: string)
    requires !Plain(v)
    ensures '\\' in Received(Quoted("", v))
  {
    if v[|v| - 1] == '"' {
      QuoteDropped(v);
    } else {
      MarkEscaped(v);
    }
  }

  /** A value that the parser leaves quoted pairs in is neither blank nor a given word. */
  lemma WordReceived(v: string, word: string)
    requires '"' !in word && '\\' !in word
    ensures EqualFold(Received(Quoted("", v)), word) <==> EqualFold(v, word)
    ensures TrimSpace(Received(Quoted("", v))) == "" <==> TrimSpace(v) == ""
  {
    var r := Received(Quoted("", v));
    if Plain(v) {
      EscapeLength(v);
    } else {
      MarkReceived(v);
      var c := if '"' in v then '"' else '\\';
      MarkTrimmed(r, '\\');
      MarkTrimmed(v, c);
      if EqualFold(r, word) {
        MarkFolded(r, '\\', word);
      }
      if EqualFold(v, word) {
        MarkFolded(v, c, word);
      }
    }
  }

  predicate Alike(r: string, v: string, word: string) {
    && (OffersAuth(r) <==> OffersAuth(v))
    && (EqualFold(r, word) <==> EqualFold(v, word))
    && (TrimSpace(r) == "" <==> TrimSpace(v) == "")
  }

  lemma ReceivedAlike(r: string, v: string, word: string)
    requires r == Received(Quoted("", v)) && '"' !in word && '\\' !in word
    ensures Alike(r, v, word)
  {
    QopReceived(v);
    WordReceived(v, word);
  }

  lemma ParamAlike(p: Param, word: string)
    requires '"' !in word && '\\' !in word
    ensures Alike(Received(p), p.value, word)
  {
    match p {
      case Bare(_, value) => assert Received(p) == value;
      case Quoted(_, value) =>
        var r := Received(p);
        assert r == Received(Quoted("", value));
        ReceivedAlike(r, value, word);
    }
  }

  /** Quality of protection and algorithm are understood as the device meant them, quoted
      pairs or not. */
  lemma ChoiceExactly(ps: seq<Param>, m: map<string, string>, name: string, word: string)
    requires Challenging(ps) && Holds(m, Names(ps), Values(ps))
    requires '"' !in word && '\\' !in word
    ensures Alike(ValueOf(m, name), Meant(ps, name), word)
    ensures ValueOf(m, name) == "" <==> Meant(ps, name) == ""
  {
    var i := ValueAt(ps, m, name);
    if i.Some? {
      assert Readable(ps[i.value]);
      ParamAlike(ps[i.value], word);
      ParamExactly(ps[i.value]);
    }
  }

  /** What the device asks for is supported: the algorithm is SHA-256 or not named, and auth
      is offered unless no quality of protection is named. */
  predicate Supported(algorithm: string, qop: string) {
    (algorithm == "" || EqualFold(algorithm, "SHA-256")) && (TrimSpace(qop) == "" || OffersAuth(qop))
  }

  /** What these values of a challenge lead to. */
  predicate MadeFor(made: Made, realm: string, nonce: string, algorithm: string, qop: string, random: Option<string>) {
    && (made.Made? <==> realm != "" && nonce != "" && Supported(algorithm, qop) && (OffersAuth(qop) ==> random.Some?))
    && (made.Made? ==> made.x.auth == OffersAuth(qop) && made.x.cnonce == if OffersAuth(qop) then random.value else "")
  }

  /** The session depends on the received values only through these. */
  lemma SessionMadeFrom(m: map<string, string>, random: Option<string>, realm: string, nonce: string, algorithm: string,
                        qop: string)
    requires ValueOf(m, "realm") == "" <==> realm == ""
    requires ValueOf(m, "nonce") == "" <==> nonce == ""
    requires ValueOf(m, "algorithm") == "" <==> algorithm == ""
    requires Alike(ValueOf(m, "algorithm"), algorithm, "SHA-256")
    requires Alike(ValueOf(m, "qop"), qop, "SHA-256")
    ensures MadeFor(SessionOf(m, random), realm, nonce, algorithm, qop, random)
  {
  }

  lemma SessionMadeRead(ps: seq<Param>, m: map<string, string>, random: Option<string>)
    requires Challenging(ps) && Holds(m, Names(ps), Values(ps))
    ensures MadeFor(SessionOf(m, random), Meant(ps, "realm"), Meant(ps, "nonce"), Meant(ps, "algorithm"), Meant(ps, "qop"), random)
  {
    ChoiceExactly(ps, m, "realm", "SHA-256");
    ChoiceExactly(ps, m, "nonce", "SHA-256");
    ChoiceExactly(ps, m, "algorithm", "SHA-256");
    ChoiceExactly(ps, m, "qop", "SHA-256");
    SessionMadeFrom(m, random, Meant(ps, "realm"), Meant(ps, "nonce"), Meant(ps, "algorithm"), Meant(ps, "qop"));
  }

  /** For every challenge a device can print: a session is made if and only if realm and
      nonce are given, algorithm and quality of protection are supported, and randomness
      works if auth is offered. The session uses auth exactly if it was offered, and only
      then draws a client nonce. */
  lemma SessionMadeExactly(ps: seq<Param>, random: Option<string>)
    requires Challenging(ps)
    ensures MadeFor(SessionOf(ParseDigestChallenge("Digest " + Join(Prints(ps))), random),
                    Meant(ps, "realm"), Meant(ps, "nonce"), Meant(ps, "algorithm"), Meant(ps, "qop"), random)
  {
    ChallengeRead(ps);
    SessionMadeRead(ps, ParseDigestChallenge("Digest " + Join(Prints(ps))), random);
  }

  /** The challenge of a device: SHA-256, quality of protection "auth". */
  function DeviceChallenge(realm: string, nonce: string, opaqueValue: string): seq<Param> {
    [Quoted("realm", realm), Quoted("nonce", nonce), Quoted("qop", "auth"), Bare("algorithm", "SHA-256"), Quoted("opaque", opaqueValue)]
  }

  predicate Readable(p: Param) { Printable(p) && ToLower(p.name) == p.name }

  predicate LowerToken(s: string) { IsToken(s) && forall i :: 0 <= i < |s| ==> !('A' <= s[i] <= 'Z') }

  lemma QuotedReadable(name: string, value: string)
    requires LowerToken(name)
    ensures Readable(Quoted(name, value))
    ensures IsToken(value) ==> Readable(Bare(name, value))
  {
    LowerFixed(name);
  }

  lemma LowerTokens()
    ensures LowerToken("realm") && LowerToken("nonce") && LowerToken("qop") && LowerToken("algorithm") && LowerToken("opaque")
  {
    LongerTokens();
  }

  lemma LongerTokens()
    ensures LowerToken("algorithm") && LowerToken("opaque")
  {
  }

  lemma FiveChallenging(a: Param, b: Param, c: Param, d: Param, e: Param)
    requires Readable(a) && Readable(b) && Readable(c) && Readable(d) && Readable(e)
    requires a.name !in {b.name, c.name, d.name, e.name} && b.name !in {c.name, d.name, e.name}
    requires c.name !in {d.name, e.name} && d.name != e.name
    ensures Challenging([a, b, c, d, e])
  {
  }

  lemma ReadableNames(names: seq<string>, realm: string, nonce: string, qop: string, algorithm: string, opaqueValue: string)
    requires |names| == 5 && (forall i :: 0 <= i < 5 ==> LowerToken(names[i])) && IsToken(algorithm)
    ensures Readable(Quoted(names[0], realm)) && Readable(Quoted(names[1], nonce)) && Readable(Quoted(names[2], qop))
    ensures Readable(Bare(names[3], algorithm)) && Readable(Quoted(names[4], opaqueValue))
  {
    QuotedReadable(names[0], realm);
    QuotedReadable(names[1], nonce);
    QuotedReadable(names[2], qop);
    QuotedReadable(names[3], algorithm);
    QuotedReadable(names[4], opaqueValue);
  }

  lemma DeviceChallenging(realm: string, nonce: string, opaqueValue: string)
    ensures Challenging(DeviceChallenge(realm, nonce, opaqueValue))
  {
    LowerTokens();
    NamesAreTokens();
    ReadableNames(["realm", "nonce", "qop", "algorithm", "opaque"], realm, nonce, "auth", "SHA-256", opaqueValue);
    FiveChallenging(Quoted("realm", realm), Quoted("nonce", nonce), Quoted("qop", "auth"), Bare("algorithm", "SHA-256"),
                    Quoted("opaque", opaqueValue));
  }

  lemma OfferedAlone(s: string)
    requires ',' !in s && Trimmed(s) && EqualFold(s, "auth")
    ensures OffersAuth(s)
  {
    TrimTrimmed(s);
    NoComma(s);
    assert SplitComma(s)[0] == s;
  }

  lemma AuthOffered(s: string)
    requires s == "auth"
    ensures OffersAuth(s) && Plain(s)
  {
    OfferedAlone(s);
  }

  /** The session made from the received values. */
  lemma SessionFrom(m: map<string, string>, random: string, algorithm: string, qop: string)
    requires "algorithm" in m && m["algorithm"] == algorithm && EqualFold(algorithm, "SHA-256")
    requires "qop" in m && m["qop"] == qop && OffersAuth(qop)
    ensures SessionOf(m, Some(random)) ==
      if ValueOf(m, "realm") == "" then MissingRealm
      else if ValueOf(m, "nonce") == "" then MissingNonce
      else Made(Challenge(ValueOf(m, "realm"), ValueOf(m, "nonce"), true, ValueOf(m, "opaque"), random))
  {
  }

  /** For every realm, nonce and opaque value: a session is made exactly when realm and
      nonce are not empty, and it holds the values the device meant exactly when none of
      them needs a quoted pair. */
  lemma SessionExactly(realm: string, nonce: string, opaqueValue: string, random: string)
    ensures var made := SessionOf(ParseDigestChallenge("Digest " + Join(Prints(DeviceChallenge(realm, nonce, opaqueValue)))), Some(random));
      && (made.Made? <==> realm != "" && nonce != "")
      && (made == Made(Challenge(realm, nonce, true, opaqueValue, random)) <==>
            realm != "" && nonce != "" && Plain(realm) && Plain(nonce) && Plain(opaqueValue))
  {
    var ps := DeviceChallenge(realm, nonce, opaqueValue);
    var m := ParseDigestChallenge("Digest " + Join(Prints(ps)));
    DeviceChallenging(realm, nonce, opaqueValue);
    ParamRead(ps, 0);
    ParamRead(ps, 1);
    ParamRead(ps, 2);
    ParamRead(ps, 3);
    ParamRead(ps, 4);
    AuthOffered("auth");
    ReceivedExactly("qop", "auth");
    SessionFrom(m, random, "SHA-256", "auth");
    ReceivedExactly("realm", realm);
    ReceivedExactly("nonce", nonce);
    ReceivedExactly("opaque", opaqueValue);
  }

  lemma ReceivedExactly(name: string, v: string)
    ensures Received(Quoted(name, v)) == v <==> Plain(v)
    ensures Received(Quoted(name, v)) == "" <==> v == ""
  {
    StripQuotes(v);
    RecoveredExactly(v);
  }

  /** A realm with a quotation mark in it: the session keeps the backslash of the quoted
      pair, so its hash is not that of the realm the device meant. */
  lemma QuotedPairNotUndone()
    ensures Received(Quoted("realm", "a\"b")) == "a\\\"b"
  {
    EscapeCons("a\"b");
    EscapeCons("a\"b"[1..]);
    EscapeCons("a\"b"[2..]);
    assert "a\"b"[1..] == "\"b" && "\"b"[1..] == "b" && "b"[1..] == "";
    assert "a\"b"[2..] == "b";
  }
}
