/** The identity under which a pool is cached, and the configuration a pool is built with (src/client.rs). */
module PoolKey {
  import opened Text

  datatype Params = Params(
    host: Option<string>, port: Option<nat>, database: Option<string>,
    username: Option<string>, password: Option<string>,
    sslMode: Option<string>, sslCa: Option<string>, sslCert: Option<string>, sslKey: Option<string>,
    connectionString: Option<string>, startupScript: Option<string>)

  /** What a connection string parses to. */
  datatype Target = Target(host: Option<string>, port: Option<nat>, database: Option<string>, username: Option<string>,
                           password: Option<string>)

  datatype SslMode = Disable | Prefer | Require

  /** How servers are verified: by the mode and, unless it verifies nothing, the CA; and the client certificate. */
  datatype Tls = Tls(mode: string, ca: Option<string>, client: Option<(string, string)>)

  /** All of a pool but its maximum size. */
  datatype Config = Config(target: Target, sslMode: Option<SslMode>, tls: Option<Tls>, script: Option<string>)

  /** SHA-256 in hexadecimal, and the connection string parser. */
  datatype World = World(hash: string -> string, parse: string -> Option<Target>)

  // -------------------------------------------------------------------------
  // The key

  function OrEmpty(s: Option<string>): string {
    if s.None? then "" else s.value
  }

  function Script(p: Params): string {
    Trim(OrEmpty(p.startupScript))
  }

  function TlsFields(p: Params): seq<string> {
    [Script(p), OrEmpty(p.sslMode), OrEmpty(p.sslCa), OrEmpty(p.sslCert), OrEmpty(p.sslKey)]
  }

  function TlsAndScript(p: Params): string {
    Join(TlsFields(p), ":")
  }

  /** The text, unless it is blank. */
  function NotBlank(s: Option<string>): Option<string> {
    if s.Some? && Trim(s.value) != "" then s else None
  }

  function ConnString(p: Params): Option<string> {
    NotBlank(p.connectionString)
  }

  function Port(port: Option<nat>): nat {
    if port.None? then 5432 else port.value
  }

  /** `connection_key`; each `format!` joins its arguments with colons. */
  function ConnectionKey(w: World, p: Params): string {
    if ConnString(p).Some? then Join(["cs", w.hash(ConnString(p).value)] + [TlsAndScript(p)], ":")
    else
      var base :=
          Join([OrEmpty(p.host), PrintNat(Port(p.port)), OrEmpty(p.database), OrEmpty(p.username)]
               + [TlsAndScript(p)], ":");
      if OrEmpty(p.password) == "" then base else Join([base] + ["pw", w.hash(p.password.value)], ":")
  }

  // -------------------------------------------------------------------------
  // The configuration

  predicate NeedsTls(p: Params) {
    p.sslMode == Some("require") || p.sslMode == Some("verify-ca") || p.sslMode == Some("verify-full")
  }

  function ResolveSslMode(mode: Option<string>): Option<SslMode> {
    if mode == Some("disable") then Some(Disable)
    else if mode == Some("allow") || mode == Some("prefer") then Some(Prefer)
    else if mode == Some("require") || mode == Some("verify-ca") || mode == Some("verify-full") then Some(Require)
    else None
  }

  /** `require` forces TLS without looking at the server's certificate. */
  predicate VerifiesNothing(p: Params) {
    p.sslMode == Some("require")
  }

  /** `build_tls_connector`: a certificate and its key come together, and `verify-ca` needs a CA. */
  function Connector(mode: string, ca: Option<string>, cert: Option<string>, key: Option<string>): Option<Tls> {
    if cert.Some? != key.Some? then None
    else if mode == "verify-ca" && ca.None? then None
    else Some(Tls(mode, if mode == "require" then None else ca,
                  if cert.Some? then Some((cert.value, key.value)) else None))
  }

  function TlsOf(p: Params): Option<Tls> {
    Connector(OrEmpty(p.sslMode), NotBlank(p.sslCa), NotBlank(p.sslCert), NotBlank(p.sslKey))
  }

  function TargetOf(w: World, p: Params): Option<Target> {
    if ConnString(p).Some? then w.parse(ConnString(p).value)
    else Some(Target(p.host, p.port, p.database, p.username, p.password))
  }

  /** What `build_pool_impl` configures; `None` if the connection string does not parse or TLS is refused. */
  function ConfigOf(w: World, p: Params): Option<Config> {
    if TargetOf(w, p).None? || (NeedsTls(p) && TlsOf(p).None?) then None
    else Some(Config(TargetOf(w, p).value, ResolveSslMode(p.sslMode), if NeedsTls(p) then TlsOf(p) else None,
                     if Script(p) == "" then None else Some(Script(p))))
  }

  predicate SameTarget(a: Target, b: Target) {
    a.(port := Some(Port(a.port))) == b.(port := Some(Port(b.port)))
  }

  /** The same pool, an absent port standing for the default one. */
  predicate SameConfig(a: Config, b: Config) {
    SameTarget(a.target, b.target) && a.(target := b.target) == b
  }

  /**
   Each field of what is built is the parameter of that name, the target's being those of the connection string if there
   is one; TLS is set up exactly for the three modes that ask for it, from the paths that are not blank.
   */
  lemma BuiltAsGiven(w: World, p: Params)
    requires ConfigOf(w, p).Some?
    ensures var c := ConfigOf(w, p).value;
            && (ConnString(p).None? ==>
                  && c.target.host == p.host && c.target.port == p.port && c.target.database == p.database
                  && c.target.username == p.username && c.target.password == p.password)
            && (ConnString(p).Some? ==> w.parse(p.connectionString.value) == Some(c.target))
            && (c.tls.Some? <==> p.sslMode in {Some("require"), Some("verify-ca"), Some("verify-full")})
            && (c.tls.Some? ==>
                  && c.sslMode == Some(Require) && Some(c.tls.value.mode) == p.sslMode
                  && (c.tls.value.ca.Some? ==> c.tls.value.ca == p.sslCa && Trim(p.sslCa.value) != "")
                  && (p.sslMode == Some("require") ==> c.tls.value.ca.None?)
                  && (p.sslMode == Some("verify-ca") ==> c.tls.value.ca.Some?)
                  && (p.sslMode == Some("verify-full") && NotBlank(p.sslCa).Some? ==> c.tls.value.ca.Some?)
                  && (c.tls.value.client.Some? ==>
                        p.sslCert == Some(c.tls.value.client.value.0) && p.sslKey == Some(c.tls.value.client.value.1))
                  && (c.tls.value.client.Some? <==> NotBlank(p.sslCert).Some?)
                  && (c.tls.value.client.Some? <==> NotBlank(p.sslKey).Some?))
            && (p.sslMode == Some("disable") <==> c.sslMode == Some(Disable))
            && (p.sslMode in {Some("allow"), Some("prefer")} <==> c.sslMode == Some(Prefer))
            && (c.script.Some? <==> Script(p) != "")
            && (c.script.Some? ==> c.script.value == Trim(p.startupScript.value))
  {
  }

  // -------------------------------------------------------------------------
  // The key is its fields

  predicate ColonFree(s: string) {
    forall i :: 0 <= i < |s| ==> s[i] != ':'
  }

  function Colons(s: string): nat {
    if s == "" then 0 else (if s[0] == ':' then 1 else 0) + Colons(s[1..])
  }

  lemma {:induction false} ColonFreeExactly(s: string)
    ensures ColonFree(s) <==> Colons(s) == 0
  {
    if s != "" {
      ColonFreeExactly(s[1..]);
      assert ColonFree(s) <==> s[0] != ':' && ColonFree(s[1..]) by {
        assert forall i :: 0 < i < |s| ==> s[i] == s[1..][i - 1];
      }
    }
  }

  /** The pieces between colons. */
  function Split(s: string): (pieces: seq<string>)
    ensures |pieces| == Colons(s) + 1
  {
    if s == "" then [""] else Before(s[0], Split(s[1..]))
  }

  /** The pieces with one more character in front. */
  function Before(c: char, pieces: seq<string>): seq<string>
    requires pieces != []
  {
    if c == ':' then [""] + pieces else [[c] + pieces[0]] + pieces[1..]
  }

  lemma BeforeConcat(c: char, a: seq<string>, b: seq<string>)
    requires a != []
    ensures Before(c, a + b) == Before(c, a) + b
  {
  }

  lemma BeforeInjective(c: char, a: seq<string>, d: char, b: seq<string>)
    requires a != [] && b != [] && Before(c, a) == Before(d, b)
    ensures c == d && a == b
  {
    var x, y := Before(c, a), Before(d, b);
    assert x[0] == y[0] && x[1..] == y[1..];
    if c == ':' || d == ':' {
      assert a == x[1..] && b == y[1..];
    } else {
      assert a[0] == x[0][1..] && b[0] == y[0][1..];
      assert a[1..] == x[1..] && b[1..] == y[1..];
      assert a == [a[0]] + a[1..] && b == [b[0]] + b[1..];
    }
  }

  lemma {:induction false} SplitConcat(a: string, rest: string)
    ensures Split(a + (":" + rest)) == Split(a) + Split(rest)
  {
    var s := a + (":" + rest);
    if a == "" {
      assert s[1..] == rest;
    } else {
      SplitConcat(a[1..], rest);
      assert s[1..] == a[1..] + (":" + rest);
      BeforeConcat(a[0], Split(a[1..]), Split(rest));
    }
  }

  lemma {:induction false} SplitColonFree(field: string)
    requires ColonFree(field)
    ensures Split(field) == [field]
  {
    if field != "" {
      SplitColonFree(field[1..]);
      assert [field[0]] + field[1..] == field;
    }
  }

  /** Nothing is lost between colons. */
  lemma {:induction false} SplitInjective(a: string, b: string)
    requires Split(a) == Split(b)
    ensures a == b
  {
    assert Split(a)[0] == Split(b)[0] && |Split(a)| == |Split(b)|;
    if a != "" && b != "" {
      BeforeInjective(a[0], Split(a[1..]), b[0], Split(b[1..]));
      SplitInjective(a[1..], b[1..]);
      assert [a[0]] + a[1..] == a && [b[0]] + b[1..] == b;
    }
  }

  /** The pieces of a list of fields, one after the other. */
  function Pieces(fields: seq<string>): seq<string> {
    if fields == [] then [] else Split(fields[0]) + Pieces(fields[1..])
  }

  lemma {:induction false} PiecesConcat(a: seq<string>, b: seq<string>)
    ensures Pieces(a + b) == Pieces(a) + Pieces(b)
  {
    if a == [] {
      assert a + b == b;
    } else {
      PiecesConcat(a[1..], b);
      assert (a + b)[0] == a[0] && (a + b)[1..] == a[1..] + b;
      Associates(Split(a[0]), Pieces(a[1..]), Pieces(b));
    }
  }

  lemma Associates(a: seq<string>, b: seq<string>, c: seq<string>)
    ensures a + (b + c) == a + b + c
  {
  }

  lemma PiecesOfOne(field: string)
    ensures Pieces([field]) == Split(field)
    ensures ColonFree(field) ==> Pieces([field]) == [field]
  {
    if ColonFree(field) {
      SplitColonFree(field);
    }
  }

  lemma {:induction false} SplitJoin(fields: seq<string>)
    requires fields != []
    ensures Split(Join(fields, ":")) == Pieces(fields)
  {
    if |fields| == 1 {
      PiecesOfOne(fields[0]);
      assert fields == [fields[0]];
    } else {
      SplitJoin(fields[1..]);
      SplitConcat(fields[0], Join(fields[1..], ":"));
      assert fields[0] + ":" + Join(fields[1..], ":") == fields[0] + (":" + Join(fields[1..], ":"));
    }
  }

  predicate ColonsAlike(a: seq<string>, b: seq<string>, n: nat)
    requires n <= |a| && n <= |b|
  {
    forall i :: 0 <= i < n ==> Colons(a[i]) == Colons(b[i])
  }

  lemma {:induction false} PiecesLength(a: seq<string>, b: seq<string>)
    requires |a| == |b| && ColonsAlike(a, b, |a|)
    ensures |Pieces(a)| == |Pieces(b)|
  {
    if a != [] {
      assert Colons(a[0]) == Colons(b[0]);
      forall i | 0 <= i < |a| - 1 ensures Colons(a[1..][i]) == Colons(b[1..][i]) {
        assert a[1..][i] == a[i + 1] && b[1..][i] == b[i + 1];
      }
      PiecesLength(a[1..], b[1..]);
    }
  }

  /** As many pieces and, in all fields but one, as many colons: as many there, too. */
  lemma OneLeft(a: seq<string>, b: seq<string>, m: nat)
    requires m < |a| == |b| && |Pieces(a)| == |Pieces(b)|
    requires forall i :: 0 <= i < |a| && i != m ==> Colons(a[i]) == Colons(b[i])
    ensures Colons(a[m]) == Colons(b[m])
  {
    Around(a, m);
    Around(b, m);
    PiecesLength(a[..m], b[..m]);
    PiecesLength(a[m + 1..], b[m + 1..]);
  }

  lemma Around(a: seq<string>, m: nat)
    requires m < |a|
    ensures |Pieces(a)| == |Pieces(a[..m])| + Colons(a[m]) + 1 + |Pieces(a[m + 1..])|
  {
    assert a == a[..m] + ([a[m]] + a[m + 1..]);
    PiecesConcat(a[..m], [a[m]] + a[m + 1..]);
    PiecesConcat([a[m]], a[m + 1..]);
    PiecesOfOne(a[m]);
  }

  /**
   Fields with the same pieces are the same as far as they hold equally many colons: a longer one would hold one colon
   more.
   */
  lemma {:induction false} AlignedPrefix(a: seq<string>, b: seq<string>, n: nat)
    requires n <= |a| && n <= |b| && ColonsAlike(a, b, n) && Pieces(a) == Pieces(b)
    ensures a[..n] == b[..n]
  {
    if n > 0 {
      var k := |Split(a[0])|;
      assert Colons(a[0]) == Colons(b[0]);
      assert Split(a[0]) == Pieces(a)[..k] == Pieces(b)[..k] == Split(b[0]);
      SplitInjective(a[0], b[0]);
      assert Pieces(a[1..]) == Pieces(a)[k..] == Pieces(b)[k..] == Pieces(b[1..]);
      forall i | 0 <= i < n - 1 ensures Colons(a[1..][i]) == Colons(b[1..][i]) {
        assert a[1..][i] == a[i + 1] && b[1..][i] == b[i + 1];
      }
      AlignedPrefix(a[1..], b[1..], n - 1);
      FirstAndRest(a, n);
      FirstAndRest(b, n);
    }
  }

  lemma FirstAndRest(a: seq<string>, n: nat)
    requires 0 < n <= |a|
    ensures a[..n] == [a[0]] + a[1..][..n - 1]
  {
  }

  lemma {:induction false} JoinOfTwo(a: seq<string>, b: seq<string>)
    requires a != [] && b != []
    ensures Join(a + b, ":") == Join(a, ":") + ":" + Join(b, ":")
  {
    if |a| == 1 {
      assert (a + b)[1..] == b;
    } else {
      JoinOfTwo(a[1..], b);
      assert (a + b)[1..] == a[1..] + b;
    }
  }

  /** A field that is itself a join flattens. */
  lemma Flatten(a: seq<string>, b: seq<string>, c: seq<string>)
    requires b != []
    ensures a != [] ==> Join(a + [Join(b, ":")], ":") == Join(a + b, ":")
    ensures c != [] ==> Join([Join(b, ":")] + c, ":") == Join(b + c, ":")
  {
    if a != [] {
      JoinOfTwo(a, b);
      JoinOfTwo(a, [Join(b, ":")]);
    }
    if c != [] {
      JoinOfTwo(b, c);
      JoinOfTwo([Join(b, ":")], c);
    }
  }

  /** SHA-256 taken as injective; hexadecimal digits are not colons. */
  ghost predicate GoodHash(w: World) {
    && (forall a: string :: ColonFree(w.hash(a)))
    && (forall a: string, b: string :: w.hash(a) == w.hash(b) ==> a == b)
  }

  lemma {:induction false} NumeralIsColonFree(n: nat)
    ensures ColonFree(PrintNat(n))
  {
  }

  /** The fields a key consists of: seven, nine or eleven of them. */
  function KeyFields(w: World, p: Params): seq<string> {
    if ConnString(p).Some? then ["cs", w.hash(ConnString(p).value)] + TlsFields(p)
    else [OrEmpty(p.host), PrintNat(Port(p.port)), OrEmpty(p.database), OrEmpty(p.username)] + TlsFields(p)
         + (if OrEmpty(p.password) == "" then [] else ["pw", w.hash(p.password.value)])
  }

  lemma KeyIsJoin(w: World, p: Params)
    ensures ConnectionKey(w, p) == Join(KeyFields(w, p), ":")
  {
    var tls := TlsFields(p);
    if ConnString(p).Some? {
      Flatten(["cs", w.hash(ConnString(p).value)], tls, []);
    } else {
      var front := [OrEmpty(p.host), PrintNat(Port(p.port)), OrEmpty(p.database), OrEmpty(p.username)];
      Flatten(front, tls, []);
      if OrEmpty(p.password) == "" {
        assert front + tls + [] == front + tls;
      } else {
        Flatten([], front + tls, ["pw", w.hash(p.password.value)]);
      }
    }
  }

  /** Where each field of the key stands. */
  lemma FieldAt(w: World, p: Params)
    ensures var a := KeyFields(w, p);
            var k := ScriptAt(p);
            && (ConnString(p).Some? ==> |a| == 7 && a[0] == "cs" && a[1] == w.hash(ConnString(p).value))
            && (ConnString(p).None? ==>
                  && |a| == (if OrEmpty(p.password) == "" then 9 else 11)
                  && a[0] == OrEmpty(p.host) && a[1] == PrintNat(Port(p.port))
                  && a[2] == OrEmpty(p.database) && a[3] == OrEmpty(p.username)
                  && (|a| == 11 ==> a[9] == "pw" && a[10] == w.hash(p.password.value)))
            && a[k] == Script(p) && a[k + 1] == OrEmpty(p.sslMode) && a[k + 2] == OrEmpty(p.sslCa)
            && a[k + 3] == OrEmpty(p.sslCert) && a[k + 4] == OrEmpty(p.sslKey)
  {
    var tls := TlsFields(p);
    assert tls[0] == Script(p) && tls[1] == OrEmpty(p.sslMode) && tls[2] == OrEmpty(p.sslCa);
    assert tls[3] == OrEmpty(p.sslCert) && tls[4] == OrEmpty(p.sslKey);
  }

  function ScriptAt(p: Params): nat {
    if ConnString(p).Some? then 2 else 4
  }

  lemma EqualPieces(w: World, p: Params, q: Params)
    ensures ConnectionKey(w, p) == ConnectionKey(w, q) <==> Pieces(KeyFields(w, p)) == Pieces(KeyFields(w, q))
  {
    KeyIsJoin(w, p);
    KeyIsJoin(w, q);
    SplitJoin(KeyFields(w, p));
    SplitJoin(KeyFields(w, q));
    if Pieces(KeyFields(w, p)) == Pieces(KeyFields(w, q)) {
      SplitInjective(ConnectionKey(w, p), ConnectionKey(w, q));
    }
  }

  lemma NoColons(w: World, p: Params)
    requires GoodHash(w)
    ensures Colons("cs") == 0 && Colons("pw") == 0 && Colons(PrintNat(Port(p.port))) == 0
    ensures forall s :: Colons(w.hash(s)) == 0
  {
    ColonFreeExactly("cs");
    ColonFreeExactly("pw");
    NumeralIsColonFree(Port(p.port));
    ColonFreeExactly(PrintNat(Port(p.port)));
    forall s ensures Colons(w.hash(s)) == 0 {
      ColonFreeExactly(w.hash(s));
    }
  }

  // -------------------------------------------------------------------------
  // Equal keys, equal identities

  predicate SameTls(p: Params, q: Params) {
    && Script(p) == Script(q) && OrEmpty(p.sslMode) == OrEmpty(q.sslMode)
    && OrEmpty(p.sslCa) == OrEmpty(q.sslCa) && OrEmpty(p.sslCert) == OrEmpty(q.sslCert)
    && OrEmpty(p.sslKey) == OrEmpty(q.sslKey)
  }

  /** All that a key tells apart: absent and empty are the same to it. */
  predicate SameIdentity(p: Params, q: Params) {
    && SameTls(p, q)
    && ConnString(p) == ConnString(q)
    && (ConnString(p).None? ==>
          && OrEmpty(p.host) == OrEmpty(q.host) && Port(p.port) == Port(q.port)
          && OrEmpty(p.database) == OrEmpty(q.database) && OrEmpty(p.username) == OrEmpty(q.username)
          && OrEmpty(p.password) == OrEmpty(q.password))
  }

  lemma SamePrint(m: nat, n: nat)
    ensures PrintNat(m) == PrintNat(n) ==> m == n
  {
    PrintNatValue(m);
    PrintNatValue(n);
  }

  lemma FieldsIdentify(w: World, p: Params, q: Params)
    requires GoodHash(w) && KeyFields(w, p) == KeyFields(w, q)
    ensures SameIdentity(p, q)
  {
    FieldAt(w, p);
    FieldAt(w, q);
    SamePrint(Port(p.port), Port(q.port));
  }

  /** The fields of the two keys are equally many and, one by one, hold equally many colons. */
  predicate SameColons(w: World, p: Params, q: Params) {
    |KeyFields(w, p)| == |KeyFields(w, q)| && ColonsAlike(KeyFields(w, p), KeyFields(w, q), |KeyFields(w, p)|)
  }

  /**
   One key means one identity, the default port filled in and an absent field standing for an empty one, if and only if
   the fields hold equally many colons.
   */
  lemma IdentityExactly(w: World, p: Params, q: Params)
    requires GoodHash(w)
    ensures ConnectionKey(w, p) == ConnectionKey(w, q) && SameColons(w, p, q) <==> SameIdentity(p, q)
  {
    if SameIdentity(p, q) {
      SameKey(w, p, q);
      assert TlsFields(p) == TlsFields(q);
      assert KeyFields(w, p) == KeyFields(w, q);
    }
    if ConnectionKey(w, p) == ConnectionKey(w, q) && SameColons(w, p, q) {
      var a, b := KeyFields(w, p), KeyFields(w, q);
      EqualPieces(w, p, q);
      AlignedPrefix(a, b, |a|);
      assert a == a[..|a|] && b == b[..|a|];
      FieldsIdentify(w, p, q);
    }
  }

  lemma SameKey(w: World, p: Params, q: Params)
    requires SameIdentity(p, q)
    ensures ConnectionKey(w, p) == ConnectionKey(w, q)
  {
    assert TlsFields(p) == TlsFields(q);
  }

  /** An absent port is the same pool as one port and no other. */
  lemma PortExactly(w: World, p: Params, n: nat)
    requires GoodHash(w) && ConnString(p).None?
    ensures ConnectionKey(w, p.(port := None)) == ConnectionKey(w, p.(port := Some(n))) <==> n == 5432
  {
    var a, b := p.(port := None), p.(port := Some(n));
    NumeralIsColonFree(Port(None));
    NumeralIsColonFree(n);
    ColonFreeExactly(PrintNat(Port(None)));
    ColonFreeExactly(PrintNat(n));
    var x, y := KeyFields(w, a), KeyFields(w, b);
    assert |x| == |y|;
    forall i | 0 <= i < |x| ensures Colons(x[i]) == Colons(y[i]) {
      assert i != 1 ==> x[i] == y[i];
    }
    IdentityExactly(w, a, b);
  }

  /** Nothing that goes into the key unhashed holds a colon. */
  predicate Plain(p: Params) {
    && ColonFree(Script(p)) && ColonFree(OrEmpty(p.sslMode))
    && ColonFree(OrEmpty(p.sslCa)) && ColonFree(OrEmpty(p.sslCert)) && ColonFree(OrEmpty(p.sslKey))
    && (ConnString(p).None? ==>
          ColonFree(OrEmpty(p.host)) && ColonFree(OrEmpty(p.database)) && ColonFree(OrEmpty(p.username)))
  }

  predicate AllColonFree(fields: seq<string>) {
    forall i :: 0 <= i < |fields| ==> ColonFree(fields[i])
  }

  lemma FieldsColonFree(w: World, p: Params)
    requires Plain(p) && GoodHash(w)
    ensures AllColonFree(KeyFields(w, p))
  {
    assert AllColonFree(TlsFields(p));
    NumeralIsColonFree(Port(p.port));
    if ConnString(p).None? {
      var names := [OrEmpty(p.host), PrintNat(Port(p.port)), OrEmpty(p.database), OrEmpty(p.username)];
      assert AllColonFree(names);
    }
  }

  lemma {:induction false} PiecesColonFree(fields: seq<string>)
    requires AllColonFree(fields)
    ensures Pieces(fields) == fields
  {
    if fields != [] {
      SplitColonFree(fields[0]);
      assert AllColonFree(fields[1..]);
      PiecesColonFree(fields[1..]);
    }
  }

  lemma PlainColons(w: World, p: Params, q: Params)
    requires Plain(p) && Plain(q) && GoodHash(w) && ConnectionKey(w, p) == ConnectionKey(w, q)
    ensures SameColons(w, p, q)
  {
    FieldsColonFree(w, p);
    FieldsColonFree(w, q);
    EqualPieces(w, p, q);
    PiecesColonFree(KeyFields(w, p));
    PiecesColonFree(KeyFields(w, q));
  }

  /** Without any colons in the fields, keys are equal if and only if the identities are. */
  lemma KeyExactly(w: World, p: Params, q: Params)
    requires Plain(p) && Plain(q) && GoodHash(w)
    ensures ConnectionKey(w, p) == ConnectionKey(w, q) <==> SameIdentity(p, q)
  {
    if ConnectionKey(w, p) == ConnectionKey(w, q) {
      PlainColons(w, p, q);
    }
    IdentityExactly(w, p, q);
  }

  // -------------------------------------------------------------------------
  // Equal keys, equal pools

  /** Both or neither have a connection string and, where there is none, a password. */
  predicate SameForm(p: Params, q: Params) {
    && (ConnString(p).Some? <==> ConnString(q).Some?)
    && (ConnString(p).None? ==> (OrEmpty(p.password) == "" <==> OrEmpty(q.password) == ""))
  }

  predicate EquallyMany(a: Option<string>, b: Option<string>) {
    Colons(OrEmpty(a)) == Colons(OrEmpty(b))
  }

  predicate KnownMode(p: Params) {
    ResolveSslMode(p.sslMode).Some?
  }

  /** The fields that reach the configuration hold equally many colons. */
  predicate ColonsAgree(p: Params, q: Params) {
    && SameForm(p, q)
    && (ConnString(p).None? ==>
          EquallyMany(p.host, q.host) && EquallyMany(p.database, q.database) && EquallyMany(p.username, q.username))
    && Colons(Script(p)) == Colons(Script(q))
    && (KnownMode(p) || KnownMode(q) ==> EquallyMany(p.sslMode, q.sslMode))
    && (NeedsTls(p) ==>
          && (VerifiesNothing(p) || EquallyMany(p.sslCa, q.sslCa))
          && EquallyMany(p.sslCert, q.sslCert) && EquallyMany(p.sslKey, q.sslKey))
  }

  /** The names, where they reach it, are absent in both or in neither. */
  predicate PresentAlike(p: Params, q: Params) {
    ConnString(p).None? ==>
      && (p.host.Some? <==> q.host.Some?) && (p.database.Some? <==> q.database.Some?)
      && (p.username.Some? <==> q.username.Some?) && (p.password.Some? <==> q.password.Some?)
  }

  /** How many fields of the key are known to align. */
  predicate Aligns(p: Params, q: Params, n: nat) {
    && n <= ScriptAt(p) + 5
    && (n > ScriptAt(p) + 1 ==> EquallyMany(p.sslMode, q.sslMode))
    && (n > ScriptAt(p) + 2 ==>
          EquallyMany(p.sslCa, q.sslCa) && EquallyMany(p.sslCert, q.sslCert) && EquallyMany(p.sslKey, q.sslKey))
  }

  /** How many colons each of a key's first fields holds. */
  function FieldColons(p: Params): seq<nat> {
    (if ConnString(p).Some? then [0, 0]
     else [Colons(OrEmpty(p.host)), 0, Colons(OrEmpty(p.database)), Colons(OrEmpty(p.username))])
    + [Colons(Script(p)), Colons(OrEmpty(p.sslMode)), Colons(OrEmpty(p.sslCa)), Colons(OrEmpty(p.sslCert)),
       Colons(OrEmpty(p.sslKey))]
  }

  lemma ColonsAt(w: World, p: Params)
    requires GoodHash(w)
    ensures |FieldColons(p)| == ScriptAt(p) + 5 <= |KeyFields(w, p)|
    ensures forall i :: 0 <= i < ScriptAt(p) + 5 ==> Colons(KeyFields(w, p)[i]) == FieldColons(p)[i]
  {
    FieldAt(w, p);
    NoColons(w, p);
  }

  /** One key and equally many colons give equal fields. */
  lemma Prefix(w: World, p: Params, q: Params, n: nat)
    requires GoodHash(w) && ConnectionKey(w, p) == ConnectionKey(w, q) && ColonsAgree(p, q) && Aligns(p, q, n)
    ensures n <= |KeyFields(w, p)| && n <= |KeyFields(w, q)|
    ensures KeyFields(w, p)[..n] == KeyFields(w, q)[..n]
  {
    var a, b := KeyFields(w, p), KeyFields(w, q);
    ColonsAt(w, p);
    ColonsAt(w, q);
    EqualPieces(w, p, q);
    AlignedPrefix(a, b, n);
  }

  lemma SameAt(a: seq<string>, b: seq<string>, n: nat, i: nat)
    requires i < n <= |a| && n <= |b| && a[..n] == b[..n]
    ensures a[i] == b[i]
  {
    assert a[i] == a[..n][i] && b[i] == b[..n][i];
  }

  lemma SameNames(w: World, p: Params, q: Params)
    requires GoodHash(w) && ConnectionKey(w, p) == ConnectionKey(w, q) && ColonsAgree(p, q)
    ensures Script(p) == Script(q) && ConnString(p) == ConnString(q)
    ensures ConnString(p).None? ==>
              && OrEmpty(p.host) == OrEmpty(q.host) && Port(p.port) == Port(q.port)
              && OrEmpty(p.database) == OrEmpty(q.database) && OrEmpty(p.username) == OrEmpty(q.username)
  {
    var n := ScriptAt(p) + 1;
    FieldAt(w, p);
    FieldAt(w, q);
    Prefix(w, p, q, n);
    forall i: nat | i < n ensures KeyFields(w, p)[i] == KeyFields(w, q)[i] {
      SameAt(KeyFields(w, p), KeyFields(w, q), n, i);
    }
    SamePrint(Port(p.port), Port(q.port));
  }

  lemma SameMode(w: World, p: Params, q: Params)
    requires GoodHash(w) && ConnectionKey(w, p) == ConnectionKey(w, q) && ColonsAgree(p, q)
    ensures ResolveSslMode(p.sslMode) == ResolveSslMode(q.sslMode)
    ensures NeedsTls(p) || NeedsTls(q) ==> p.sslMode == q.sslMode
  {
    if KnownMode(p) || KnownMode(q) {
      var i := ScriptAt(p) + 1;
      FieldAt(w, p);
      FieldAt(w, q);
      Prefix(w, p, q, i + 1);
      SameAt(KeyFields(w, p), KeyFields(w, q), i + 1, i);
      assert OrEmpty(p.sslMode) == OrEmpty(q.sslMode);
    }
  }

  lemma SamePaths(w: World, p: Params, q: Params)
    requires GoodHash(w) && ConnectionKey(w, p) == ConnectionKey(w, q) && ColonsAgree(p, q) && NeedsTls(p)
    ensures OrEmpty(p.sslCa) == OrEmpty(q.sslCa) && OrEmpty(p.sslCert) == OrEmpty(q.sslCert)
    ensures OrEmpty(p.sslKey) == OrEmpty(q.sslKey)
  {
    var k := ScriptAt(p);
    SameMode(w, p, q);
    CaFollows(w, p, q);
    Prefix(w, p, q, k + 5);
    PathsAt(w, p);
    PathsAt(w, q);
    SameAt(KeyFields(w, p), KeyFields(w, q), k + 5, k + 2);
    SameAt(KeyFields(w, p), KeyFields(w, q), k + 5, k + 3);
    SameAt(KeyFields(w, p), KeyFields(w, q), k + 5, k + 4);
  }

  /** All other counts being equal, so is the CA's, whether it reaches the configuration or not. */
  lemma CaFollows(w: World, p: Params, q: Params)
    requires GoodHash(w) && ConnectionKey(w, p) == ConnectionKey(w, q) && ColonsAgree(p, q)
    requires NeedsTls(p) && p.sslMode == q.sslMode
    ensures EquallyMany(p.sslCa, q.sslCa)
  {
    var a, b := KeyFields(w, p), KeyFields(w, q);
    OtherColons(w, p, q);
    EqualPieces(w, p, q);
    OneLeft(a, b, ScriptAt(p) + 2);
  }

  lemma OtherColons(w: World, p: Params, q: Params)
    requires GoodHash(w) && ColonsAgree(p, q) && NeedsTls(p)
    ensures var a, b := KeyFields(w, p), KeyFields(w, q); var m := ScriptAt(p) + 2;
            m < |a| == |b| && forall i :: 0 <= i < |a| && i != m ==> Colons(a[i]) == Colons(b[i])
  {
    var a, b := KeyFields(w, p), KeyFields(w, q);
    ColonsAt(w, p);
    ColonsAt(w, q);
    TailColons(w, p);
    TailColons(w, q);
    var x, y := FieldColons(p), FieldColons(q);
    assert forall i :: 0 <= i < |x| && i != ScriptAt(p) + 2 ==> x[i] == y[i];
  }

  /** Behind the certificate paths there is at most the hashed password. */
  lemma TailColons(w: World, p: Params)
    requires GoodHash(w)
    ensures |KeyFields(w, p)| == ScriptAt(p) + if ConnString(p).Some? || OrEmpty(p.password) == "" then 5 else 7
    ensures forall i :: ScriptAt(p) + 5 <= i < |KeyFields(w, p)| ==> Colons(KeyFields(w, p)[i]) == 0
  {
    FieldAt(w, p);
    NoColons(w, p);
  }

  lemma PathsAt(w: World, p: Params)
    ensures var a := KeyFields(w, p); var k := ScriptAt(p);
            && |a| >= k + 5 && a[k + 2] == OrEmpty(p.sslCa) && a[k + 3] == OrEmpty(p.sslCert)
            && a[k + 4] == OrEmpty(p.sslKey)
  {
    FieldAt(w, p);
  }

  /** Hashed passwords end their keys, so they are the same whatever stands before them. */
  lemma SamePassword(w: World, p: Params, q: Params)
    requires GoodHash(w) && ConnectionKey(w, p) == ConnectionKey(w, q) && SameForm(p, q) && ConnString(p).None?
    ensures OrEmpty(p.password) == OrEmpty(q.password)
  {
    if OrEmpty(p.password) != "" {
      EqualPieces(w, p, q);
      LastPiece(w, p);
      LastPiece(w, q);
    }
  }

  lemma LastPiece(w: World, p: Params)
    requires GoodHash(w) && ConnString(p).None? && OrEmpty(p.password) != ""
    ensures var pieces := Pieces(KeyFields(w, p)); pieces != [] && pieces[|pieces| - 1] == w.hash(p.password.value)
  {
    var a := KeyFields(w, p);
    FieldAt(w, p);
    assert a == a[..10] + [a[10]];
    PiecesConcat(a[..10], [a[10]]);
    PiecesOfOne(a[10]);
  }

  /** All that reaches the configuration, an absent field standing for an empty one. */
  predicate SameReach(p: Params, q: Params) {
    && Script(p) == Script(q) && ConnString(p) == ConnString(q)
    && (ConnString(p).None? ==>
          && OrEmpty(p.host) == OrEmpty(q.host) && Port(p.port) == Port(q.port)
          && OrEmpty(p.database) == OrEmpty(q.database) && OrEmpty(p.username) == OrEmpty(q.username)
          && OrEmpty(p.password) == OrEmpty(q.password))
    && ResolveSslMode(p.sslMode) == ResolveSslMode(q.sslMode)
    && (NeedsTls(p) || NeedsTls(q) ==> p.sslMode == q.sslMode)
    && (NeedsTls(p) ==>
          && OrEmpty(p.sslCa) == OrEmpty(q.sslCa) && OrEmpty(p.sslCert) == OrEmpty(q.sslCert)
          && OrEmpty(p.sslKey) == OrEmpty(q.sslKey))
  }

  lemma AgreeingReach(w: World, p: Params, q: Params)
    requires GoodHash(w) && ConnectionKey(w, p) == ConnectionKey(w, q) && ColonsAgree(p, q)
    ensures SameReach(p, q)
  {
    SameNames(w, p, q);
    SameMode(w, p, q);
    if ConnString(p).None? {
      SamePassword(w, p, q);
    }
    if NeedsTls(p) {
      SamePaths(w, p, q);
    }
  }

  /** What agreeing parameters with one key configure. */
  lemma AgreeingConfigs(w: World, p: Params, q: Params)
    requires GoodHash(w) && ConnectionKey(w, p) == ConnectionKey(w, q) && ColonsAgree(p, q)
    ensures ConfigOf(w, p).Some? <==> ConfigOf(w, q).Some?
    ensures ConfigOf(w, p).Some? ==>
              (SameConfig(ConfigOf(w, p).value, ConfigOf(w, q).value) <==> PresentAlike(p, q))
  {
    AgreeingReach(w, p, q);
    ReachConfigures(w, p, q);
  }

  lemma ReachConfigures(w: World, p: Params, q: Params)
    requires SameReach(p, q)
    ensures ConfigOf(w, p).Some? <==> ConfigOf(w, q).Some?
    ensures ConfigOf(w, p).Some? ==>
              (SameConfig(ConfigOf(w, p).value, ConfigOf(w, q).value) <==> PresentAlike(p, q))
  {
    assert NeedsTls(p) <==> NeedsTls(q);
    if NeedsTls(p) {
      OneBlank(p.sslCa, q.sslCa);
      OneBlank(p.sslCert, q.sslCert);
      OneBlank(p.sslKey, q.sslKey);
      assert TlsOf(p) == TlsOf(q);
    }
    ReachTarget(w, p, q);
  }

  /** Absent, empty and blank are one to `NotBlank`. */
  lemma OneBlank(a: Option<string>, b: Option<string>)
    ensures OrEmpty(a) == OrEmpty(b) ==> NotBlank(a) == NotBlank(b)
  {
  }

  lemma ReachTarget(w: World, p: Params, q: Params)
    requires SameReach(p, q)
    ensures TargetOf(w, p).Some? <==> TargetOf(w, q).Some?
    ensures TargetOf(w, p).Some? ==> (SameTarget(TargetOf(w, p).value, TargetOf(w, q).value) <==> PresentAlike(p, q))
  {
  }

  /** No connection string leads to a host or a port that is the string's own hash. */
  ghost predicate Acyclic(w: World) {
    forall s: string :: w.parse(s).Some? ==>
      && PrintNat(Port(w.parse(s).value.port)) != w.hash(s)
      && w.hash(s) !in Split(OrEmpty(w.parse(s).value.host))
  }

  /** So parameters with a connection string never configure what others with the same key configure without one. */
  lemma MixedDiffer(w: World, p: Params, q: Params)
    requires GoodHash(w) && Acyclic(w) && ConnectionKey(w, p) == ConnectionKey(w, q)
    requires ConnString(p).Some? && ConnString(q).None? && ConfigOf(w, p).Some? && ConfigOf(w, q).Some?
    ensures !SameConfig(ConfigOf(w, p).value, ConfigOf(w, q).value)
  {
    var s := ConnString(p).value;
    var a, b := KeyFields(w, p), KeyFields(w, q);
    EqualPieces(w, p, q);
    FieldAt(w, p);
    FieldAt(w, q);
    FirstPieces(a);
    FirstPieces(b);
    SplitColonFree("cs");
    SplitColonFree(w.hash(s));
    NumeralIsColonFree(Port(q.port));
    SplitColonFree(PrintNat(Port(q.port)));
    assert Pieces(a)[1] == w.hash(s);
    assert Pieces(b)[1] == w.hash(s);
    var host := Split(OrEmpty(q.host));
    assert if |host| == 1 then Pieces(b)[1] == PrintNat(Port(q.port)) else Pieces(b)[1] == host[1];
  }

  lemma FirstPieces(a: seq<string>)
    requires |a| >= 2
    ensures Split(a[0]) + Split(a[1]) <= Pieces(a)
  {
    assert Pieces(a) == Split(a[0]) + (Split(a[1]) + Pieces(a[1..][1..]));
  }

  lemma SameConfigAgrees(w: World, p: Params, q: Params)
    requires ConfigOf(w, p).Some? && ConfigOf(w, q).Some? && (ConnString(p).Some? <==> ConnString(q).Some?)
    requires SameConfig(ConfigOf(w, p).value, ConfigOf(w, q).value)
    ensures ColonsAgree(p, q) && PresentAlike(p, q)
  {
    assert Script(p) == Script(q);
    assert ResolveSslMode(p.sslMode) == ResolveSslMode(q.sslMode);
    if KnownMode(p) {
      ModeHasNoColon(p);
      ModeHasNoColon(q);
    }
    if NeedsTls(p) {
      assert TlsOf(p).Some? && TlsOf(p) == TlsOf(q);
      TlsAgrees(p, q);
    }
  }

  lemma TlsAgrees(p: Params, q: Params)
    requires NeedsTls(p) && TlsOf(p).Some? && TlsOf(p) == TlsOf(q)
    ensures VerifiesNothing(p) || EquallyMany(p.sslCa, q.sslCa)
    ensures EquallyMany(p.sslCert, q.sslCert) && EquallyMany(p.sslKey, q.sslKey)
  {
    BlankAlike(p.sslCa, q.sslCa);
    BlankAlike(p.sslCert, q.sslCert);
    BlankAlike(p.sslKey, q.sslKey);
  }

  lemma BlankAlike(a: Option<string>, b: Option<string>)
    ensures NotBlank(a) == NotBlank(b) ==> EquallyMany(a, b)
  {
    if NotBlank(a) == NotBlank(b) == None {
      BlankHasNoColon(OrEmpty(a));
      BlankHasNoColon(OrEmpty(b));
    }
  }

  lemma BlankHasNoColon(s: string)
    requires Trim(s) == ""
    ensures Colons(s) == 0
  {
    SpacesHaveNoColon(s);
  }

  lemma {:induction false} SpacesHaveNoColon(s: string)
    requires TrimStart(s) == ""
    ensures Colons(s) == 0
  {
    if s != "" {
      SpacesHaveNoColon(s[1..]);
    }
  }

  lemma ModeHasNoColon(p: Params)
    requires KnownMode(p)
    ensures Colons(OrEmpty(p.sslMode)) == 0
  {
    var mode := p.sslMode.value;
    if |mode| <= 7 {
      ShortMode(mode);
    } else {
      LongMode(mode);
    }
    ColonFreeExactly(mode);
  }

  lemma ShortMode(mode: string)
    requires mode == "disable" || mode == "allow" || mode == "prefer" || mode == "require"
    ensures ColonFree(mode)
  {
  }

  lemma LongMode(mode: string)
    requires mode == "verify-ca" || mode == "verify-full"
    ensures ColonFree(mode)
  {
  }

  /**
   Two parameter sets with one key configure the same pool if and only if they have the same form, each field that
   reaches the configuration holds equally many colons in both and, without a connection string, each name is absent in
   both or in neither.
   */
  lemma ConfigExactly(w: World, p: Params, q: Params)
    requires GoodHash(w) && Acyclic(w) && ConnectionKey(w, p) == ConnectionKey(w, q) && ConfigOf(w, p).Some?
    ensures ConfigOf(w, q).Some? && SameConfig(ConfigOf(w, p).value, ConfigOf(w, q).value)
            <==> ColonsAgree(p, q) && PresentAlike(p, q)
  {
    if ColonsAgree(p, q) {
      AgreeingConfigs(w, p, q);
    } else if ConfigOf(w, q).Some? && SameConfig(ConfigOf(w, p).value, ConfigOf(w, q).value) {
      if ConnString(p).Some? && ConnString(q).None? {
        MixedDiffer(w, p, q);
      } else if ConnString(p).None? && ConnString(q).Some? {
        MixedDiffer(w, q, p);
      } else {
        SameConfigAgrees(w, p, q);
      }
    }
  }

  predicate Filled(s: Option<string>) {
    s != Some("")
  }

  /** No name that reaches the configuration as it is given is present and empty. */
  predicate Settled(p: Params) {
    ConnString(p).None? ==> Filled(p.host) && Filled(p.database) && Filled(p.username) && Filled(p.password)
  }

  /** So without empty names, one key and agreeing colons mean one configuration. */
  lemma EqualKeysEqualConfig(w: World, p: Params, q: Params)
    requires Settled(p) && Settled(q) && ColonsAgree(p, q)
    requires GoodHash(w) && ConnectionKey(w, p) == ConnectionKey(w, q)
    ensures ConfigOf(w, p).Some? <==> ConfigOf(w, q).Some?
    ensures ConfigOf(w, p).Some? ==> SameConfig(ConfigOf(w, p).value, ConfigOf(w, q).value)
  {
    AgreeingReach(w, p, q);
    ReachConfigures(w, p, q);
    assert PresentAlike(p, q);
  }

  /** Without any colons they agree. */
  lemma PlainAgree(w: World, p: Params, q: Params)
    requires Plain(p) && Plain(q) && GoodHash(w) && ConnectionKey(w, p) == ConnectionKey(w, q)
    ensures ColonsAgree(p, q)
  {
    KeyExactly(w, p, q);
  }

  /** With colons that do not agree: whatever else is given, two different databases and users share one key. */
  lemma ColonsCollide(w: World, given: Params, a: string, b: string, c: string)
    requires ConnString(given).None?
    ensures var p := given.(database := Some(a + (":" + b)), username := Some(c));
            var q := given.(database := Some(a), username := Some(b + (":" + c)));
            && ConnectionKey(w, p) == ConnectionKey(w, q)
            && (ConfigOf(w, given).Some? ==> SameBut(w, p, q, true))
  {
    var p := given.(database := Some(a + (":" + b)), username := Some(c));
    var q := given.(database := Some(a), username := Some(b + (":" + c)));
    var front := [OrEmpty(p.host), PrintNat(Port(p.port))];
    var rest := TlsFields(p) + (if OrEmpty(p.password) == "" then [] else ["pw", w.hash(p.password.value)]);
    assert TlsFields(q) == TlsFields(p);
    assert KeyFields(w, p) == front + ([a + (":" + b), c] + rest);
    assert KeyFields(w, q) == front + ([a, b + (":" + c)] + rest);
    PiecesConcat(front, [a + (":" + b), c] + rest);
    PiecesConcat(front, [a, b + (":" + c)] + rest);
    PiecesConcat([a + (":" + b), c], rest);
    PiecesConcat([a, b + (":" + c)], rest);
    MovedColon(a, b, c);
    EqualPieces(w, p, q);
    assert |a + (":" + b)| != |a|;
    if ConfigOf(w, given).Some? {
      OtherNames(w, given, p, q);
    }
  }

  /** Other names, another configuration, and nothing else changes. */
  lemma OtherNames(w: World, given: Params, p: Params, q: Params)
    requires ConnString(given).None? && ConfigOf(w, given).Some? && p.database != q.database
    requires p == given.(database := p.database, username := p.username)
    requires q == given.(database := q.database, username := q.username)
    ensures ConfigOf(w, p).Some? && ConfigOf(w, q).Some?
    ensures !SameConfig(ConfigOf(w, p).value, ConfigOf(w, q).value)
  {
  }

  lemma MovedColon(a: string, b: string, c: string)
    ensures Pieces([a + (":" + b), c]) == Pieces([a, b + (":" + c)])
  {
    SplitConcat(a, b);
    SplitConcat(b, c);
    var x, y := [a + (":" + b), c], [a, b + (":" + c)];
    assert x[1..] == [c] && y[1..] == [b + (":" + c)];
    PiecesOfOne(c);
    PiecesOfOne(b + (":" + c));
  }

  /**
   A field absent and then empty: the key stays, and the configuration changes exactly if the field is a name and there
   is no connection string. Modes and certificate paths are the same to both, whatever else is given.
   */
  lemma EmptyCollides(w: World, p: Params)
    ensures ConfigOf(w, p).Some? ==>
              && SameBut(w, p.(host := None), p.(host := Some("")), ConnString(p).None?)
              && SameBut(w, p.(database := None), p.(database := Some("")), ConnString(p).None?)
              && SameBut(w, p.(username := None), p.(username := Some("")), ConnString(p).None?)
              && SameBut(w, p.(password := None), p.(password := Some("")), ConnString(p).None?)
    ensures SameAll(w, p.(sslMode := None), p.(sslMode := Some("")))
    ensures SameAll(w, p.(sslCa := None), p.(sslCa := Some("")))
    ensures SameAll(w, p.(sslCert := None), p.(sslCert := Some("")))
    ensures SameAll(w, p.(sslKey := None), p.(sslKey := Some("")))
  {
    EmptyNames(w, p);
    EmptyMode(w, p.(sslMode := None), p.(sslMode := Some("")));
    SamePathTexts(w, p.(sslCa := None), p.(sslCa := Some("")));
    SamePathTexts(w, p.(sslCert := None), p.(sslCert := Some("")));
    SamePathTexts(w, p.(sslKey := None), p.(sslKey := Some("")));
  }

  lemma EmptyMode(w: World, p: Params, q: Params)
    requires q == p.(sslMode := Some("")) && p.sslMode == None
    ensures SameAll(w, p, q)
  {
    SameKey(w, p, q);
  }

  lemma SamePathTexts(w: World, p: Params, q: Params)
    requires q == p.(sslCa := q.sslCa, sslCert := q.sslCert, sslKey := q.sslKey)
    requires OrEmpty(p.sslCa) == OrEmpty(q.sslCa) && OrEmpty(p.sslCert) == OrEmpty(q.sslCert)
    requires OrEmpty(p.sslKey) == OrEmpty(q.sslKey)
    ensures SameAll(w, p, q)
  {
    SameKey(w, p, q);
    OneBlank(p.sslCa, q.sslCa);
    OneBlank(p.sslCert, q.sslCert);
    OneBlank(p.sslKey, q.sslKey);
  }

  lemma EmptyNames(w: World, p: Params)
    ensures ConfigOf(w, p).Some? ==>
              && SameBut(w, p.(host := None), p.(host := Some("")), ConnString(p).None?)
              && SameBut(w, p.(database := None), p.(database := Some("")), ConnString(p).None?)
              && SameBut(w, p.(username := None), p.(username := Some("")), ConnString(p).None?)
              && SameBut(w, p.(password := None), p.(password := Some("")), ConnString(p).None?)
  {
  }

  /** One key, and one configuration or none. */
  predicate SameAll(w: World, p: Params, q: Params) {
    ConnectionKey(w, p) == ConnectionKey(w, q) && ConfigOf(w, p) == ConfigOf(w, q)
  }

  /** One key, and configurations that are there and differ just if `differ`. */
  predicate SameBut(w: World, p: Params, q: Params, differ: bool) {
    && ConnectionKey(w, p) == ConnectionKey(w, q) && ConfigOf(w, p).Some? && ConfigOf(w, q).Some?
    && (SameConfig(ConfigOf(w, p).value, ConfigOf(w, q).value) <==> !differ)
  }
}
