/**
 * lookup_realm of the RADIUS realms plugin (pppd/plugins/radius/radrealms.c):
 * pick the realm out of the user name, then read the realms file line by
 * line, collecting the `authserver` and `acctserver` entries for that
 * realm into two bounded server tables. The file is the sequence of
 * buffers fgets returns, or None when it cannot be opened.
 */
module RadRealms {
  import opened Common

  /** SERVER_MAX of radiusclient.h: the capacity of a SERVER table. */
  const SERVER_MAX: nat := 8

  /** The range of the SERVER port field, an unsigned short. */
  const PORT_RANGE: int := 0x1_0000

  /** One server: its address text and its port. */
  datatype Server = Server(name: string, port: int)

  datatype ErrorKind = CannotOpen | InvalidLine | RealmMissing | AddressMissing | PortMissing

  /** How lookup_realm ends: an error on a line (0 when the file cannot be opened), or the two lists. */
  datatype Outcome = Failed(kind: ErrorKind, line: nat) | Found(auth: seq<Server>, acct: seq<Server>)

  /** The C string held by a buffer: everything before its first NUL. */
  function CStr(b: string): (c: string)
    ensures |c| <= |b| && c == b[..|c|]
    ensures '\0' !in c
    ensures |c| < |b| ==> b[|c|] == '\0'
  {
    if b == [] || b[0] == '\0' then [] else [b[0]] + CStr(b[1..])
  }

  /** Where strrchr(user, '@') points: the index of the last '@', or None. */
  function LastAt(user: string): (r: Option<nat>)
    ensures r.None? <==> '@' !in user
    ensures r.Some? ==> r.value < |user| && user[r.value] == '@' && '@' !in user[r.value + 1..]
  {
    if user == [] then None
    else if user[|user| - 1] == '@' then Some(|user| - 1)
    else
      var r := LastAt(user[..|user| - 1]);
      assert user[..|user| - 1] + [user[|user| - 1]] == user;
      r
  }

  /** The realm: the text after the last '@', or None (the DEFAULT realm) when it is missing or empty. */
  function RealmOf(user: string): (realm: Option<string>)
    ensures realm.Some? ==> exists k :: 0 <= k < |user| && user[k] == '@' && user[k + 1..] == realm.value
    ensures realm.Some? ==> realm.value != [] && '@' !in realm.value
    ensures realm.None? <==> '@' !in user || user[|user| - 1] == '@'
  {
    match LastAt(user)
    case None => None
    case Some(k) => if k + 1 == |user| then None else Some(user[k + 1..])
  }

  /** strtok's delimiter sets used here. */
  predicate Blank(c: char) { c == '\t' || c == ' ' }
  predicate Colon(c: char) { c == ':' }

  /** The delimiter set of one strtok call. */
  datatype Delims = Blanks | Colons

  predicate IsDelim(c: char, d: Delims) {
    match d
    case Blanks => Blank(c)
    case Colons => Colon(c)
  }

  /** The number of leading delimiters strtok skips. */
  function LeadingDelims(s: string, d: Delims): (k: nat)
    ensures k <= |s|
    ensures forall j :: 0 <= j < k ==> IsDelim(s[j], d)
    ensures k < |s| ==> !IsDelim(s[k], d)
  {
    if s == [] || !IsDelim(s[0], d) then 0 else 1 + LeadingDelims(s[1..], d)
  }

  /** The length of the token at the start of `s`: up to the next delimiter or the end. */
  function TokenLength(s: string, d: Delims): (k: nat)
    ensures k <= |s|
    ensures forall j :: 0 <= j < k ==> !IsDelim(s[j], d)
    ensures k < |s| ==> IsDelim(s[k], d)
  {
    if s == [] || IsDelim(s[0], d) then 0 else 1 + TokenLength(s[1..], d)
  }

  /**
   * One strtok call on the text remaining from the previous one: None
   * (NULL) when only delimiters remain, else the token and the text after
   * the one delimiter strtok overwrites.
   */
  function Strtok(s: string, d: Delims): (r: Option<(string, string)>)
    ensures r.None? <==> forall j :: 0 <= j < |s| ==> IsDelim(s[j], d)
    ensures r.Some? ==> r.value.0 != [] && |r.value.0| + |r.value.1| <= |s|
  {
    var lead := LeadingDelims(s, d);
    var t := s[lead..];
    if t == [] then None
    else
      var k := TokenLength(t, d);
      Some((t[..k], if k < |t| then t[k + 1..] else []))
  }

  /**
   * `s` is the delimiters `lead`, the token `tok`, at most one delimiter
   * `sep`, which is missing only at the end, and the text `rest`.
   */
  predicate SplitAs(s: string, d: Delims, lead: string, tok: string, sep: string, rest: string) {
    && s == lead + tok + sep + rest
    && (forall j :: 0 <= j < |lead| ==> IsDelim(lead[j], d))
    && (forall j :: 0 <= j < |tok| ==> !IsDelim(tok[j], d))
    && ((sep == [] && rest == []) || (|sep| == 1 && IsDelim(sep[0], d)))
  }

  /**
   * strtok splits its text into the skipped delimiters, a token free of
   * delimiters, at most one delimiter it overwrites, and the rest.
   */
  lemma StrtokSplits(s: string, d: Delims)
    requires Strtok(s, d).Some?
    ensures var tok, rest := Strtok(s, d).value.0, Strtok(s, d).value.1;
      exists lead, sep :: SplitAs(s, d, lead, tok, sep, rest)
  {
    var lead := LeadingDelims(s, d);
    var t := s[lead..];
    var k := TokenLength(t, d);
    var sep: string := if k < |t| then [t[k]] else [];
    var rest: string := if k < |t| then t[k + 1..] else [];
    FourParts(s, lead, k);
    assert Strtok(s, d) == Some((t[..k], rest));
    var skipped := s[..lead];
    assert forall j :: 0 <= j < |skipped| ==> IsDelim(skipped[j], d);
    assert forall j :: 0 <= j < k ==> !IsDelim(t[..k][j], d);
    assert SplitAs(s, d, skipped, t[..k], sep, rest);
  }

  /** A sequence cut after `lead` elements, then after `k` more, then past one element when there is one. */
  lemma FourParts<T>(s: seq<T>, lead: nat, k: nat)
    requires lead + k <= |s|
    ensures var t := s[lead..];
      s == s[..lead] + t[..k] + (if k < |t| then [t[k]] else []) + (if k < |t| then t[k + 1..] else [])
  {
    var t := s[lead..];
    assert t == t[..k] + t[k..];
    if k < |t| {
      assert t[k..] == [t[k]] + t[k + 1..];
    }
    assert s == s[..lead] + t;
  }

  /** A token free of delimiters has its own length when a delimiter or the end follows it. */
  lemma {:induction false} TokenLengthOf(tok: string, d: Delims, more: string)
    requires forall j :: 0 <= j < |tok| ==> !IsDelim(tok[j], d)
    requires more == [] || IsDelim(more[0], d)
    ensures TokenLength(tok + more, d) == |tok|
  {
    if tok != [] {
      assert (tok + more)[1..] == tok[1..] + more;
      TokenLengthOf(tok[1..], d, more);
    }
  }

  /** strtok returns a leading token that a delimiter or the end follows, and the text after that delimiter. */
  lemma StrtokToken(tok: string, d: Delims, more: string)
    requires tok != [] && forall j :: 0 <= j < |tok| ==> !IsDelim(tok[j], d)
    requires more == [] || IsDelim(more[0], d)
    ensures Strtok(tok + more, d) == Some((tok, if more == [] then [] else more[1..]))
  {
    var s := tok + more;
    assert LeadingDelims(s, d) == 0 by { assert s[0] == tok[0]; }
    assert s[0..] == s;
    TokenLengthOf(tok, d, more);
    assert s[..|tok|] == tok;
    if more != [] {
      assert s[|tok| + 1..] == more[1..];
    }
  }

  predicate IsSpace(c: char) {
    c == ' ' || c == '\t' || c == '\n' || c == '\U{b}' || c == '\U{c}' || c == '\r'
  }

  predicate IsDigit(c: char) { '0' <= c <= '9' }

  /** The number of leading digits of `s`. */
  function DigitRun(s: string): (k: nat)
    ensures k <= |s|
    ensures forall j :: 0 <= j < k ==> IsDigit(s[j])
    ensures k < |s| ==> !IsDigit(s[k])
  {
    if s == [] || !IsDigit(s[0]) then 0 else 1 + DigitRun(s[1..])
  }

  /** The value of a string of decimal digits. */
  function DigitsValue(ds: string): (n: nat)
    requires forall j :: 0 <= j < |ds| ==> IsDigit(ds[j])
  {
    if ds == [] then 0
    else
      assert IsDigit(ds[|ds| - 1]);
      10 * DigitsValue(ds[..|ds| - 1]) + (ds[|ds| - 1] as int - '0' as int)
  }

  /**
   * atoi: skip white space, take an optional sign, then the leading
   * digits; 0 when there are none.
   */
  function Atoi(s: string): int {
    var ws := SpaceRun(s);
    var t := s[ws..];
    if t != [] && (t[0] == '-' || t[0] == '+') then
      var n: int := DigitsValue(t[1..][..DigitRun(t[1..])]);
      if t[0] == '-' then -n else n
    else DigitsValue(t[..DigitRun(t)])
  }

  function SpaceRun(s: string): (k: nat)
    ensures k <= |s|
    ensures k < |s| ==> !IsSpace(s[k])
  {
    if s == [] || !IsSpace(s[0]) then 0 else 1 + SpaceRun(s[1..])
  }

  /** The decimal rendering of a port number. */
  function Decimal(n: nat): (s: string)
    ensures s != [] && forall j :: 0 <= j < |s| ==> IsDigit(s[j])
  {
    if n < 10 then [('0' as int + n) as char]
    else Decimal(n / 10) + [('0' as int + n % 10) as char]
  }

  /** atoi reads back the number a decimal rendering stands for. */
  lemma {:induction false} AtoiDecimal(n: nat)
    ensures DigitRun(Decimal(n)) == |Decimal(n)|
    ensures DigitsValue(Decimal(n)) == n
    ensures Atoi(Decimal(n)) == n
  {
    var s := Decimal(n);
    if n >= 10 {
      AtoiDecimal(n / 10);
      assert s[..|s| - 1] == Decimal(n / 10);
    }
    assert IsDigit(s[0]) && SpaceRun(s) == 0;
    assert s[0..] == s && s[..|s|] == s;
  }

  /** What one buffer contributes. */
  datatype LineStep = Skip | Fail(kind: ErrorKind) | Add(acct: bool, server: Server)

  /** A comment, a blank line or an empty C string. */
  predicate Ignored(buf: string) {
    var c := CStr(buf);
    c == [] || c[0] == '\n' || c[0] == '#'
  }

  /** The text tokenised: the C string without its last character. */
  function LineText(buf: string): string
    requires !Ignored(buf)
  {
    var c := CStr(buf);
    c[..|c| - 1]
  }

  /** The realm token names the realm looked up, or DEFAULT when there is none. */
  predicate RealmMatches(token: string, realm: Option<string>) {
    (realm.Some? && token == realm.value) || (realm.None? && token == "DEFAULT")
  }

  /** The last fields of a matching line: "<address>:<port>". */
  function ParseServer(rest: string, acct: bool): (r: LineStep)
    ensures r.Add? ==> r.acct == acct && 0 <= r.server.port < PORT_RANGE
    ensures r.Add? || r.Fail?
    ensures r == Fail(AddressMissing) <==> Strtok(rest, Colons).None?
    ensures r == Fail(PortMissing) <==>
      Strtok(rest, Colons).Some? && Strtok(Strtok(rest, Colons).value.1, Blanks).None?
  {
    match Strtok(rest, Colons)
    case None => Fail(AddressMissing)
    case Some(addr) =>
      match Strtok(addr.1, Blanks)
      case None => Fail(PortMissing)
      case Some(pt) => Add(acct, Server(addr.0, Atoi(pt.0) % PORT_RANGE))
  }

  /** The fields after a valid keyword, for a table that is not full: the realm, then the server. */
  function ParseRealm(rest: string, acct: bool, realm: Option<string>): (r: LineStep)
    ensures r.Add? ==> r.acct == acct && 0 <= r.server.port < PORT_RANGE
    ensures r.Add? ==> Strtok(rest, Blanks).Some? && RealmMatches(Strtok(rest, Blanks).value.0, realm)
    ensures r == Fail(RealmMissing) <==> Strtok(rest, Blanks).None?
    ensures r == Skip <==> Strtok(rest, Blanks).Some? && !RealmMatches(Strtok(rest, Blanks).value.0, realm)
    ensures Strtok(rest, Blanks).Some? && RealmMatches(Strtok(rest, Blanks).value.0, realm) ==>
      r == ParseServer(Strtok(rest, Blanks).value.1, acct)
  {
    match Strtok(rest, Blanks)
    case None => Fail(RealmMissing)
    case Some(rl) => if RealmMatches(rl.0, realm) then ParseServer(rl.1, acct) else Skip
  }

  /**
   * The keyword check: None for a token that is neither keyword, else
   * whether it names the acct table, which is when its second letter is 'c'.
   */
  function TableOf(kw: string): (acct: Option<bool>)
    ensures acct == Some(false) <==> kw == "authserver"
    ensures acct == Some(true) <==> kw == "acctserver"
  {
    if kw != "authserver" && kw != "acctserver" then None
    else
      assert kw == "authserver" ==> kw[1] == 'u';
      Some(kw[1] == 'c')
  }

  /** The fields of a line that is not ignored: the keyword, then, for a table that is not full, the realm and the server. */
  function ParseFields(text: string, realm: Option<string>, nAuth: nat, nAcct: nat): (r: LineStep)
    ensures r.Add? ==> Strtok(text, Blanks).Some?
    ensures r.Add? ==> var kw := Strtok(text, Blanks).value;
      && TableOf(kw.0) == Some(r.acct)
      && (if r.acct then nAcct else nAuth) < SERVER_MAX
      && r == ParseRealm(kw.1, r.acct, realm)
  {
    match Strtok(text, Blanks)
    case None => Fail(InvalidLine)
    case Some(kw) =>
      match TableOf(kw.0)
      case None => Fail(InvalidLine)
      case Some(acct) =>
        if (if acct then nAcct else nAuth) >= SERVER_MAX then Skip
        else ParseRealm(kw.1, acct, realm)
  }

  /**
   * The body of the fgets loop for one buffer, given how many auth and
   * acct servers have been collected so far.
   */
  function ParseLine(buf: string, realm: Option<string>, nAuth: nat, nAcct: nat): (r: LineStep)
    ensures r.Fail? ==> r.kind != CannotOpen
    ensures r.Add? ==> (if r.acct then nAcct else nAuth) < SERVER_MAX
  {
    if Ignored(buf) then Skip else ParseFields(LineText(buf), realm, nAuth, nAcct)
  }

  /** The fgets loop from line number `line` on, with the lists collected so far. */
  function Scan(lines: seq<string>, realm: Option<string>, auth: seq<Server>, acct: seq<Server>, line: nat): Outcome
    decreases |lines|, 0
  {
    if lines == [] then Found(auth, acct)
    else Continue(ParseLine(lines[0], realm, |auth|, |acct|), lines[1..], realm, auth, acct, line)
  }

  /** The rest of the loop once the buffer at line `line + 1` has given `step`. */
  function Continue(step: LineStep, rest: seq<string>, realm: Option<string>, auth: seq<Server>, acct: seq<Server>, line: nat): Outcome
    decreases |rest|, 1
  {
    match step
    case Skip => Scan(rest, realm, auth, acct, line + 1)
    case Fail(k) => Failed(k, line + 1)
    case Add(isAcct, s) =>
      if isAcct then Scan(rest, realm, auth, acct + [s], line + 1)
      else Scan(rest, realm, auth + [s], acct, line + 1)
  }

  /** lookup_realm as a function of the user name and the file. */
  function LookupRealmSpec(user: string, file: Option<seq<string>>): Outcome {
    match file
    case None => Failed(CannotOpen, 0)
    case Some(lines) => Scan(lines, RealmOf(user), [], [], 0)
  }

  /** A text that no NUL, blank, colon or newline appears in. */
  predicate Plain(t: string) {
    forall j :: 0 <= j < |t| ==> t[j] != '\0' && t[j] != '\n' && !Blank(t[j]) && !Colon(t[j])
  }

  /** The fields `<address>:<port>` of a realms-file line. */
  function ServerField(addr: string, port: nat): string {
    addr + [':'] + Decimal(port)
  }

  /** The fields `<realm> <address>:<port>`. */
  function RealmField(realm: string, addr: string, port: nat): string {
    realm + [' '] + ServerField(addr, port)
  }

  /** The keyword that names the acct table, or the auth table. */
  function Keyword(acct: bool): string {
    if acct then "acctserver" else "authserver"
  }

  /** The realms-file line `<keyword> <realm> <address>:<port>` followed by a newline. */
  function ServerLine(acct: bool, realm: string, addr: string, port: nat): string {
    Keyword(acct) + [' '] + RealmField(realm, addr, port) + ['\n']
  }

  lemma ServerFieldParses(addr: string, port: nat, acct: bool)
    requires addr != [] && Plain(addr) && port < PORT_RANGE
    ensures ParseServer(ServerField(addr, port), acct) == Add(acct, Server(addr, port))
  {
    var ds := Decimal(port);
    assert ServerField(addr, port) == addr + ([':'] + ds);
    StrtokToken(addr, Colons, [':'] + ds);
    assert ([':'] + ds)[1..] == ds;
    assert ds + [] == ds;
    forall j | 0 <= j < |ds| ensures !IsDelim(ds[j], Blanks) { assert IsDigit(ds[j]); }
    StrtokToken(ds, Blanks, []);
    AtoiDecimal(port);
    assert Strtok(ServerField(addr, port), Colons) == Some((addr, ds));
    assert Strtok(ds, Blanks) == Some((ds, []));
    PortInRange(port);
  }

  /** A port already in range is stored as it is. */
  lemma PortInRange(port: int)
    requires 0 <= port < PORT_RANGE
    ensures port % PORT_RANGE == port
  {
  }

  lemma RealmFieldParses(realm: string, addr: string, port: nat, acct: bool, lookedUp: Option<string>)
    requires realm != [] && addr != [] && Plain(realm) && Plain(addr) && port < PORT_RANGE
    requires RealmMatches(realm, lookedUp)
    ensures ParseRealm(RealmField(realm, addr, port), acct, lookedUp) == Add(acct, Server(addr, port))
  {
    var rest := ServerField(addr, port);
    var line := RealmField(realm, addr, port);
    assert line == realm + ([' '] + rest);
    StrtokToken(realm, Blanks, [' '] + rest);
    assert ([' '] + rest)[1..] == rest;
    assert Strtok(line, Blanks) == Some((realm, rest));
    ServerFieldParses(addr, port, acct);
  }

  /** A text without NUL and not starting with a comment mark or newline is tokenised whole once its newline is dropped. */
  lemma LineTextOf(text: string)
    requires text != [] && '\0' !in text && text[0] != '\n' && text[0] != '#'
    ensures !Ignored(text + ['\n']) && LineText(text + ['\n']) == text
  {
    var buf := text + ['\n'];
    assert '\0' !in buf by {
      forall j | 0 <= j < |buf| ensures buf[j] != '\0' {
        if j < |text| { assert buf[j] == text[j]; }
      }
    }
    assert CStr(buf) == buf;
  }

  /**
   * A last line without its newline still loses its final character, so
   * the tokens are read from a text one character short.
   */
  lemma UnterminatedLineLosesLastChar(text: string)
    requires text != [] && '\0' !in text && text[0] != '\n' && text[0] != '#'
    ensures !Ignored(text) && LineText(text) == text[..|text| - 1]
  {
    assert CStr(text) == text;
  }

  /** A keyword hands the rest of the line to the realm check while the table it names has room. */
  lemma KeywordHandsOn(text: string, rest: string, acct: bool, realm: Option<string>, nAuth: nat, nAcct: nat)
    requires Strtok(text, Blanks) == Some((Keyword(acct), rest))
    requires (if acct then nAcct else nAuth) < SERVER_MAX
    ensures ParseFields(text, realm, nAuth, nAcct) == ParseRealm(rest, acct, realm)
  {
    assert TableOf(Keyword(acct)) == Some(acct);
  }

  /** A server line without NUL in its fields is tokenised whole once its newline is dropped. */
  lemma ServerLineText(acct: bool, realm: string, addr: string, port: nat)
    requires realm != [] && Plain(realm) && Plain(addr)
    ensures var buf, text := ServerLine(acct, realm, addr, port), Keyword(acct) + [' '] + RealmField(realm, addr, port);
      !Ignored(buf) && LineText(buf) == text
  {
    var rest := RealmField(realm, addr, port);
    var text := Keyword(acct) + [' '] + rest;
    var ds := Decimal(port);
    assert '\0' !in text by {
      assert rest == realm + [' '] + addr + [':'] + ds;
      forall j | 0 <= j < |ds| ensures ds[j] != '\0' { assert IsDigit(ds[j]); }
      assert forall j :: 0 <= j < |realm| ==> realm[j] != '\0';
      assert forall j :: 0 <= j < |addr| ==> addr[j] != '\0';
    }
    LineTextOf(text);
    assert ServerLine(acct, realm, addr, port) == text + ['\n'];
  }

  /** strtok reads the keyword of a line as its first token and leaves what follows the blank after it. */
  lemma KeywordToken(acct: bool, rest: string)
    ensures Strtok(Keyword(acct) + [' '] + rest, Blanks) == Some((Keyword(acct), rest))
  {
    var kw := Keyword(acct);
    assert kw + [' '] + rest == kw + ([' '] + rest);
    assert forall j :: 0 <= j < |kw| ==> !IsDelim(kw[j], Blanks);
    StrtokToken(kw, Blanks, [' '] + rest);
    assert ([' '] + rest)[1..] == rest;
  }

  /**
   * A well-formed authserver or acctserver line whose realm token matches
   * the realm looked up (DEFAULT when the user name has none) adds its
   * address and port to the table its keyword names while that table has
   * room.
   */
  lemma ServerLineAdds(acct: bool, realm: string, lookedUp: Option<string>, addr: string, port: nat,
                       nAuth: nat, nAcct: nat)
    requires realm != [] && addr != [] && Plain(realm) && Plain(addr) && RealmMatches(realm, lookedUp)
    requires port < PORT_RANGE && (if acct then nAcct else nAuth) < SERVER_MAX
    ensures ParseLine(ServerLine(acct, realm, addr, port), lookedUp, nAuth, nAcct) == Add(acct, Server(addr, port))
  {
    var rest := RealmField(realm, addr, port);
    var text := Keyword(acct) + [' '] + rest;
    ServerLineText(acct, realm, addr, port);
    KeywordToken(acct, rest);
    RealmFieldParses(realm, addr, port, acct, lookedUp);
    KeywordHandsOn(text, rest, acct, lookedUp, nAuth, nAcct);
  }

  /** Comment lines, blank lines and empty C strings are skipped whatever the state. */
  lemma IgnoredLinesSkipped(buf: string, realm: Option<string>, nAuth: nat, nAcct: nat)
    requires |buf| > 0 && (buf[0] == '\n' || buf[0] == '#' || buf[0] == '\0')
    ensures ParseLine(buf, realm, nAuth, nAcct) == Skip
  {
    if buf[0] != '\0' {
      assert CStr(buf)[0] == buf[0];
    }
  }

  /**
   * A line whose first token is neither keyword is an error whatever the
   * state, while a keyword line for a full table is skipped without
   * looking at the rest of the line.
   */
  lemma KeywordChecks(buf: string, realm: Option<string>, nAuth: nat, nAcct: nat)
    requires !Ignored(buf)
    ensures var kw := Strtok(LineText(buf), Blanks);
      && (kw.None? || (kw.value.0 != "authserver" && kw.value.0 != "acctserver") ==>
            ParseLine(buf, realm, nAuth, nAcct) == Fail(InvalidLine))
      && (kw.Some? && kw.value.0 == "authserver" && nAuth >= SERVER_MAX ==> ParseLine(buf, realm, nAuth, nAcct) == Skip)
      && (kw.Some? && kw.value.0 == "acctserver" && nAcct >= SERVER_MAX ==> ParseLine(buf, realm, nAuth, nAcct) == Skip)
  {
  }

  /** A line adds to the table its keyword names, only for the realm looked up. */
  lemma AddedLines(buf: string, realm: Option<string>, nAuth: nat, nAcct: nat)
    ensures ParseLine(buf, realm, nAuth, nAcct).Add? ==> !Ignored(buf) && Strtok(LineText(buf), Blanks).Some?
    ensures ParseLine(buf, realm, nAuth, nAcct).Add? ==>
      var kw := Strtok(LineText(buf), Blanks).value;
      var step := ParseLine(buf, realm, nAuth, nAcct);
      && (step.acct <==> kw.0 == "acctserver")
      && (step.acct ==> nAcct < SERVER_MAX) && (!step.acct ==> nAuth < SERVER_MAX)
      && Strtok(kw.1, Blanks).Some? && RealmMatches(Strtok(kw.1, Blanks).value.0, realm)
      && 0 <= step.server.port < PORT_RANGE
  {
    if ParseLine(buf, realm, nAuth, nAcct).Add? {
      var step := ParseFields(LineText(buf), realm, nAuth, nAcct);
      assert step == ParseLine(buf, realm, nAuth, nAcct);
      var kw := Strtok(LineText(buf), Blanks).value;
      assert step == ParseRealm(kw.1, step.acct, realm);
    }
  }

  /** Neither table ever exceeds SERVER_MAX. */
  lemma {:induction false} ScanBounded(lines: seq<string>, realm: Option<string>,
                                       auth: seq<Server>, acct: seq<Server>, line: nat)
    requires |auth| <= SERVER_MAX && |acct| <= SERVER_MAX
    ensures var r := Scan(lines, realm, auth, acct, line);
      r.Found? ==> |r.auth| <= SERVER_MAX && |r.acct| <= SERVER_MAX
    decreases |lines|, 0
  {
    if lines != [] {
      ScanBoundedAfter(ParseLine(lines[0], realm, |auth|, |acct|), lines[1..], realm, auth, acct, line);
    }
  }

  /** ScanBounded once a buffer has given `step`, which adds only to a table with room. */
  lemma {:induction false} ScanBoundedAfter(step: LineStep, rest: seq<string>, realm: Option<string>,
                                            auth: seq<Server>, acct: seq<Server>, line: nat)
    requires |auth| <= SERVER_MAX && |acct| <= SERVER_MAX
    requires step.Add? ==> (if step.acct then |acct| else |auth|) < SERVER_MAX
    ensures var r := Continue(step, rest, realm, auth, acct, line);
      r.Found? ==> |r.auth| <= SERVER_MAX && |r.acct| <= SERVER_MAX
    decreases |rest|, 1
  {
    match step
    case Skip => ScanBounded(rest, realm, auth, acct, line + 1);
    case Fail(_) =>
    case Add(isAcct, s) =>
      if isAcct {
        ScanBounded(rest, realm, auth, acct + [s], line + 1);
      } else {
        ScanBounded(rest, realm, auth + [s], acct, line + 1);
      }
  }

  /** The lists only grow at their ends, in file order. */
  lemma {:induction false} ScanOrdered(lines: seq<string>, realm: Option<string>,
                                       auth: seq<Server>, acct: seq<Server>, line: nat)
    ensures var r := Scan(lines, realm, auth, acct, line);
      r.Found? ==> auth <= r.auth && acct <= r.acct
    decreases |lines|, 0
  {
    if lines != [] {
      ScanOrderedAfter(ParseLine(lines[0], realm, |auth|, |acct|), lines[1..], realm, auth, acct, line);
    }
  }

  /** ScanOrdered once a buffer has given `step`. */
  lemma {:induction false} ScanOrderedAfter(step: LineStep, rest: seq<string>, realm: Option<string>,
                                            auth: seq<Server>, acct: seq<Server>, line: nat)
    ensures var r := Continue(step, rest, realm, auth, acct, line);
      r.Found? ==> auth <= r.auth && acct <= r.acct
    decreases |rest|, 1
  {
    match step
    case Skip => ScanOrdered(rest, realm, auth, acct, line + 1);
    case Fail(_) =>
    case Add(isAcct, s) =>
      if isAcct {
        ScanOrdered(rest, realm, auth, acct + [s], line + 1);
        var r := Scan(rest, realm, auth, acct + [s], line + 1);
        if r.Found? {
          PrefixOfExtension(acct, s, r.acct);
        }
      } else {
        ScanOrdered(rest, realm, auth + [s], acct, line + 1);
        var r := Scan(rest, realm, auth + [s], acct, line + 1);
        if r.Found? {
          PrefixOfExtension(auth, s, r.auth);
        }
      }
  }

  /** An error names the line it happened on, counted from 1, within the file. */
  lemma {:induction false} FailedLineInFile(lines: seq<string>, realm: Option<string>,
                                            auth: seq<Server>, acct: seq<Server>, line: nat)
    ensures var r := Scan(lines, realm, auth, acct, line);
      r.Failed? ==> line < r.line <= line + |lines| && r.kind != CannotOpen
    decreases |lines|, 0
  {
    if lines != [] {
      FailedLineAfter(ParseLine(lines[0], realm, |auth|, |acct|), lines[1..], realm, auth, acct, line);
    }
  }

  lemma {:induction false} FailedLineAfter(step: LineStep, rest: seq<string>, realm: Option<string>,
                                           auth: seq<Server>, acct: seq<Server>, line: nat)
    requires !step.Fail? || step.kind != CannotOpen
    ensures var r := Continue(step, rest, realm, auth, acct, line);
      r.Failed? ==> line < r.line <= line + 1 + |rest| && r.kind != CannotOpen
    decreases |rest|, 1
  {
    match step
    case Skip => FailedLineInFile(rest, realm, auth, acct, line + 1);
    case Fail(_) =>
    case Add(isAcct, s) =>
      if isAcct {
        FailedLineInFile(rest, realm, auth, acct + [s], line + 1);
      } else {
        FailedLineInFile(rest, realm, auth + [s], acct, line + 1);
      }
  }

  /**
   * A buffer that fails stops the loop at once: the error and the line it
   * was read on (counted from 1) are the outcome, whatever follows.
   */
  lemma FailedLineStops(lines: seq<string>, realm: Option<string>, auth: seq<Server>, acct: seq<Server>, line: nat)
    requires lines != []
    ensures var step := ParseLine(lines[0], realm, |auth|, |acct|);
      step.Fail? ==> Scan(lines, realm, auth, acct, line) == Failed(step.kind, line + 1)
  {
  }

  /**
   * A keyword line for a table with room whose realm, address or port
   * field is missing aborts with that error, which lookup_realm reports
   * without handing out either table.
   */
  lemma MissingFieldsFail(user: string, lines: seq<string>, acct: bool)
    requires lines != [] && !Ignored(lines[0])
    requires var kw := Strtok(LineText(lines[0]), Blanks);
      kw.Some? && kw.value.0 == (if acct then "acctserver" else "authserver")
    ensures var rest, realm := Strtok(LineText(lines[0]), Blanks).value.1, RealmOf(user);
      var rl := Strtok(rest, Blanks);
      && (rl.None? ==> LookupRealmSpec(user, Some(lines)) == Failed(RealmMissing, 1))
      && (rl.Some? && RealmMatches(rl.value.0, realm) && Strtok(rl.value.1, Colons).None? ==>
            LookupRealmSpec(user, Some(lines)) == Failed(AddressMissing, 1))
      && (rl.Some? && RealmMatches(rl.value.0, realm) && Strtok(rl.value.1, Colons).Some?
          && Strtok(Strtok(rl.value.1, Colons).value.1, Blanks).None? ==>
            LookupRealmSpec(user, Some(lines)) == Failed(PortMissing, 1))
  {
    var kw := Strtok(LineText(lines[0]), Blanks).value;
    assert TableOf(kw.0) == Some(acct);
    var step := ParseLine(lines[0], RealmOf(user), 0, 0);
    assert step == ParseRealm(kw.1, acct, RealmOf(user));
    FailedLineStops(lines, RealmOf(user), [], [], 0);
  }

  /** One turn of the fgets loop, at line index `i`. */
  lemma ScanStep(lines: seq<string>, realm: Option<string>, auth: seq<Server>, acct: seq<Server>, i: nat)
    requires i < |lines|
    ensures Scan(lines[i..], realm, auth, acct, i) ==
      Continue(ParseLine(lines[i], realm, |auth|, |acct|), lines[i + 1..], realm, auth, acct, i)
  {
    assert lines[i..][0] == lines[i] && lines[i..][1..] == lines[i + 1..];
  }

  /** A SERVER table: `max` entries of `name` and `port` in use. */
  class ServerTable {
    var max: int
    var name: array<string>
    var port: array<int>
    ghost var Contents: seq<Server>

    ghost predicate Valid()
      reads this, name, port
    {
      && name.Length == SERVER_MAX && port.Length == SERVER_MAX
      && max == |Contents| <= SERVER_MAX
      && forall i :: 0 <= i < max ==> name[i] == Contents[i].name && port[i] == Contents[i].port
    }

    /** malloc(sizeof(SERVER)) followed by `max = 0`. */
    constructor ()
      ensures Valid() && Contents == [] && fresh(name) && fresh(port)
    {
      max := 0;
      name := new string[SERVER_MAX](_ => []);
      port := new int[SERVER_MAX](_ => 0);
      Contents := [];
    }

    /** `s->name[s->max] = …; s->port[s->max] = …; s->max++`. */
    method Append(s: Server)
      requires Valid() && max < SERVER_MAX
      modifies this, name, port
      ensures Valid() && name == old(name) && port == old(port)
      ensures Contents == old(Contents) + [s]
    {
      name[max] := s.name;
      port[max] := s.port;
      max := max + 1;
      Contents := Contents + [s];
    }
  }

  /** The two tables lookup_realm fills are distinct objects with distinct arrays. */
  ghost predicate Apart(auths: ServerTable, accts: ServerTable)
    reads auths, accts
  {
    auths != accts && auths.name != accts.name && auths.port != accts.port
  }

  /**
   * The rest of one turn of the fgets loop once the buffer has given a
   * step that is not an error: add the server it names, if any, to its
   * table, which has room.
   */
  method TakeStep(auths: ServerTable, accts: ServerTable, step: LineStep, ghost rest: seq<string>,
                  ghost realm: Option<string>, ghost line: nat)
    requires auths.Valid() && accts.Valid() && Apart(auths, accts) && !step.Fail?
    requires step.Add? ==> (if step.acct then accts.max else auths.max) < SERVER_MAX
    modifies auths, auths.name, auths.port, accts, accts.name, accts.port
    ensures auths.Valid() && accts.Valid() && Apart(auths, accts)
    ensures auths.name == old(auths.name) && auths.port == old(auths.port)
    ensures accts.name == old(accts.name) && accts.port == old(accts.port)
    ensures Continue(step, rest, realm, old(auths.Contents), old(accts.Contents), line)
         == Scan(rest, realm, auths.Contents, accts.Contents, line + 1)
  {
    match step {
      case Skip =>
      case Add(isAcct, s) =>
        if isAcct {
          accts.Append(s);
        } else {
          auths.Append(s);
        }
    }
  }

  /**
   * The fgets loop of lookup_realm over the lines of the file, filling the
   * two empty tables; an error stops it at the line it names.
   */
  method ReadFile(auths: ServerTable, accts: ServerTable, lines: seq<string>, realm: Option<string>)
    returns (err: Option<(ErrorKind, nat)>)
    requires auths.Valid() && accts.Valid() && Apart(auths, accts)
    requires auths.Contents == [] && accts.Contents == []
    modifies auths, auths.name, auths.port, accts, accts.name, accts.port
    ensures auths.Valid() && accts.Valid()
    ensures match Scan(lines, realm, [], [], 0)
      case Failed(k, l) => err == Some((k, l))
      case Found(a, c) => err.None? && auths.Contents == a && accts.Contents == c
  {
    var i := 0;
    while i < |lines|
      invariant 0 <= i <= |lines|
      invariant auths.Valid() && accts.Valid() && Apart(auths, accts)
      invariant auths.name == old(auths.name) && auths.port == old(auths.port)
      invariant accts.name == old(accts.name) && accts.port == old(accts.port)
      invariant Scan(lines, realm, [], [], 0) == Scan(lines[i..], realm, auths.Contents, accts.Contents, i)
      decreases |lines| - i
    {
      ScanStep(lines, realm, auths.Contents, accts.Contents, i);
      var step := ParseLine(lines[i], realm, auths.max, accts.max);
      if step.Fail? {
        return Some((step.kind, i + 1));
      }
      TakeStep(auths, accts, step, lines[i + 1..], realm, i);
      i := i + 1;
    }
    assert lines[i..] == [];
    return None;
  }

  /**
   * lookup_realm: scan the lines, then hand out each table only if it is
   * non-empty; None for an output means the caller's pointer is left as
   * it was. An error hands out neither.
   */
  method LookupRealm(user: string, file: Option<seq<string>>)
    returns (authserver: Option<ServerTable>, acctserver: Option<ServerTable>, err: Option<(ErrorKind, nat)>)
    ensures match LookupRealmSpec(user, file)
      case Failed(k, l) => err == Some((k, l)) && authserver.None? && acctserver.None?
      case Found(a, c) =>
        && err.None?
        && (authserver.Some? <==> a != []) && (acctserver.Some? <==> c != [])
        && (authserver.Some? ==> authserver.value.Valid() && authserver.value.Contents == a)
        && (acctserver.Some? ==> acctserver.value.Valid() && acctserver.value.Contents == c)
  {
    authserver, acctserver := None, None;
    var auths := new ServerTable();
    var accts := new ServerTable();
    var realm := RealmOf(user);
    if file.None? {
      return authserver, acctserver, Some((CannotOpen, 0));
    }
    err := ReadFile(auths, accts, file.value, realm);
    if err.Some? {
      return;
    }
    if accts.max > 0 {
      acctserver := Some(accts);
    }
    if auths.max > 0 {
      authserver := Some(auths);
    }
  }
}
