/**
 Canonical actor paths: minting, printing, parsing and comparing them.
 */
module Paths {
  import opened Common
  import Decimal

  datatype Error = Malformed | BadName | BadSystem | EmptyHost | BadPort | WrongParent | SameNameAsParent | BadUid

  datatype Result<T> = Ok(value: T) | Err(error: Error)

  const SCHEME_PREFIX: string := "nodeakt://"
  const MAX_NAME_LENGTH: nat := 255

  datatype Address = Address(system: string, host: string, port: int)

  /** `uid` 0 is a restored reference with no living instance. */
  datatype Path = Path(name: string, address: Address, parent: Option<Path>, uid: nat)

  /** The uid a path is created with: a fresh one from the process-wide counter, or text. */
  datatype Uid = Mint(next: nat) | Given(text: string)

  predicate Alphanumeric(c: char) { 'a' <= c <= 'z' || 'A' <= c <= 'Z' || '0' <= c <= '9' }

  predicate ValidName(s: string) {
    && 0 < |s| <= MAX_NAME_LENGTH && Alphanumeric(s[0])
    && (forall i | 0 <= i < |s| :: Alphanumeric(s[i]) || s[i] == '-' || s[i] == '_' || s[i] == '.')
  }

  function LowerChar(c: char): char {
    if 'A' <= c <= 'Z' then ((c as int) + 32) as char else c
  }

  function Lower(s: string): string { seq(|s|, i requires 0 <= i < |s| => LowerChar(s[i])) }

  function ParseUid(uid: Uid): Result<nat> {
    match uid
    case Mint(next) => Ok(next)
    case Given(text) =>
      if text == "" then Ok(0)
      else if Decimal.Canonical(text) && text[0] != '0' then Ok(Decimal.Value(text))
      else Err(BadUid)
  }

  /** `newPathAt`: validates every constituent; a child lives at its parent's address. */
  function NewPathAt(name: string, address: Address, parent: Option<Path>, uid: Uid): Result<Path> {
    if !ValidName(name) then Err(BadName)
    else if !ValidName(address.system) then Err(BadSystem)
    else if address.host == "" then Err(EmptyHost)
    else if !(0 <= address.port <= 65535) then Err(BadPort)
    else if parent.Some? && Lower(parent.value.address.system) != Lower(address.system) then Err(WrongParent)
    else if parent.Some? && (parent.value.address.host != address.host || parent.value.address.port != address.port)
    then Err(WrongParent)
    else if parent.Some? && parent.value.name == name then Err(SameNameAsParent)
    else
      match ParseUid(uid)
      case Err(e) => Err(e)
      case Ok(u) => Ok(Path(name, if parent.Some? then parent.value.address else address, parent, u))
  }

  function ToString(p: Path): string {
    match p.parent
    case None => SCHEME_PREFIX + Head(p.address) + "/" + p.name
    case Some(q) => ToString(q) + "/" + p.name
  }

  function PrintPort(port: int): string {
    if port < 0 then "-" + Decimal.Print(-port) else Decimal.Print(port)
  }

  function HostPort(host: string, port: int): string { host + ":" + PrintPort(port) }

  function Head(a: Address): string { a.system + "@" + HostPort(a.host, a.port) }

  /** A canonical path after its scheme. */
  function Body(a: Address, segments: seq<string>): string
    requires segments != []
  {
    Head(a) + "/" + Join(segments)
  }

  predicate Equals(p: Path, q: Path) {
    && p.name == q.name && p.address == q.address
    && (match p.parent
        case None => q.parent == None
        case Some(pp) => q.parent.Some? && Equals(pp, q.parent.value))
  }

  /* ---------- string searching ---------- */

  function IndexOf(s: string, c: char, from: nat): (i: int)
    requires from <= |s|
    ensures i == -1 || from <= i < |s|
    ensures i == -1 ==> forall j | from <= j < |s| :: s[j] != c
    ensures i != -1 ==> s[i] == c && forall j | from <= j < i :: s[j] != c
    decreases |s| - from
  {
    if from == |s| then -1 else if s[from] == c then from else IndexOf(s, c, from + 1)
  }

  function LastIndexOf(s: string, c: char): (i: int)
    ensures i == -1 || 0 <= i < |s|
    ensures i == -1 ==> forall j | 0 <= j < |s| :: s[j] != c
    ensures i != -1 ==> s[i] == c && forall j | i < j < |s| :: s[j] != c
  {
    if s == [] then -1
    else if s[|s| - 1] == c then |s| - 1
    else
      assert forall j | 0 <= j < |s| - 1 :: s[..|s| - 1][j] == s[j];
      LastIndexOf(s[..|s| - 1], c)
  }

  /** The segments between slashes. */
  function Split(s: string): (r: seq<string>)
    ensures r != []
    decreases |s|
  {
    var i := IndexOf(s, '/', 0);
    if i == -1 then [s] else [s[..i]] + Split(s[i + 1..])
  }

  function Join(segments: seq<string>): string
    requires segments != []
  {
    if |segments| == 1 then segments[0] else segments[0] + "/" + Join(segments[1..])
  }

  predicate NoSlash(s: string) { '/' !in s }

  /** Splitting undoes joining slash-free segments. */
  lemma {:induction false} SplitOfJoin(segments: seq<string>)
    requires segments != [] && forall i | 0 <= i < |segments| :: NoSlash(segments[i])
    ensures Split(Join(segments)) == segments
  {
    var s := Join(segments);
    if |segments| == 1 {
      assert IndexOf(s, '/', 0) == -1;
    } else {
      SplitOfJoin(segments[1..]);
      var i := IndexOf(s, '/', 0);
      assert s[|segments[0]|] == '/';
      assert i == |segments[0]| by {
        assert forall j | 0 <= j < |segments[0]| :: s[j] == segments[0][j] && s[j] in segments[0];
      }
      assert s[..i] == segments[0] && s[i + 1..] == Join(segments[1..]);
      assert segments == [segments[0]] + segments[1..];
    }
  }

  /** Joining undoes splitting. */
  lemma {:induction false} JoinOfSplit(s: string)
    ensures Join(Split(s)) == s
    ensures forall i | 0 <= i < |Split(s)| :: NoSlash(Split(s)[i])
    decreases |s|
  {
    var i := IndexOf(s, '/', 0);
    if i != -1 {
      JoinOfSplit(s[i + 1..]);
      assert s == s[..i] + "/" + s[i + 1..];
      assert Split(s)[1..] == Split(s[i + 1..]);
    }
  }

  /* ---------- parsing ---------- */

  datatype Parts = Parts(address: Address, segments: seq<string>)

  /** The host and port after the last colon; the port must be canonical. */
  function ParseHostPort(hostPort: string): Result<(string, nat)> {
    var colon := LastIndexOf(hostPort, ':');
    if colon <= 0 then Err(Malformed)
    else if !Decimal.Canonical(hostPort[colon + 1..]) then Err(Malformed)
    else Ok((hostPort[..colon], Decimal.Value(hostPort[colon + 1..])))
  }

  /** The three pieces around the separators. */
  function ParsePieces(system: string, hostPort: string, tail: string): (r: Result<Parts>)
    ensures r.Ok? ==> r.value.segments != []
  {
    match ParseHostPort(hostPort)
    case Err(e) => Err(e)
    case Ok((host, port)) =>
      var segments := Split(tail);
      if exists i | 0 <= i < |segments| :: |segments[i]| == 0 then Err(Malformed) else
      Ok(Parts(Address(system, host, port), segments))
  }

  /** Everything `parsePath` does after the scheme and before it rebuilds the
      ancestor chain. */
  function ParseRest(rest: string): (r: Result<Parts>)
    ensures r.Ok? ==> r.value.segments != []
  {
    var at := IndexOf(rest, '@', 0);
    var slash := IndexOf(rest, '/', at + 1);
    if at <= 0 || slash < 0 then Err(Malformed)
    else ParsePieces(rest[..at], rest[at + 1..slash], rest[slash + 1..])
  }

  function ParseParts(value: string): (r: Result<Parts>)
    ensures r.Ok? ==> r.value.segments != []
  {
    if SCHEME_PREFIX <= value then ParseRest(value[|SCHEME_PREFIX|..]) else Err(Malformed)
  }

  /** The chain of references over `segments`, the last one carrying `uid`. */
  function Chain(segments: seq<string>, address: Address, parent: Option<Path>, uid: Uid): Result<Path>
    requires segments != []
  {
    if |segments| == 1 then NewPathAt(segments[0], address, parent, uid)
    else
      match NewPathAt(segments[0], address, parent, Given(""))
      case Err(e) => Err(e)
      case Ok(p) => Chain(segments[1..], address, Some(p), uid)
  }

  function Parse(value: string, uid: string): Result<Path> {
    match ParseParts(value)
    case Err(e) => Err(e)
    case Ok(parts) => Chain(parts.segments, parts.address, None, Given(uid))
  }

  /** `parsePath`: rebuilds the parents left to right in a loop. */
  method ParsePath(value: string, uid: string) returns (r: Result<Path>)
    ensures r == Parse(value, uid)
  {
    var parts := ParseParts(value);
    if parts.Err? {
      return Err(parts.error);
    }
    var segments, address := parts.value.segments, parts.value.address;
    var parent: Option<Path> := None;
    ghost var rest := segments;
    for i := 0 to |segments| - 1
      invariant rest == segments[i..]
      invariant Chain(segments, address, None, Given(uid)) == Chain(rest, address, parent, Given(uid))
    {
      var step := NewPathAt(segments[i], address, parent, Given(""));
      if step.Err? {
        return Err(step.error);
      }
      parent := Some(step.value);
      rest := rest[1..];
    }
    r := NewPathAt(segments[|segments| - 1], address, parent, Given(uid));
  }

  /* ---------- minted paths ---------- */

  /** The paths `NewPathAt` can produce, at any depth. */
  predicate Minted(p: Path) {
    && ValidName(p.name) && ValidName(p.address.system) && p.address.host != "" && 0 <= p.address.port <= 65535
    && (p.parent.Some? ==>
          Minted(p.parent.value) && p.parent.value.address == p.address && p.parent.value.name != p.name)
  }

  /** Two addresses of one node: system names are the same up to case. */
  predicate SameNode(a: Address, b: Address) {
    Lower(a.system) == Lower(b.system) && a.host == b.host && a.port == b.port
  }

  /** The characters are the same letter, in either case, or the same character. */
  predicate SameLetter(c: char, d: char) {
    c == d || ('A' <= c <= 'Z' && d as int - c as int == 32) || ('A' <= d <= 'Z' && c as int - d as int == 32)
  }

  /** System names are compared up to the case of their letters. */
  lemma SameUpToCase(s: string, t: string)
    ensures Lower(s) == Lower(t) <==> |s| == |t| && forall i | 0 <= i < |s| :: SameLetter(s[i], t[i])
  {
    if Lower(s) == Lower(t) {
      forall i | 0 <= i < |s| ensures SameLetter(s[i], t[i]) {
        assert Lower(s)[i] == LowerChar(s[i]) && Lower(t)[i] == LowerChar(t[i]);
      }
    }
  }

  /** Minting yields minted paths on the node it is given, and every minted path can be
      minted, from any spelling of its parent's node. */
  lemma MintingIsExact(name: string, address: Address, parent: Option<Path>, uid: Uid, p: Path)
    requires parent.Some? ==> Minted(parent.value)
    ensures NewPathAt(name, address, parent, uid) == Ok(p) ==>
      && Minted(p) && p.name == name && p.parent == parent
      && SameNode(p.address, address) && (parent.None? ==> p.address == address)
    ensures Minted(p) && ValidName(address.system) && SameNode(p.address, address) ==>
      p.parent.Some? || p.address == address ==> NewPathAt(p.name, address, p.parent, Mint(p.uid)) == Ok(p)
  {
  }

  function Names(p: Path): (r: seq<string>)
    ensures r != []
  {
    match p.parent
    case None => [p.name]
    case Some(q) => Names(q) + [p.name]
  }

  /** The reference a path's string restores to: the same path without uids. */
  function Bare(p: Path): Path {
    Path(p.name, p.address, match p.parent case None => None case Some(q) => Some(Bare(q)), 0)
  }

  lemma {:induction false} EqualsIsBare(p: Path, q: Path)
    ensures Equals(p, q) <==> Bare(p) == Bare(q)
  {
    match p.parent
    case None =>
    case Some(pp) => if q.parent.Some? { EqualsIsBare(pp, q.parent.value); }
  }

  lemma {:induction false} JoinAppend(segments: seq<string>, x: string)
    requires segments != []
    ensures Join(segments + [x]) == Join(segments) + "/" + x
  {
    if |segments| > 1 {
      assert (segments + [x])[1..] == segments[1..] + [x];
      JoinAppend(segments[1..], x);
    } else {
      assert (segments + [x])[1..] == [x];
    }
  }

  lemma Assoc(a: string, b: string, c: string, d: string)
    ensures a + b + c + d == a + (b + c + d)
  {
    assert a + b + c + d == a + (b + c + d);
  }

  lemma {:induction false} PrintedForm(p: Path)
    requires Minted(p)
    ensures ToString(p) == SCHEME_PREFIX + Body(p.address, Names(p))
  {
    match p.parent
    case None =>
      Assoc(SCHEME_PREFIX, Head(p.address), "/", p.name);
    case Some(q) =>
      PrintedForm(q);
      JoinAppend(Names(q), p.name);
      ExtendBody(SCHEME_PREFIX, Head(p.address), Join(Names(q)), p.name);
  }

  lemma ExtendBody(prefix: string, head: string, join: string, name: string)
    ensures (prefix + (head + "/" + join)) + "/" + name == prefix + (head + "/" + (join + "/" + name))
  {
  }

  lemma {:induction false} NamesAreNames(p: Path)
    requires Minted(p)
    ensures forall i | 0 <= i < |Names(p)| :: ValidName(Names(p)[i])
    ensures Names(p)[|Names(p)| - 1] == p.name
  {
    match p.parent
    case None =>
    case Some(q) => NamesAreNames(q);
  }

  lemma {:induction false} ChainAppend(segments: seq<string>, x: string, address: Address, parent: Option<Path>,
                                       uid: Uid)
    requires segments != [] && Chain(segments, address, parent, Given("")).Ok?
    ensures Chain(segments + [x], address, parent, uid)
         == NewPathAt(x, address, Some(Chain(segments, address, parent, Given("")).value), uid)
  {
    if |segments| > 1 {
      assert (segments + [x])[1..] == segments[1..] + [x];
      ChainAppend(segments[1..], x, address, Some(NewPathAt(segments[0], address, parent, Given("")).value), uid);
    } else {
      assert (segments + [x])[1..] == [x];
    }
  }

  /** Rebuilding the chain over a path's names restores the path. */
  lemma {:induction false} ChainOfNames(p: Path)
    requires Minted(p)
    ensures Chain(Names(p), p.address, None, Given("")) == Ok(Bare(p))
  {
    match p.parent
    case None =>
    case Some(q) =>
      ChainOfNames(q);
      ChainAppend(Names(q), p.name, p.address, None, Given(""));
  }

  /** A chain that builds is minted, and carries exactly the given names. */
  lemma {:induction false} ChainIsMinted(segments: seq<string>, address: Address, parent: Option<Path>, uid: Uid)
    requires segments != [] && Chain(segments, address, parent, uid).Ok?
    requires parent.Some? ==> Minted(parent.value) && parent.value.address == address
    ensures var p := Chain(segments, address, parent, uid).value;
      && Minted(p) && p.address == address
      && Names(p) == (if parent.Some? then Names(parent.value) else []) + segments
  {
    if |segments| > 1 {
      var first := NewPathAt(segments[0], address, parent, Given("")).value;
      ChainIsMinted(segments[1..], address, Some(first), uid);
      assert segments == [segments[0]] + segments[1..];
    } else {
      assert segments == [segments[0]];
    }
  }

  /* ---------- round trips ---------- */

  lemma HostPortOfPrinted(host: string, port: nat)
    requires host != ""
    ensures ParseHostPort(HostPort(host, port)) == Ok((host, port))
  {
    var digits := Decimal.Print(port);
    var s := HostPort(host, port);
    assert s == host + ":" + digits && s[|host|] == ':';
    assert forall j | |host| < j < |s| :: s[j] == digits[j - |host| - 1];
    assert LastIndexOf(s, ':') == |host|;
    assert s[|host| + 1..] == digits && s[..|host|] == host;
    Decimal.ValueOfPrint(port);
  }

  lemma PrintedOfHostPort(s: string)
    requires ParseHostPort(s).Ok?
    ensures s == HostPort(ParseHostPort(s).value.0, ParseHostPort(s).value.1)
    ensures ParseHostPort(s).value.0 != "" && (NoSlash(s) ==> NoSlash(ParseHostPort(s).value.0))
  {
    var colon := LastIndexOf(s, ':');
    assert s == s[..colon] + ":" + s[colon + 1..];
    Decimal.PrintOfValue(s[colon + 1..]);
    assert forall j | 0 <= j < colon :: s[..colon][j] == s[j];
  }

  lemma Cut(a: string, x: string, b: string)
    requires |x| == 1
    ensures var s := a + x + b;
      |s| == |a| + 1 + |b| && s[..|a|] == a && s[|a|] == x[0] && s[|a| + 1..] == b
  {
  }

  lemma FirstIs(s: string, c: char, from: nat, k: nat)
    requires from <= k < |s| && s[k] == c && c !in s[from..k]
    ensures IndexOf(s, c, from) == k
  {
    assert forall j | from <= j < k :: s[j] == s[from..k][j - from] && s[j] in s[from..k];
  }

  lemma SliceOfSlice(s: string, i: nat, n: nat)
    requires i + n <= |s|
    ensures s[i..][..n] == s[i..i + n] && s[i..][n..] == s[i + n..]
    ensures n < |s[i..]| ==> s[i..][n] == s[i + n]
  {
  }

  lemma RightNested(system: string, hostPort: string, tail: string)
    ensures system + "@" + hostPort + "/" + tail == system + "@" + (hostPort + "/" + tail)
  {
  }

  lemma LocateSlash(rest: string, from: nat, inner: string, hostPort: string)
    requires NoSlash(hostPort) && from <= |rest| && rest[from..] == inner
    requires |hostPort| < |inner| && inner[..|hostPort|] == hostPort && inner[|hostPort|] == '/'
    ensures IndexOf(rest, '/', from) == from + |hostPort| && rest[from..from + |hostPort|] == hostPort
  {
    SliceOfSlice(rest, from, |hostPort|);
    FirstIs(rest, '/', from, from + |hostPort|);
  }

  lemma Locate(rest: string, system: string, inner: string, hostPort: string, tail: string)
    requires '@' !in system && NoSlash(hostPort)
    requires |rest| == |system| + 1 + |inner| && rest[..|system|] == system
    requires rest[|system|] == '@' && rest[|system| + 1..] == inner
    requires |inner| == |hostPort| + 1 + |tail| && inner[..|hostPort|] == hostPort
    requires inner[|hostPort|] == '/' && inner[|hostPort| + 1..] == tail
    ensures IndexOf(rest, '@', 0) == |system|
    ensures IndexOf(rest, '/', |system| + 1) == |system| + 1 + |hostPort|
    ensures rest[|system| + 1..|system| + 1 + |hostPort|] == hostPort
    ensures rest[|system| + 1 + |hostPort| + 1..] == tail
  {
    LocateSlash(rest, |system| + 1, inner, hostPort);
    SliceOfSlice(rest, |system| + 1, |hostPort| + 1);
    assert rest[0..|system|] == system;
    FirstIs(rest, '@', 0, |system|);
  }

  lemma PrintedPortHasNoSlash(host: string, port: nat)
    requires NoSlash(host)
    ensures NoSlash(HostPort(host, port))
  {
    assert forall i | 0 <= i < |Decimal.Print(port)| :: Decimal.Print(port)[i] != '/';
  }

  lemma RestAt(rest: string, at: nat, slash: nat, system: string, hostPort: string, tail: string)
    requires 0 < at < slash < |rest| && IndexOf(rest, '@', 0) == at && IndexOf(rest, '/', at + 1) == slash
    requires rest[..at] == system && rest[at + 1..slash] == hostPort && rest[slash + 1..] == tail
    ensures ParseRest(rest) == ParsePieces(system, hostPort, tail)
  {
  }

  /** Where the pieces of an accepted string are. */
  lemma RestPieces(rest: string) returns (at: nat, slash: nat)
    requires ParseRest(rest).Ok?
    ensures 0 < at < slash < |rest| && rest[at] == '@' && rest[slash] == '/' && NoSlash(rest[at + 1..slash])
    ensures ParseRest(rest) == ParsePieces(rest[..at], rest[at + 1..slash], rest[slash + 1..])
  {
    at := IndexOf(rest, '@', 0);
    slash := IndexOf(rest, '/', at + 1);
    SliceHasNoSlash(rest, at + 1, slash);
  }

  lemma PiecesParse(hostPort: string, tail: string, a: Address, segments: seq<string>)
    requires a.port >= 0 && ParseHostPort(hostPort) == Ok((a.host, a.port)) && Split(tail) == segments
    requires forall i | 0 <= i < |segments| :: ValidName(segments[i])
    ensures ParsePieces(a.system, hostPort, tail) == Ok(Parts(a, segments))
  {
  }

  lemma ValidNameHasNoSeparator(s: string)
    requires ValidName(s)
    ensures NoSlash(s) && '@' !in s
  {
  }

  /** The pieces of a printed path are found again. */
  lemma FromPieces(rest: string, system: string, inner: string, hostPort: string, tail: string)
    requires '@' !in system && system != "" && NoSlash(hostPort)
    requires |rest| == |system| + 1 + |inner| && rest[..|system|] == system
    requires rest[|system|] == '@' && rest[|system| + 1..] == inner
    requires |inner| == |hostPort| + 1 + |tail| && inner[..|hostPort|] == hostPort
    requires inner[|hostPort|] == '/' && inner[|hostPort| + 1..] == tail
    ensures ParseRest(rest) == ParsePieces(system, hostPort, tail)
  {
    Locate(rest, system, inner, hostPort, tail);
    RestAt(rest, |system|, |system| + 1 + |hostPort|, system, hostPort, tail);
  }

  lemma BodyPieces(a: Address, segments: seq<string>)
    requires '@' !in a.system && a.system != "" && a.port >= 0 && NoSlash(a.host) && segments != []
    ensures ParseRest(Body(a, segments)) == ParsePieces(a.system, HostPort(a.host, a.port), Join(segments))
  {
    var hostPort, tail := HostPort(a.host, a.port), Join(segments);
    PrintedPortHasNoSlash(a.host, a.port);
    RightNested(a.system, hostPort, tail);
    Cut(hostPort, "/", tail);
    Cut(a.system, "@", hostPort + "/" + tail);
    FromPieces(Body(a, segments), a.system, hostPort + "/" + tail, hostPort, tail);
  }

  lemma RestOfPrinted(a: Address, segments: seq<string>)
    requires ValidName(a.system) && a.host != "" && a.port >= 0 && NoSlash(a.host)
    requires segments != [] && forall i | 0 <= i < |segments| :: ValidName(segments[i])
    ensures ParseRest(Body(a, segments)) == Ok(Parts(a, segments))
  {
    ValidNameHasNoSeparator(a.system);
    BodyPieces(a, segments);
    HostPortOfPrinted(a.host, a.port);
    forall i | 0 <= i < |segments| ensures NoSlash(segments[i]) {
      ValidNameHasNoSeparator(segments[i]);
    }
    SplitOfJoin(segments);
    PiecesParse(HostPort(a.host, a.port), Join(segments), a, segments);
  }

  lemma StripPrefix(prefix: string, rest: string)
    ensures prefix <= prefix + rest && (prefix + rest)[|prefix|..] == rest
  {
  }

  lemma Reassemble(rest: string, at: nat, slash: nat)
    requires at < slash < |rest| && rest[at] == '@' && rest[slash] == '/'
    ensures rest == rest[..at] + "@" + rest[at + 1..slash] + "/" + rest[slash + 1..]
  {
  }

  lemma PrintedOfPieces(system: string, hostPort: string, tail: string)
    requires ParsePieces(system, hostPort, tail).Ok? && NoSlash(hostPort)
    ensures var parts := ParsePieces(system, hostPort, tail).value;
      && system + "@" + hostPort + "/" + tail == Body(parts.address, parts.segments)
      && NoSlash(parts.address.host)
  {
    PrintedOfHostPort(hostPort);
    JoinOfSplit(tail);
  }

  lemma SliceHasNoSlash(s: string, i: nat, j: nat)
    requires i <= j <= |s| && forall k | i <= k < j :: s[k] != '/'
    ensures NoSlash(s[i..j])
  {
  }

  lemma PrintedOfRest(rest: string)
    requires ParseRest(rest).Ok?
    ensures var parts := ParseRest(rest).value;
      rest == Body(parts.address, parts.segments) && NoSlash(parts.address.host)
  {
    var at, slash := RestPieces(rest);
    Reassemble(rest, at, slash);
    PrintedOfPieces(rest[..at], rest[at + 1..slash], rest[slash + 1..]);
  }

  lemma PrefixOf(prefix: string, value: string)
    requires prefix <= value
    ensures value == prefix + value[|prefix|..]
  {
  }

  /** What a string the parser accepts looks like. */
  lemma PrintedOfParts(value: string)
    requires ParseParts(value).Ok?
    ensures var parts := ParseParts(value).value;
      value == SCHEME_PREFIX + Body(parts.address, parts.segments) && NoSlash(parts.address.host)
  {
    PrintedOfRest(value[|SCHEME_PREFIX|..]);
    PrefixOf(SCHEME_PREFIX, value);
  }

  /** Printing undoes parsing: every accepted string is reproduced exactly, by a
      minted path whose host has no slash. */
  lemma PrintOfParse(value: string, uid: string)
    requires Parse(value, uid).Ok?
    ensures var p := Parse(value, uid).value;
      ToString(p) == value && Minted(p) && NoSlash(p.address.host)
  {
    var parts := ParseParts(value).value;
    PrintedOfParts(value);
    ChainIsMinted(parts.segments, parts.address, None, Given(uid));
    assert Names(Parse(value, uid).value) == parts.segments;
    PrintedForm(Parse(value, uid).value);
  }

  /** Parsing undoes printing for exactly the minted paths whose host has no slash. */
  lemma ParseOfPrint(p: Path)
    requires Minted(p)
    ensures NoSlash(p.address.host) <==>
            Parse(ToString(p), "").Ok? && Equals(Parse(ToString(p), "").value, p)
    ensures NoSlash(p.address.host) ==> Parse(ToString(p), "") == Ok(Bare(p))
  {
    PrintedForm(p);
    if NoSlash(p.address.host) {
      NamesAreNames(p);
      RestOfPrinted(p.address, Names(p));
      StripPrefix(SCHEME_PREFIX, Body(p.address, Names(p)));
      ChainOfNames(p);
      BareTwice(p);
      EqualsIsBare(Bare(p), p);
    } else if Parse(ToString(p), "").Ok? {
      PrintOfParse(ToString(p), "");
    }
  }

  lemma {:induction false} BareTwice(p: Path)
    ensures Bare(Bare(p)) == Bare(p)
  {
    match p.parent
    case None =>
    case Some(q) => BareTwice(q);
  }

  /** Two minted paths with slash-free hosts are equal exactly when their strings
      match, at any depth of ancestors. */
  lemma EqualsIffSameString(p: Path, q: Path)
    requires Minted(p) && Minted(q) && NoSlash(p.address.host) && NoSlash(q.address.host)
    ensures Equals(p, q) <==> ToString(p) == ToString(q)
  {
    EqualsIsBare(p, q);
    ParseOfPrint(p);
    ParseOfPrint(q);
    SameBareSameString(p);
    SameBareSameString(q);
  }

  lemma {:induction false} SameBareSameString(p: Path)
    ensures ToString(Bare(p)) == ToString(p)
  {
    match p.parent
    case None =>
    case Some(q) => SameBareSameString(q);
  }

  /* ---------- incarnations ---------- */

  /** A given uid is accepted exactly when it is empty, for a reference without a living
      instance, or the decimal form of a positive number, and then it is that number. */
  lemma UidIsItsNumber(text: string, n: nat)
    ensures ParseUid(Given(text)) == Ok(n) <==> if n == 0 then text == "" else text == Decimal.Print(n)
  {
    Decimal.ValueOfPrint(n);
    if Decimal.Canonical(text) { Decimal.PrintOfValue(text); }
    if n > 0 { PositiveIsCanonical(n); }
  }

  lemma {:induction false} PositiveIsCanonical(n: nat)
    requires n > 0
    ensures Decimal.Canonical(Decimal.Print(n)) && Decimal.Print(n)[0] != '0'
  {
    if n >= 10 { PositiveIsCanonical(n / 10); }
  }

  /** The ancestors of a path are references without a living instance. */
  predicate BareAncestors(p: Path) {
    p.parent.Some? ==> p.parent.value.uid == 0 && BareAncestors(p.parent.value)
  }

  lemma {:induction false} ChainUids(segments: seq<string>, address: Address, parent: Option<Path>, uid: Uid)
    requires segments != [] && (parent.Some? ==> parent.value.uid == 0 && BareAncestors(parent.value))
    ensures var r := Chain(segments, address, parent, uid);
      r.Ok? ==> ParseUid(uid) == Ok(r.value.uid) && BareAncestors(r.value)
  {
    if |segments| > 1 {
      var first := NewPathAt(segments[0], address, parent, Given(""));
      if first.Ok? { ChainUids(segments[1..], address, Some(first.value), uid); }
    }
  }

  /** A parsed path carries the incarnation it was parsed with, and its ancestors none. */
  lemma ParsedUid(value: string, uid: string)
    ensures var r := Parse(value, uid);
      r.Ok? ==> BareAncestors(r.value) && uid == if r.value.uid == 0 then "" else Decimal.Print(r.value.uid)
  {
    var parts := ParseParts(value);
    if parts.Ok? {
      ChainUids(parts.value.segments, parts.value.address, None, Given(uid));
      var r := Parse(value, uid);
      if r.Ok? { UidIsItsNumber(uid, r.value.uid); }
    }
  }
}
