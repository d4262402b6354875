/** The parser of `usbip port`: parsePortTable. */
module PortParser {
  import opened Basics

  datatype Attached = Attached(port: nat, busid: string, server: string, title: string)

  // ------------------------------------------------------------------------ the loop, in general

  /** What the parser sees in a line. */
  datatype Seen = Header(port: nat) | Import(server: string, busid: string) | Text(title: string) | Nothing

  /** The parser's variables: the entries so far, the port whose import line is awaited, the title. */
  datatype State = State(list: seq<Attached>, cur: Option<nat>, title: string)

  function Step(s: State, seen: Seen): State {
    match seen
    case Header(p) => State(s.list, Some(p), "")
    case Import(server, busid) =>
      if s.cur.None? then s
      else State(s.list + [Attached(s.cur.value, busid, server, s.title)], None, s.title)
    case Text(title) => if s.cur.None? then s else s.(title := title)
    case Nothing => s
  }

  function Scan<L>(see: L -> Seen, lines: seq<L>, s: State): State {
    if lines == [] then s else Scan(see, lines[1..], Step(s, see(lines[0])))
  }

  lemma {:induction false} ScanAppend<L>(see: L -> Seen, a: seq<L>, b: seq<L>, s: State)
    ensures Scan(see, a + b, s) == Scan(see, b, Scan(see, a, s))
  {
    if a == [] {
      assert a + b == b;
    } else {
      assert (a + b)[1..] == a[1..] + b;
      ScanAppend(see, a[1..], b, Step(s, see(a[0])));
    }
  }

  function Ports(list: seq<Attached>): seq<nat> {
    seq(|list|, i requires 0 <= i < |list| => list[i].port)
  }

  function HeaderPorts<L>(see: L -> Seen, lines: seq<L>): seq<nat> {
    if lines == [] then []
    else
      var seen := see(lines[0]);
      (if seen.Header? then [seen.port] else []) + HeaderPorts(see, lines[1..])
  }

  /** a is obtained from b by dropping elements. */
  ghost predicate SubsequenceOf<T>(a: seq<T>, b: seq<T>) {
    if a == [] then true
    else b != [] && (SubsequenceOf(a, b[1..]) || (a[0] == b[0] && SubsequenceOf(a[1..], b[1..])))
  }

  lemma {:induction false} SubsequenceCons<T>(x: T, a: seq<T>, b: seq<T>)
    requires SubsequenceOf(a, b)
    ensures SubsequenceOf(a, [x] + b) && SubsequenceOf([x] + a, [x] + b)
  {
    assert ([x] + b)[1..] == b && ([x] + a)[1..] == a;
  }

  function Awaited(s: State): seq<nat> {
    if s.cur.Some? then [s.cur.value] else []
  }

  function Added(r: State, s: State): seq<nat>
    requires |s.list| <= |r.list|
  {
    Ports(r.list[|s.list|..])
  }

  /** One line: the ports that may still come are those awaited and the header's own. */
  lemma OneLine(s: State, seen: Seen, r: State, rest: seq<nat>)
    requires Step(s, seen).list <= r.list && SubsequenceOf(Added(r, Step(s, seen)), Awaited(Step(s, seen)) + rest)
    ensures s.list <= r.list
    ensures SubsequenceOf(Added(r, s), Awaited(s) + ((if seen.Header? then [seen.port] else []) + rest))
  {
    var t := Step(s, seen);
    if seen.Header? {
      assert Awaited(t) + rest == [seen.port] + rest;
      if s.cur.Some? {
        SubsequenceCons(s.cur.value, Added(r, s), [seen.port] + rest);
      } else {
        assert Awaited(s) + ([seen.port] + rest) == [seen.port] + rest;
      }
    } else {
      assert [] + rest == rest;
      if seen.Import? && s.cur.Some? {
        assert Awaited(t) + rest == rest;
        SubsequenceCons(s.cur.value, Added(r, t), rest);
        assert Added(r, s) == [s.cur.value] + Added(r, t);
      }
    }
  }

  /** The ports a scan adds come, in order, from the header awaited at its start and from the headers it
    * meets; no header gives two entries. */
  lemma {:induction false} EntriesFollowHeaders<L>(see: L -> Seen, lines: seq<L>, s: State)
    ensures s.list <= Scan(see, lines, s).list
    ensures SubsequenceOf(Added(Scan(see, lines, s), s), Awaited(s) + HeaderPorts(see, lines))
  {
    if lines != [] {
      var t := Step(s, see(lines[0]));
      EntriesFollowHeaders(see, lines[1..], t);
      OneLine(s, see(lines[0]), Scan(see, lines, s), HeaderPorts(see, lines[1..]));
    }
  }

  // ---------------------------------------------------------------------- lines and patterns

  predicate Digit(c: char) { '0' <= c <= '9' }

  /** \s of Go's regular expressions. */
  predicate Blank(c: char) { c == ' ' || c == '\t' || c == '\n' || c == '\U{c}' || c == '\r' }

  predicate NonBlank(c: char) { !Blank(c) }
  predicate NotClosing(c: char) { c != ']' }
  predicate HostChar(c: char) { c != ':' && c != '/' && !Blank(c) }

  /** unicode.IsSpace, as used by strings.TrimSpace. */
  predicate Space(c: char) {
    || '\t' <= c <= '\r' || c == ' ' || c == '\U{85}' || c == '\U{a0}' || c == '\U{1680}'
    || '\U{2000}' <= c <= '\U{200a}' || c == '\U{2028}' || c == '\U{2029}' || c == '\U{202f}'
    || c == '\U{205f}' || c == '\U{3000}'
  }

  /** How many characters at the start of s satisfy p: a greedy repetition. */
  function Span(p: char -> bool, s: string): (n: nat)
    ensures n <= |s| && (forall i :: 0 <= i < n ==> p(s[i])) && (n < |s| ==> !p(s[n]))
  {
    if s != [] && p(s[0]) then 1 + Span(p, s[1..]) else 0
  }

  const MAX_INT: nat := 0x7fff_ffff_ffff_ffff

  function DigitValue(c: char): nat
    requires Digit(c)
  {
    c as int - '0' as int
  }

  function Number(digits: string): nat
    requires forall i :: 0 <= i < |digits| ==> Digit(digits[i])
  {
    if digits == [] then 0 else 10 * Number(digits[..|digits| - 1]) + DigitValue(digits[|digits| - 1])
  }

  /** strconv.Atoi with its error ignored: too large a number reads as the largest int. */
  function Atoi(digits: string): nat
    requires forall i :: 0 <= i < |digits| ==> Digit(digits[i])
  {
    if Number(digits) <= MAX_INT then Number(digits) else MAX_INT
  }

  predicate Prefix(p: string, s: string) {
    |p| <= |s| && s[..|p|] == p
  }

  /** Digits, optional white space, a colon. */
  function DigitsAndColon(b: string): Option<nat> {
    var d := Span(Digit, b);
    var m := Span(Blank, b[d..]);
    if d > 0 && d + m < |b| && b[d + m] == ':' then Some(Atoi(b[..d])) else None
  }

  /** rePortLine after the word "Port". */
  function PortTail(s: string): Option<nat> {
    var n := Span(Blank, s);
    if n > 0 then DigitsAndColon(s[n..]) else None
  }

  /** rePortLine: optional white space and "Port". */
  function HeaderPort(l: string): Option<nat> {
    var a := l[Span(Blank, l)..];
    if Prefix("Port", a) then PortTail(a[4..]) else None
  }

  /** The tail of reImport after the host: an optional port number, '/', and the bus id. */
  function AfterHost(s: string): Option<string> {
    var d := if s != [] && s[0] == ':' then Span(Digit, s[1..]) else 0;
    var t := if d > 0 then s[1 + d..] else s;
    if t == [] || t[0] != '/' then None
    else
      var n := Span(NonBlank, t[1..]);
      if n == 0 then None else Some(t[1..][..n])
  }

  function Found(host: string, tail: Option<string>): Option<(string, string)> {
    match tail case Some(busid) => Some((host, busid)) case None => None
  }

  /** A bracketed host and what follows it. */
  function Bracketed(r: string): Option<(string, string)> {
    var k := if r != [] && r[0] == '[' then Span(NotClosing, r[1..]) else 0;
    if k > 0 && k + 1 < |r| then Found(r[..k + 2], AfterHost(r[k + 2..])) else None
  }

  /** A plain host and what follows it. */
  function Plain(r: string): Option<(string, string)> {
    var n := Span(HostChar, r);
    if n == 0 then None else Found(r[..n], AfterHost(r[n..]))
  }

  /** reImport at the start of s: first with a bracketed host, then with a plain one. */
  function ImportAt(s: string): Option<(string, string)> {
    if !Prefix("usbip://", s) then None
    else if Bracketed(s[8..]).Some? then Bracketed(s[8..])
    else Plain(s[8..])
  }

  /** The leftmost match of reImport. */
  function ImportOf(l: string): Option<(string, string)> {
    if l == [] then None
    else if ImportAt(l).Some? then ImportAt(l)
    else ImportOf(l[1..])
  }

  predicate Bracket(c: char) { c == '[' || c == ']' }

  function TrimLeft(p: char -> bool, s: string): string {
    if s != [] && p(s[0]) then TrimLeft(p, s[1..]) else s
  }

  function TrimRight(p: char -> bool, s: string): string {
    if s != [] && p(s[|s| - 1]) then TrimRight(p, s[..|s| - 1]) else s
  }

  function Trim(p: char -> bool, s: string): string {
    TrimRight(p, TrimLeft(p, s))
  }

  /** The order of the tests in the loop: header, import line, title. */
  function See(l: string): Seen {
    if HeaderPort(l).Some? then Header(HeaderPort(l).value)
    else if ImportOf(l).Some? then Import(Trim(Bracket, ImportOf(l).value.0), ImportOf(l).value.1)
    else
      var s := Trim(Space, l);
      if s != "" && !Prefix("->", s) then Text(s) else Nothing
  }

  function Split(text: string): (lines: seq<string>)
    ensures lines != []
  {
    if text == [] then [[]]
    else
      var rest := Split(text[1..]);
      if text[0] == '\n' then [[]] + rest else [[text[0]] + rest[0]] + rest[1..]
  }

  const START := State([], None, "")

  /** The body of the loop.  A negative `cur` means that no header is open. */
  method ReadLine(list: seq<Attached>, cur: int, title: string, l: string)
      returns (list': seq<Attached>, cur': int, title': string)
    requires cur >= -1
    ensures cur' >= -1
    ensures State(list', if cur' < 0 then None else Some(cur'), title')
         == Step(State(list, if cur < 0 then None else Some(cur), title), See(l))
  {
    list', cur', title' := list, cur, title;
    var port := HeaderPort(l);
    if port.Some? {
      return list, port.value, "";
    }
    if cur < 0 { return; }
    var found := ImportOf(l);
    if found.Some? {
      return list + [Attached(cur, found.value.1, Trim(Bracket, found.value.0), title)], -1, title;
    }
    var s := Trim(Space, l);
    if s != "" && !Prefix("->", s) { title' := s; }
  }

  /** parsePortTable. */
  method ParsePortTable(text: string) returns (list: seq<Attached>)
    ensures list == Scan(See, Split(text), START).list
  {
    list := [];
    var cur: int := -1;
    var title := "";
    var lines := Split(text);
    for i := 0 to |lines|
      invariant cur >= -1
      invariant
        var now := State(list, if cur < 0 then None else Some(cur), title);
        Scan(See, lines[i..], now) == Scan(See, lines, START)
    {
      assert lines[i..][0] == lines[i] && lines[i..][1..] == lines[i + 1..];
      list, cur, title := ReadLine(list, cur, title, lines[i]);
    }
  }

  // ----------------------------------------------------------------------- the printed table

  /** A row of the table: an entry and the texts around it that carry nothing. */
  datatype Row = Row(entry: Attached, status: string, local: string, remote: string)

  const INDENT := "       "
  const PREAMBLE := ["Imported USB devices", "===================="]

  function DigitChar(n: nat): (c: char)
    requires n < 10
    ensures Digit(c) && DigitValue(c) == n
  {
    "0123456789"[n]
  }

  function Decimal(n: nat): string {
    if n < 10 then [DigitChar(n)] else Decimal(n / 10) + [DigitChar(n % 10)]
  }

  /** %02d */
  function Padded(n: nat): string {
    if n < 10 then "0" + Decimal(n) else Decimal(n)
  }

  function HostText(server: string): string {
    if ':' in server then "[" + server + "]" else server
  }

  function HeaderLine(r: Row): string {
    "Port " + (Padded(r.entry.port) + (":" + r.status))
  }

  function ImportTail(r: Row): string {
    ":3240/" + r.entry.busid
  }

  function ImportLine(r: Row): string {
    (INDENT + r.local + " -> ") + ("usbip://" + (HostText(r.entry.server) + ImportTail(r)))
  }

  function RowLines(r: Row): seq<string> {
    [HeaderLine(r), INDENT + r.entry.title, ImportLine(r), INDENT + "    -> remote bus/dev " + r.remote]
  }

  predicate OneLineText(s: string) {
    '\n' !in s
  }

  /** An IPv4 address or a name, or an IPv6 address, which is printed in brackets. */
  predicate GoodServer(h: string) {
    h != "" && OneLineText(h) && (forall i :: 0 <= i < |h| ==> !Bracket(h[i]))
    && (':' in h || forall i :: 0 <= i < |h| ==> HostChar(h[i]))
  }

  predicate GoodBusId(b: string) {
    b != "" && forall i :: 0 <= i < |b| ==> NonBlank(b[i])
  }

  /** A title that is not taken for anything else. */
  predicate GoodTitle(t: string) {
    OneLineText(t) && Trim(Space, t) == t && !Prefix("->", t)
    && HeaderPort(INDENT + t).None? && ImportOf(INDENT + t).None?
  }

  predicate GoodRow(r: Row) {
    && r.entry.port <= MAX_INT && GoodServer(r.entry.server) && GoodBusId(r.entry.busid) && GoodTitle(r.entry.title)
    && OneLineText(r.status) && OneLineText(r.remote)
    && r.local != "" && forall i :: 0 <= i < |r.local| ==> Digit(r.local[i]) || r.local[i] == '-' || r.local[i] == '.'
  }

  lemma {:induction false} SpanIs(p: char -> bool, x: string, y: string)
    requires (forall i :: 0 <= i < |x| ==> p(x[i])) && (y == [] || !p(y[0]))
    ensures Span(p, x + y) == |x|
  {
    if x == [] {
      assert x + y == y;
    } else {
      assert (x + y)[1..] == x[1..] + y;
      SpanIs(p, x[1..], y);
    }
  }

  lemma {:induction false} DecimalReadsBack(n: nat)
    ensures Decimal(n) != [] && (forall i :: 0 <= i < |Decimal(n)| ==> Digit(Decimal(n)[i])) && Number(Decimal(n)) == n
  {
    if n < 10 {
      assert Decimal(n)[..0] == [];
    } else {
      DecimalReadsBack(n / 10);
      assert Decimal(n)[..|Decimal(n)| - 1] == Decimal(n / 10);
    }
  }

  lemma PaddedReadsBack(n: nat)
    ensures Padded(n) != [] && (forall i :: 0 <= i < |Padded(n)| ==> Digit(Padded(n)[i])) && Number(Padded(n)) == n
  {
    DecimalReadsBack(n);
    if n < 10 {
      assert Padded(n)[..1] == "0" && "0"[..0] == [];
      assert Number("0") == 0;
    }
  }

  lemma DigitsAreRead(digits: string, rest: string)
    requires digits != [] && forall i :: 0 <= i < |digits| ==> Digit(digits[i])
    ensures DigitsAndColon(digits + (":" + rest)) == Some(Atoi(digits))
  {
    var b := digits + (":" + rest);
    SpanIs(Digit, digits, ":" + rest);
    assert b[|digits|..] == ":" + rest && b[..|digits|] == digits;
    assert Span(Blank, ":" + rest) == 0;
  }

  lemma PortWordIsRead(b: string)
    requires b != [] && !Blank(b[0])
    ensures HeaderPort("Port " + b) == DigitsAndColon(b)
  {
    var l := "Port " + b;
    assert l[0] == "Port"[0] == 'P';
    assert Span(Blank, l) == 0 && l[0..] == l;
    assert l[..4] == "Port" && l[4..] == " " + b;
    SpanIs(Blank, " ", b);
    assert (" " + b)[1..] == b;
  }

  lemma HeaderIsRead(r: Row)
    requires r.entry.port <= MAX_INT
    ensures HeaderPort(HeaderLine(r)) == Some(r.entry.port)
  {
    var digits := Padded(r.entry.port);
    PaddedReadsBack(r.entry.port);
    assert (digits + (":" + r.status))[0] == digits[0];
    PortWordIsRead(digits + (":" + r.status));
    DigitsAreRead(digits, r.status);
  }

  lemma TailIsRead(r: Row)
    requires GoodBusId(r.entry.busid)
    ensures AfterHost(ImportTail(r)) == Some(r.entry.busid)
  {
    var s, b := ImportTail(r), r.entry.busid;
    assert s[1..] == "3240" + ("/" + b);
    SpanIs(Digit, "3240", "/" + b);
    assert s[5..] == "/" + b && ("/" + b)[1..] == b && b + [] == b;
    SpanIs(NonBlank, b, []);
    assert b[..|b|] == b;
  }

  lemma BracketedIsRead(h: string, t: string)
    requires h != "" && forall i :: 0 <= i < |h| ==> !Bracket(h[i])
    ensures Bracketed("[" + h + "]" + t) == Found("[" + h + "]", AfterHost(t))
  {
    var x := "[" + h + "]" + t;
    assert x[1..] == h + ("]" + t);
    SpanIs(NotClosing, h, "]" + t);
    assert x[..|h| + 2] == "[" + h + "]" && x[|h| + 2..] == t;
  }

  lemma PlainIsRead(h: string, t: string)
    requires h != "" && (forall i :: 0 <= i < |h| ==> HostChar(h[i])) && !Bracket(h[0])
    requires t != [] && !HostChar(t[0])
    ensures Plain(h + t) == Found(h, AfterHost(t)) && Bracketed(h + t) == None
  {
    SpanIs(HostChar, h, t);
    assert (h + t)[..|h|] == h && (h + t)[|h|..] == t;
  }

  lemma HostIsRead(r: Row)
    requires GoodServer(r.entry.server) && GoodBusId(r.entry.busid)
    ensures
      var host := HostText(r.entry.server);
      ImportAt("usbip://" + (host + ImportTail(r))) == Some((host, r.entry.busid))
  {
    var h, t := r.entry.server, ImportTail(r);
    var s := "usbip://" + (HostText(h) + t);
    TailIsRead(r);
    assert s[..8] == "usbip://" && s[8..] == HostText(h) + t;
    if ':' in h { BracketedIsRead(h, t); } else { PlainIsRead(h, t); }
  }

  lemma {:induction false} SkipToImport(x: string, y: string)
    requires 'u' !in x
    ensures ImportOf(x + y) == ImportOf(y)
  {
    if x == [] {
      assert x + y == y;
    } else {
      assert (x + y)[0] == x[0] != 'u' && "usbip://"[0] == 'u';
      assert (x + y)[1..] == x[1..] + y;
      assert |x + y| >= 8 ==> (x + y)[..8][0] == (x + y)[0];
      SkipToImport(x[1..], y);
    }
  }

  lemma BracketsComeOff(h: string)
    requires GoodServer(h)
    ensures Trim(Bracket, HostText(h)) == h
  {
    assert TrimLeft(Bracket, h) == h && TrimRight(Bracket, h) == h;
    if ':' in h {
      var s := "[" + h + "]";
      assert s[1..] == h + "]" && (h + "]")[..|h|] == h;
      assert TrimLeft(Bracket, s) == TrimLeft(Bracket, h + "]") == h + "]";
    }
  }

  /** After white space a line is a header only if what follows starts with "Port". */
  lemma IndentedIsNoHeader(blanks: string, t: string)
    requires forall i :: 0 <= i < |blanks| ==> Blank(blanks[i])
    requires t != [] && !Blank(t[0]) && t[0] != 'P'
    ensures HeaderPort(blanks + t).None?
  {
    SpanIs(Blank, blanks, t);
    assert (blanks + t)[|blanks|..] == t;
    assert "Port"[0] == 'P';
    assert |t| >= 4 ==> t[..4][0] == t[0];
  }

  lemma ImportIsSeen(r: Row)
    requires GoodRow(r)
    ensures See(ImportLine(r)) == Import(r.entry.server, r.entry.busid)
  {
    var host := "usbip://" + (HostText(r.entry.server) + ImportTail(r));
    assert ImportLine(r) == INDENT + (r.local + (" -> " + host));
    IndentedIsNoHeader(INDENT, r.local + (" -> " + host));
    SkipToImport(INDENT + r.local + " -> ", host);
    HostIsRead(r);
    assert host != [];
    BracketsComeOff(r.entry.server);
  }

  lemma {:induction false} TrimLeftDrops(p: char -> bool, x: string, y: string)
    requires forall i :: 0 <= i < |x| ==> p(x[i])
    ensures TrimLeft(p, x + y) == TrimLeft(p, y)
  {
    if x == [] {
      assert x + y == y;
    } else {
      assert (x + y)[1..] == x[1..] + y;
      TrimLeftDrops(p, x[1..], y);
    }
  }

  lemma TitleIsSeen(t: string)
    requires GoodTitle(t)
    ensures See(INDENT + t) == if t == "" then Nothing else Text(t)
  {
    TrimLeftDrops(Space, INDENT, t);
  }

  lemma ScanOne<L>(see: L -> Seen, l: L, rest: seq<L>, s: State)
    ensures Scan(see, [l] + rest, s) == Scan(see, rest, Step(s, see(l)))
  {
    assert ([l] + rest)[1..] == rest;
  }

  /** A block of lines that adds one entry and leaves no header open, whatever came before. */
  ghost predicate Reads<L>(see: L -> Seen, block: seq<L>, e: Attached) {
    forall s: State :: Scan(see, block, s).list == s.list + [e]
  }

  lemma FourLinesRead<L>(see: L -> Seen, a: L, b: L, c: L, d: L, e: Attached)
    requires see(a) == Header(e.port)
    requires see(b) == if e.title == "" then Nothing else Text(e.title)
    requires see(c) == Import(e.server, e.busid) && !see(d).Header?
    ensures Reads(see, [a, b, c, d], e)
  {
    forall s: State
      ensures Scan(see, [a, b, c, d], s).list == s.list + [e]
    {
      var s1 := Step(s, see(a));
      var s2 := Step(s1, see(b));
      var s3 := Step(s2, see(c));
      assert [a, b, c, d] == [a] + [b, c, d] && [b, c, d] == [b] + [c, d] && [c, d] == [c] + [d] && [d] == [d] + [];
      ScanOne(see, a, [b, c, d], s);
      ScanOne(see, b, [c, d], s1);
      ScanOne(see, c, [d], s2);
      ScanOne(see, d, [], s3);
      assert s3.list == s.list + [e];
    }
  }

  function Flatten<L>(blocks: seq<seq<L>>): seq<L> {
    if blocks == [] then [] else blocks[0] + Flatten(blocks[1..])
  }

  lemma {:induction false} BlocksAreRead<L>(see: L -> Seen, blocks: seq<seq<L>>, es: seq<Attached>, s: State)
    requires |blocks| == |es| && forall i :: 0 <= i < |es| ==> Reads(see, blocks[i], es[i])
    ensures Scan(see, Flatten(blocks), s).list == s.list + es
  {
    if blocks != [] {
      var t := Scan(see, blocks[0], s);
      assert Reads(see, blocks[0], es[0]);
      ScanAppend(see, blocks[0], Flatten(blocks[1..]), s);
      BlocksAreRead(see, blocks[1..], es[1..], t);
      assert es == [es[0]] + es[1..];
    }
  }

  lemma ArrowIsNoHeader(remote: string)
    ensures !See(INDENT + "    -> remote bus/dev " + remote).Header?
  {
    var t := "-> remote bus/dev " + remote;
    assert INDENT + "    -> remote bus/dev " + remote == (INDENT + "    ") + t;
    assert t[0] == "->"[0] == '-';
    IndentedIsNoHeader(INDENT + "    ", t);
  }

  lemma RowIsRead(r: Row)
    requires GoodRow(r)
    ensures Reads(See, RowLines(r), r.entry)
  {
    HeaderIsRead(r);
    TitleIsSeen(r.entry.title);
    ImportIsSeen(r);
    ArrowIsNoHeader(r.remote);
    FourLinesRead(See, HeaderLine(r), INDENT + r.entry.title, ImportLine(r),
                  INDENT + "    -> remote bus/dev " + r.remote, r.entry);
  }

  // ---------------------------------------------------------------------------- round trip

  function Entries(rows: seq<Row>): seq<Attached> {
    seq(|rows|, i requires 0 <= i < |rows| => rows[i].entry)
  }

  /** The whole table, line by line. */
  function TableLines(rows: seq<Row>): seq<string> {
    PREAMBLE + Flatten(seq(|rows|, i requires 0 <= i < |rows| => RowLines(rows[i])))
  }

  function Join(lines: seq<string>): string
    requires lines != []
  {
    if |lines| == 1 then lines[0] else lines[0] + ("\n" + Join(lines[1..]))
  }

  lemma {:induction false} SplitFirst(x: string, rest: string)
    requires OneLineText(x)
    ensures Split(x + ("\n" + rest)) == [x] + Split(rest)
  {
    var t := x + ("\n" + rest);
    if x == [] {
      assert t[0] == '\n' && t[1..] == rest;
    } else {
      assert t[1..] == x[1..] + ("\n" + rest);
      SplitFirst(x[1..], rest);
      assert [x[0]] + x[1..] == x;
    }
  }

  lemma {:induction false} SplitOne(x: string)
    requires OneLineText(x)
    ensures Split(x) == [x]
  {
    if x != [] {
      SplitOne(x[1..]);
      assert [x[0]] + x[1..] == x;
    }
  }

  lemma {:induction false} SplitOfJoin(lines: seq<string>)
    requires lines != [] && forall l :: l in lines ==> OneLineText(l)
    ensures Split(Join(lines)) == lines
  {
    if |lines| == 1 {
      SplitOne(lines[0]);
    } else {
      SplitOfJoin(lines[1..]);
      SplitFirst(lines[0], Join(lines[1..]));
      assert lines == [lines[0]] + lines[1..];
    }
  }

  lemma {:induction false} FlattenIsOneLine(blocks: seq<seq<string>>)
    requires forall i, l :: 0 <= i < |blocks| && l in blocks[i] ==> OneLineText(l)
    ensures forall l :: l in Flatten(blocks) ==> OneLineText(l)
  {
    if blocks != [] { FlattenIsOneLine(blocks[1..]); }
  }

  lemma {:induction false} DecimalIsOneLine(n: nat)
    ensures OneLineText(Padded(n))
  {
    PaddedReadsBack(n);
  }

  lemma RowIsOneLine(r: Row)
    requires GoodRow(r)
    ensures forall l :: l in RowLines(r) ==> OneLineText(l)
  {
    DecimalIsOneLine(r.entry.port);
    assert OneLineText(HeaderLine(r));
    assert OneLineText(ImportTail(r));
    assert OneLineText(HostText(r.entry.server));
    assert OneLineText(r.local);
    assert OneLineText(ImportLine(r));
  }

  /** The preamble is read as nothing. */
  lemma PreambleIsSkipped(rest: seq<string>)
    ensures Scan(See, PREAMBLE + rest, START) == Scan(See, rest, START)
  {
    var a, b := PREAMBLE[0], PREAMBLE[1];
    assert PREAMBLE + rest == [a] + ([b] + rest);
    assert a[0] == 'I' && b[0] == '=';
    NotAHeader(a);
    NotAHeader(b);
    ScanOne(See, a, [b] + rest, START);
    ScanOne(See, b, rest, START);
  }

  lemma NotAHeader(t: string)
    requires t != [] && !Blank(t[0]) && t[0] != 'P'
    ensures !See(t).Header?
  {
    IndentedIsNoHeader("", t);
    assert "" + t == t;
  }

  /** Printing any list of well-formed entries in the documented layout and parsing the text gives the
    * same list. */
  lemma PrintedTableReadsBack(rows: seq<Row>)
    requires forall i :: 0 <= i < |rows| ==> GoodRow(rows[i])
    ensures Scan(See, Split(Join(TableLines(rows))), START).list == Entries(rows)
  {
    var blocks := seq(|rows|, i requires 0 <= i < |rows| => RowLines(rows[i]));
    forall i | 0 <= i < |rows|
      ensures Reads(See, blocks[i], Entries(rows)[i])
    {
      RowIsRead(rows[i]);
    }
    forall i, l | 0 <= i < |blocks| && l in blocks[i]
      ensures OneLineText(l)
    {
      RowIsOneLine(rows[i]);
    }
    FlattenIsOneLine(blocks);
    PreambleIsOneLine();
    SplitOfJoin(TableLines(rows));
    PreambleIsSkipped(Flatten(blocks));
    BlocksAreRead(See, blocks, Entries(rows), START);
    assert START.list + Entries(rows) == Entries(rows);
  }

  lemma PreambleIsOneLine()
    ensures forall l :: l in PREAMBLE ==> OneLineText(l)
  {
    assert OneLineText("Imported USB devices") && OneLineText("====================");
  }

  /** On any input whatever, the ports of the result are, in order, ports of header lines, no header
    * giving more than one entry. */
  lemma AnyTableFollowsItsHeaders(text: string)
    ensures SubsequenceOf(Ports(Scan(See, Split(text), START).list), HeaderPorts(See, Split(text)))
  {
    EntriesFollowHeaders(See, Split(text), START);
    var r := Scan(See, Split(text), START);
    assert r.list[0..] == r.list && [] + HeaderPorts(See, Split(text)) == HeaderPorts(See, Split(text));
  }

  // -------------------------------------------------------------- the forms the patterns accept

  predicate Blanks(s: string) { forall i :: 0 <= i < |s| ==> Blank(s[i]) }
  predicate Digits(s: string) { forall i :: 0 <= i < |s| ==> Digit(s[i]) }

  lemma DigitsForms(digits: string, m: string, rest: string)
    requires Digits(digits) && digits != "" && Blanks(m)
    ensures DigitsAndColon(digits + (m + (":" + rest))) == Some(Atoi(digits))
  {
    var more := m + (":" + rest);
    var tail := digits + more;
    assert more[0] == if m == "" then ':' else m[0];
    SpanIs(Digit, digits, more);
    assert tail[|digits|..] == more && tail[..|digits|] == digits;
    SpanIs(Blank, m, ":" + rest);
    assert tail[|digits| + |m|] == more[|m|] == ':';
  }

  /** A header may be indented, needs white space after "Port", and may have some before the colon. */
  lemma HeaderForms(a: string, gap: string, digits: string, m: string, rest: string)
    requires Blanks(a) && Blanks(gap) && gap != "" && Digits(digits) && digits != "" && Blanks(m)
    ensures HeaderPort(a + ("Port" + (gap + (digits + (m + (":" + rest)))))) == Some(Atoi(digits))
  {
    var tail := digits + (m + (":" + rest));
    DigitsForms(digits, m, rest);
    assert tail[0] == digits[0];
    SpanIs(Blank, gap, tail);
    assert (gap + tail)[|gap|..] == tail;
    AfterPort(a, gap + tail);
  }

  lemma AfterPort(a: string, s: string)
    requires Blanks(a)
    ensures HeaderPort(a + ("Port" + s)) == PortTail(s)
  {
    var word := "Port" + s;
    assert word[0] == "Port"[0] == 'P' && word[..4] == "Port" && word[4..] == s;
    SpanIs(Blank, a, word);
    assert (a + word)[|a|..] == word;
  }

  /** A port too large for an int reads as the largest one. */
  lemma HugePortsAreClamped(digits: string)
    requires Digits(digits)
    ensures Atoi(digits) <= 0x7fff_ffff_ffff_ffff && Atoi(digits) <= Number(digits)
    ensures Number(digits) <= 0x7fff_ffff_ffff_ffff ==> Atoi(digits) == Number(digits)
  {
  }

  /** After the host the port number is optional, and the bus id ends at white space. */
  lemma TailForms(port: string, busid: string, rest: string)
    requires Digits(port) && busid != "" && (forall i :: 0 <= i < |busid| ==> NonBlank(busid[i]))
    requires rest == "" || Blank(rest[0])
    ensures AfterHost("/" + (busid + rest)) == Some(busid)
    ensures port != "" ==> AfterHost(":" + (port + ("/" + (busid + rest)))) == Some(busid)
  {
    var t := "/" + (busid + rest);
    assert t[1..] == busid + rest;
    SpanIs(NonBlank, busid, rest);
    assert (busid + rest)[..|busid|] == busid;
    if port != "" {
      var s, head := ":" + (port + t), ":" + port;
      assert s[1..] == port + t;
      SpanIs(Digit, port, t);
      Regroup(":", port, t);
      assert |head| == 1 + |port| && (head + t)[|head|..] == t;
    }
  }

  /** A plain host and a bracketed one, with whatever follows. */
  lemma HostForms(host: string, tail: string, busid: string)
    requires host != "" && (forall i :: 0 <= i < |host| ==> HostChar(host[i]) && !Bracket(host[i]))
    requires tail != "" && !HostChar(tail[0]) && AfterHost(tail) == Some(busid)
    ensures ImportAt("usbip://" + (host + tail)) == Some((host, busid))
    ensures ImportAt("usbip://" + ("[" + host + "]" + tail)) == Some(("[" + host + "]", busid))
  {
    var plain, bracketed := "usbip://" + (host + tail), "usbip://" + ("[" + host + "]" + tail);
    assert plain[..8] == "usbip://" && plain[8..] == host + tail;
    assert bracketed[..8] == "usbip://" && bracketed[8..] == "[" + host + "]" + tail;
    PlainIsRead(host, tail);
    BracketedIsRead(host, tail);
  }

  /** An import line before any header, or a second one after it, adds nothing; a new header forgets the
    * title before it. */
  lemma WhenLinesCount(s: State, server: string, busid: string, p: nat, title: string)
    ensures s.cur.None? ==> Step(s, Import(server, busid)) == s
    ensures
      var once := Step(Step(s, Header(p)), Import(server, busid));
      once.list == s.list + [Attached(p, busid, server, "")] && Step(once, Import(server, busid)) == once
    ensures
      var titled := Step(Step(Step(s, Header(p)), Text(title)), Import(server, busid));
      titled.list == s.list + [Attached(p, busid, server, title)]
  {
  }

  lemma {:induction false} TrimRightDrops(p: char -> bool, x: string, y: string)
    requires (forall i :: 0 <= i < |y| ==> p(y[i])) && (x == "" || !p(x[|x| - 1]))
    ensures TrimRight(p, x + y) == x
  {
    if y == "" {
      assert x + y == x;
    } else {
      var front, last := y[..|y| - 1], y[|y| - 1];
      assert y == front + [last];
      Regroup(x, front, [last]);
      assert (x + front + [last])[..|x + front|] == x + front;
      TrimRightDrops(p, x, front);
    }
  }

  /** A title is shown without the white space around it, and a line that begins with an arrow is none. */
  lemma WhatIsATitle(a: string, t: string, d: string)
    requires (forall i :: 0 <= i < |a| ==> Space(a[i])) && (forall i :: 0 <= i < |d| ==> Space(d[i]))
    requires t != "" && !Space(t[0]) && !Space(t[|t| - 1])
    requires HeaderPort(a + (t + d)).None? && ImportOf(a + (t + d)).None?
    ensures See(a + (t + d)) == if Prefix("->", t) then Nothing else Text(t)
  {
    TrimLeftDrops(Space, a, t + d);
    assert (t + d)[0] == t[0];
    TrimRightDrops(Space, t, d);
  }
}
