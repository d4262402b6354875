/** The KEY="value" settings file of moonlight-helper: conf_values, write_conf, and the second reader,
  * load_conf.  Files are text; both readers see lines through Python's universal newlines.
  */
module ConfFile {
  import opened Basics

  datatype Setting = Setting(key: string, value: string)

  // -------------------------------------------------------------------------- text and lines

  predicate NewlineFree(s: string) {
    forall i :: 0 <= i < |s| ==> s[i] != '\n' && s[i] != '\r'
  }

  /** The lines of a text, each with its '\n' except perhaps the last; "\r" and "\r\n" count as '\n'. */
  function Lines(text: string): seq<string> {
    if text == [] then []
    else if text[0] == '\n' || text[0] == '\r' then ["\n"] + Lines(AfterBreak(text))
    else Grown(text[0], Lines(text[1..]))
  }

  /** What follows the newline at the start of a text. */
  function AfterBreak(text: string): string
    requires text != []
  {
    if text[0] == '\r' && |text| > 1 && text[1] == '\n' then text[2..] else text[1..]
  }

  function Concat(lines: seq<string>): string {
    if lines == [] then [] else lines[0] + Concat(lines[1..])
  }

  /** A whole line: newline-free up to its final '\n'. */
  predicate WholeLine(l: string) {
    l != [] && l[|l| - 1] == '\n' && NewlineFree(l[..|l| - 1])
  }

  predicate AllWhole(lines: seq<string>) {
    lines != [] ==> WholeLine(lines[0]) && AllWhole(lines[1..])
  }

  predicate Terminated(text: string) {
    text == [] || text[|text| - 1] == '\n' || text[|text| - 1] == '\r'
  }

  lemma {:induction false} FirstLine(body: string, more: string)
    requires NewlineFree(body)
    ensures Lines(body + "\n" + more) == [body + "\n"] + Lines(more)
  {
    var text := body + "\n" + more;
    if body == [] {
      assert text == ['\n'] + more && text[1..] == more;
    } else {
      assert text[1..] == body[1..] + "\n" + more;
      FirstLine(body[1..], more);
      assert [text[0]] + (body[1..] + "\n") == body + "\n";
    }
  }

  lemma WholeLineFirst(l: string, rest: string)
    requires WholeLine(l)
    ensures Lines(l + rest) == [l] + Lines(rest)
  {
    var body := l[..|l| - 1];
    assert l == body + "\n";
    FirstLine(body, rest);
  }

  /** Joining whole lines and splitting again gives the same lines. */
  lemma {:induction false} LinesOfConcat(lines: seq<string>, more: string)
    requires AllWhole(lines)
    ensures Lines(Concat(lines) + more) == lines + Lines(more)
  {
    if lines == [] {
      assert Concat(lines) + more == more;
      assert lines + Lines(more) == Lines(more);
    } else {
      var l, tail := lines[0], lines[1..];
      assert Concat(lines) + more == l + (Concat(tail) + more);
      LinesOfConcat(tail, more);
      WholeLineFirst(l, Concat(tail) + more);
      Regroup([l], tail, Lines(more));
      assert lines == [l] + tail;
    }
  }

  lemma LinesAreStable(lines: seq<string>)
    requires AllWhole(lines)
    ensures Lines(Concat(lines)) == lines
  {
    LinesOfConcat(lines, "");
    assert Concat(lines) + "" == Concat(lines) && lines + Lines("") == lines;
  }

  lemma WholeLineGrows(c: char, l: string)
    requires WholeLine(l) && c != '\n' && c != '\r'
    ensures WholeLine([c] + l)
  {
    assert ([c] + l)[..|l|] == [c] + l[..|l| - 1];
  }

  lemma {:induction false} TerminatedLines(text: string)
    requires Terminated(text)
    ensures AllWhole(Lines(text))
    decreases |text|
  {
    if text == [] {
    } else if text[0] == '\n' || text[0] == '\r' {
      TerminatedLines(AfterBreak(text));
      assert WholeLine("\n");
    } else {
      TerminatedLines(text[1..]);
      WholeLineGrows(text[0], Lines(text[1..])[0]);
    }
  }

  /** Whole lines and a rest. */
  predicate Cut(lines: seq<string>) {
    && lines != [] && AllWhole(lines[..|lines| - 1])
    && NewlineFree(lines[|lines| - 1]) && lines[|lines| - 1] != ""
  }

  lemma CutAfterBreak(lines: seq<string>)
    requires Cut(lines)
    ensures Cut(["\n"] + lines)
  {
    var all, n := ["\n"] + lines, |lines|;
    assert all[..n][1..] == lines[..n - 1] && WholeLine("\n");
  }

  lemma CutGrown(c: char, lines: seq<string>)
    requires (lines == [] || Cut(lines)) && c != '\n' && c != '\r'
    ensures Cut(Grown(c, lines))
  {
    var all, n := Grown(c, lines), |lines| - 1;
    if n > 0 {
      WholeLineGrows(c, lines[0]);
      assert all[..n][1..] == lines[..n][1..];
    } else {
      assert all[..0] == [];
    }
  }

  /** The lines of a text that does not end in a newline. */
  lemma {:induction false} UnterminatedLines(text: string)
    requires !Terminated(text)
    ensures Cut(Lines(text))
    decreases |text|
  {
    if text[0] == '\n' || text[0] == '\r' {
      UnterminatedLines(AfterBreak(text));
      CutAfterBreak(Lines(AfterBreak(text)));
    } else {
      if |text| > 1 { UnterminatedLines(text[1..]); }
      CutGrown(text[0], Lines(text[1..]));
    }
  }

  /** A line without its '\n', as rstrip("\n") leaves it. */
  function Body(l: string): string {
    if l != [] && l[|l| - 1] == '\n' then l[..|l| - 1] else l
  }

  lemma BodyGrows(c: char, l: string)
    requires NewlineFree(Body(l)) && c != '\n' && c != '\r'
    ensures NewlineFree(Body([c] + l))
  {
    if l != "" && l[|l| - 1] == '\n' {
      assert Body([c] + l) == [c] + Body(l);
    }
  }

  /** No line that a reader ever sees holds a newline inside. */
  lemma {:induction false} BodiesAreNewlineFree(text: string, i: nat)
    requires i < |Lines(text)|
    ensures NewlineFree(Body(Lines(text)[i]))
    decreases |text|
  {
    if text[0] == '\n' || text[0] == '\r' {
      if i > 0 { BodiesAreNewlineFree(AfterBreak(text), i - 1); }
    } else if Lines(text[1..]) != [] {
      BodiesAreNewlineFree(text[1..], i);
      if i == 0 { BodyGrows(text[0], Lines(text[1..])[0]); }
    }
  }

  // ------------------------------------------------------------------- readers, in general

  /** The last line that sets a known key gives its value. */
  function Values(parse: string -> Option<Setting>, defaults: map<string, string>,
                  lines: seq<string>): (v: map<string, string>)
    ensures v.Keys == defaults.Keys
  {
    if lines == [] then defaults
    else
      var before := Values(parse, defaults, lines[..|lines| - 1]);
      match parse(lines[|lines| - 1])
      case Some(s) => if s.key in defaults then before[s.key := s.value] else before
      case None => before
  }

  method ReadValues(parse: string -> Option<Setting>, defaults: map<string, string>, lines: seq<string>)
      returns (values: map<string, string>)
    ensures values == Values(parse, defaults, lines)
  {
    values := defaults;
    for i := 0 to |lines|
      invariant values == Values(parse, defaults, lines[..i])
    {
      OneMoreLine(parse, defaults, lines[..i], lines[i]);
      assert lines[..i + 1] == lines[..i] + [lines[i]];
      var m := parse(lines[i]);
      if m.Some? && m.value.key in values { values := values[m.value.key := m.value.value]; }
    }
    assert lines[..|lines|] == lines;
  }

  /** The lines that are not removed, in order. */
  function Kept(removed: string -> bool, lines: seq<string>): seq<string> {
    if lines == [] then []
    else
      var before, l := Kept(removed, lines[..|lines| - 1]), lines[|lines| - 1];
      if removed(l) then before else before + [l]
  }

  function UpdateMap(u: seq<Setting>): map<string, string> {
    if u == [] then map[] else UpdateMap(u[..|u| - 1])[u[|u| - 1].key := u[|u| - 1].value]
  }

  function Keys(u: seq<Setting>): set<string> {
    set s | s in u :: s.key
  }

  function FormatAll(format: Setting -> string, u: seq<Setting>): seq<string> {
    if u == [] then [] else FormatAll(format, u[..|u| - 1]) + [format(u[|u| - 1])]
  }

  /** Removing lines that set only updated keys changes no other value. */
  lemma {:induction false} KeptValues(parse: string -> Option<Setting>, removed: string -> bool,
                                      defaults: map<string, string>, lines: seq<string>, keys: set<string>)
    requires forall l :: l in lines && parse(l).Some? ==> (removed(l) <==> parse(l).value.key in keys)
    ensures forall k :: k in defaults && k !in keys ==>
      Values(parse, defaults, Kept(removed, lines))[k] == Values(parse, defaults, lines)[k]
  {
    if lines != [] {
      var before, l := lines[..|lines| - 1], lines[|lines| - 1];
      KeptValues(parse, removed, defaults, before, keys);
      assert l in lines;
      if !removed(l) {
        assert (Kept(removed, before) + [l])[..|Kept(removed, before)|] == Kept(removed, before);
      }
    }
  }

  lemma OneMoreLine(parse: string -> Option<Setting>, defaults: map<string, string>, a: seq<string>, l: string)
    ensures Values(parse, defaults, a + [l]) ==
      if parse(l).Some? && parse(l).value.key in defaults
      then Values(parse, defaults, a)[parse(l).value.key := parse(l).value.value] else Values(parse, defaults, a)
  {
    assert (a + [l])[..|a|] == a;
  }

  lemma OverrideOneMore(m: map<string, string>, later: map<string, string>, k: string, v: string)
    ensures (m + later)[k := v] == m + later[k := v]
  {
  }

  /** Appended lines override. */
  lemma {:induction false} AppendedValues(parse: string -> Option<Setting>, format: Setting -> string,
                                          defaults: map<string, string>, a: seq<string>, u: seq<Setting>)
    requires forall i :: 0 <= i < |u| ==> parse(format(u[i])) == Some(u[i]) && u[i].key in defaults
    ensures Values(parse, defaults, a + FormatAll(format, u)) == Values(parse, defaults, a) + UpdateMap(u)
  {
    var all := a + FormatAll(format, u);
    if u == [] {
      assert all == a;
      assert Values(parse, defaults, a) + map[] == Values(parse, defaults, a);
    } else {
      var before, s := u[..|u| - 1], u[|u| - 1];
      AppendedValues(parse, format, defaults, a, before);
      assert parse(format(s)) == Some(s) && s.key in defaults;
      OneMoreLine(parse, defaults, a + FormatAll(format, before), format(s));
      assert all == a + FormatAll(format, before) + [format(s)];
      OverrideOneMore(Values(parse, defaults, a), UpdateMap(before), s.key, s.value);
    }
  }

  lemma {:induction false} ValuesAreNewlineFree(parse: string -> Option<Setting>, defaults: map<string, string>,
                                                lines: seq<string>, k: string)
    requires k in defaults && NewlineFree(defaults[k])
    requires forall i :: 0 <= i < |lines| && parse(lines[i]).Some? ==> NewlineFree(parse(lines[i]).value.value)
    ensures NewlineFree(Values(parse, defaults, lines)[k])
  {
    if lines != [] { ValuesAreNewlineFree(parse, defaults, lines[..|lines| - 1], k); }
  }

  /** A key no line sets keeps its default. */
  lemma {:induction false} UnsetValue(parse: string -> Option<Setting>, defaults: map<string, string>,
                                      lines: seq<string>, k: string)
    requires k in defaults
    requires forall l :: l in lines && parse(l).Some? ==> parse(l).value.key != k
    ensures Values(parse, defaults, lines)[k] == defaults[k]
  {
    if lines != [] {
      UnsetValue(parse, defaults, lines[..|lines| - 1], k);
      assert lines[|lines| - 1] in lines;
    }
  }

  lemma {:induction false} KeptAreNotRemoved(removed: string -> bool, lines: seq<string>)
    ensures forall l :: l in Kept(removed, lines) ==> l in lines && !removed(l)
  {
    if lines != [] { KeptAreNotRemoved(removed, lines[..|lines| - 1]); }
  }

  lemma {:induction false} NothingRemoved(removed: string -> bool, lines: seq<string>)
    requires forall l :: l in lines ==> !removed(l)
    ensures Kept(removed, lines) == lines
  {
    if lines != [] {
      NothingRemoved(removed, lines[..|lines| - 1]);
      assert lines[|lines| - 1] in lines;
      assert lines == lines[..|lines| - 1] + [lines[|lines| - 1]];
    }
  }

  lemma {:induction false} FirstOfMap(u: seq<Setting>)
    requires u != []
    ensures UpdateMap(u) == map[u[0].key := u[0].value] + UpdateMap(u[1..])
  {
    var n := |u| - 1;
    if n == 0 {
      assert u[..0] == [] && u[1..] == [];
    } else {
      FirstOfMap(u[..n]);
      assert u[..n][1..] == u[1..][..n - 1] && u[1..][n - 1] == u[n];
    }
  }

  lemma {:induction false} FirstOfFormat(format: Setting -> string, u: seq<Setting>)
    requires u != []
    ensures FormatAll(format, u) == [format(u[0])] + FormatAll(format, u[1..])
  {
    var n := |u| - 1;
    if n == 0 {
      assert u[..0] == [] && u[1..] == [];
    } else {
      FirstOfFormat(format, u[..n]);
      assert u[..n][1..] == u[1..][..n - 1] && u[1..][n - 1] == u[n];
    }
  }

  lemma FirstOfKeys(u: seq<Setting>)
    requires u != []
    ensures Keys(u) == {u[0].key} + Keys(u[1..])
  {
    assert u == [u[0]] + u[1..];
  }

  /** The condition under which conf_values of the written file is a map update, at the level of lines:
    * g is what the spliced line sets. */
  ghost predicate SplicedRight(defaults: map<string, string>, values: map<string, string>, u: seq<Setting>,
                               g: Option<Setting>)
    requires u != [] && values.Keys == defaults.Keys && u[0].key in defaults
  {
    && u[0].value == defaults[u[0].key]
    && (g.Some? && g.value.key in defaults && g.value.key !in Keys(u) ==> values[g.value.key] == g.value.value)
  }

  predicate Distinct(u: seq<Setting>) {
    forall i, j :: 0 <= i < j < |u| ==> u[i].key != u[j].key
  }

  /** Which values a spliced write changes.  The first update's key falls back to its default. */
  lemma SplicedMap(parse: string -> Option<Setting>, removed: string -> bool, defaults: map<string, string>,
                   rest: seq<string>, last: string, spliced: string, u: seq<Setting>)
    requires u != [] && Distinct(u) && forall i :: 0 <= i < |u| ==> u[i].key in defaults
    requires forall l :: l in rest && parse(l).Some? ==> (removed(l) <==> parse(l).value.key in Keys(u))
    requires parse(last).Some? ==> parse(last).value.key !in Keys(u)
    requires parse(spliced).Some? ==> parse(spliced).value.key != u[0].key
    requires parse(last).Some? ==> parse(spliced).Some? && parse(spliced).value.key == parse(last).value.key
    ensures
      var after := Values(parse, defaults, Kept(removed, rest) + [spliced]) + UpdateMap(u[1..]);
      var values := Values(parse, defaults, rest + [last]);
      && u[0].key in defaults && after[u[0].key] == defaults[u[0].key]
      && (after == values + UpdateMap(u) <==> SplicedRight(defaults, values, u, parse(spliced)))
  {
    var kept := Kept(removed, rest);
    var before := Values(parse, defaults, kept + [spliced]);
    var values := Values(parse, defaults, rest + [last]);
    var k0 := u[0].key;
    FirstOfMap(u);
    FirstOfKeys(u);
    UpdatedKeys(u[1..]);
    LaterKeysDiffer(u);
    KeptAreNotRemoved(removed, rest);
    UnsetValue(parse, defaults, kept, k0);
    KeptValues(parse, removed, defaults, rest, Keys(u));
    OneMoreLine(parse, defaults, kept, spliced);
    OneMoreLine(parse, defaults, rest, last);
    SplicedCompare(before, values, UpdateMap(u[1..]), k0, u[0].value, parse(spliced));
  }

  lemma LaterKeysDiffer(u: seq<Setting>)
    requires u != [] && Distinct(u)
    ensures u[0].key !in Keys(u[1..])
  {
    forall s | s in u[1..]
      ensures s.key != u[0].key
    {
      var i :| 0 <= i < |u| - 1 && u[1..][i] == s;
      assert u[i + 1] == s;
    }
  }

  lemma SplicedCompare(before: map<string, string>, values: map<string, string>, later: map<string, string>,
                       k0: string, v0: string, g: Option<Setting>)
    requires before.Keys == values.Keys && k0 in before && k0 !in later
    requires g.Some? && g.value.key in before ==> before[g.value.key] == g.value.value && g.value.key != k0
    requires forall k :: k in before && k != k0 && k !in later && !(g.Some? && g.value.key == k) ==>
      before[k] == values[k]
    ensures before + later == values + (map[k0 := v0] + later)
       <==> v0 == before[k0]
            && (g.Some? && g.value.key in before && g.value.key !in later ==> values[g.value.key] == g.value.value)
  {
    assert values + (map[k0 := v0] + later) == values[k0 := v0] + later;
    OverriddenAlike(before, values[k0 := v0], later);
  }

  lemma OverriddenAlike(a: map<string, string>, b: map<string, string>, later: map<string, string>)
    requires a.Keys == b.Keys
    ensures a + later == b + later <==> forall k :: k in a && k !in later ==> a[k] == b[k]
  {
    forall k | k in a && k !in later
      ensures (a + later)[k] == a[k] && (b + later)[k] == b[k]
    {
    }
  }

  lemma {:induction false} UpdatedKeys(u: seq<Setting>)
    ensures UpdateMap(u).Keys == Keys(u)
  {
    if u != [] {
      UpdatedKeys(u[..|u| - 1]);
      assert u == u[..|u| - 1] + [u[|u| - 1]];
    }
  }

  /** A whole write, at the level of lines: old values overridden by the updates. */
  lemma WrittenValues(parse: string -> Option<Setting>, format: Setting -> string, removed: string -> bool,
                      defaults: map<string, string>, lines: seq<string>, u: seq<Setting>)
    requires forall i :: 0 <= i < |u| ==> parse(format(u[i])) == Some(u[i]) && u[i].key in defaults
    requires forall l :: l in lines && parse(l).Some? ==> (removed(l) <==> parse(l).value.key in UpdateMap(u).Keys)
    ensures Values(parse, defaults, Kept(removed, lines) + FormatAll(format, u))
         == Values(parse, defaults, lines) + UpdateMap(u)
  {
    var keys := UpdateMap(u).Keys;
    UpdatedKeys(u);
    KeptValues(parse, removed, defaults, lines, keys);
    AppendedValues(parse, format, defaults, Kept(removed, lines), u);
  }

  // -------------------------------------------------------------- the two readers' line forms

  /** Position of the last double quote, or -1. */
  function LastQuote(s: string): (i: int)
    ensures -1 <= i < |s| && (i >= 0 ==> s[i] == '"') && forall j :: i < j < |s| ==> s[j] != '"'
  {
    if s == [] then -1 else if s[|s| - 1] == '"' then |s| - 1 else LastQuote(s[..|s| - 1])
  }

  /** What Python's \s and strip() call white space. */
  predicate Space(c: char) {
    || c == ' ' || '\t' <= c <= '\r' || '\U{1c}' <= c <= '\U{1f}' || c == '\U{85}' || c == '\U{a0}'
    || c == '\U{1680}' || '\U{2000}' <= c <= '\U{200a}' || c == '\U{2028}' || c == '\U{2029}'
    || c == '\U{202f}' || c == '\U{205f}' || c == '\U{3000}'
  }

  predicate AllSpace(s: string) {
    forall i :: 0 <= i < |s| ==> Space(s[i])
  }

  /** [A-Z][A-Z0-9_]* */
  predicate KeyShape(k: string) {
    && k != [] && 'A' <= k[0] <= 'Z'
    && forall i :: 0 <= i < |k| ==> 'A' <= k[i] <= 'Z' || '0' <= k[i] <= '9' || k[i] == '_'
  }

  /** conf_values on one line: a key, '="', anything up to the last quote, then only white space. */
  function ParseLine(l: string): Option<Setting> {
    var b := Body(l);
    var i, q := FirstEquals(b), LastQuote(b);
    if i + 1 < |b| && KeyShape(b[..i]) && b[i + 1] == '"' && q >= i + 2 && AllSpace(b[q + 1..])
    then Some(Setting(b[..i], b[i + 2..q])) else None
  }

  function StripLeft(s: string): string {
    if s != [] && Space(s[0]) then StripLeft(s[1..]) else s
  }

  function StripRight(s: string): string {
    if s != [] && Space(s[|s| - 1]) then StripRight(s[..|s| - 1]) else s
  }

  function Strip(s: string): string {
    StripRight(StripLeft(s))
  }

  predicate ShellName(k: string) {
    k != [] && !('0' <= k[0] <= '9')
    && forall i :: 0 <= i < |k| ==>
      'A' <= k[i] <= 'Z' || 'a' <= k[i] <= 'z' || '0' <= k[i] <= '9' || k[i] == '_'
  }

  function Unquote(v: string): string {
    if |v| >= 2 && v[0] == v[|v| - 1] && (v[0] == '"' || v[0] == '\'') then v[1..|v| - 1] else v
  }

  /** load_conf on one line. */
  function LoadLine(l: string): Option<Setting> {
    var t := Strip(l);
    var i := FirstEquals(t);
    if t == [] || t[0] == '#' || i == |t| || !ShellName(Strip(t[..i])) then None
    else Some(Setting(Strip(t[..i]), Unquote(Strip(t[i + 1..]))))
  }

  function FormatLine(s: Setting): string {
    s.key + "=\"" + s.value + "\"\n"
  }

  lemma KeyEndsAtEquals(k: string, rest: string)
    requires FirstEquals(k) == |k|
    ensures FirstEquals(k + "=" + rest) == |k|
  {
    var s := k + "=" + rest;
    assert s[|k|] == '=' && forall j :: 0 <= j < |k| ==> s[j] == k[j];
  }

  lemma KeyHasNoEquals(k: string)
    requires KeyShape(k)
    ensures FirstEquals(k) == |k|
  {
  }

  /** The line of a setting without its newline. */
  function Assignment(s: Setting): string {
    s.key + "=" + ("\"" + s.value + "\"")
  }

  lemma FormattedBody(s: Setting)
    ensures FormatLine(s) == Assignment(s) + "\n" && Body(FormatLine(s)) == Assignment(s)
  {
    assert FormatLine(s) == Assignment(s) + "\n";
    assert (Assignment(s) + "\n")[..|Assignment(s)|] == Assignment(s);
  }

  lemma AssignmentParts(s: Setting)
    requires KeyShape(s.key)
    ensures
      var b, n := Assignment(s), |s.key|;
      && FirstEquals(b) == n && |b| == n + |s.value| + 3 && b[..n] == s.key
      && b[n + 1] == '"' && b[|b| - 1] == '"' && LastQuote(b) == |b| - 1
      && b[n + 2..|b| - 1] == s.value && b[n + 1..] == "\"" + s.value + "\""
  {
    KeyHasNoEquals(s.key);
    KeyEndsAtEquals(s.key, "\"" + s.value + "\"");
  }

  lemma StripKeeps(t: string)
    requires t != [] && !Space(t[0]) && !Space(t[|t| - 1])
    ensures Strip(t) == t && Strip(t + "\n") == t
  {
    assert StripLeft(t) == t && StripRight(t) == t;
    assert StripLeft(t + "\n") == t + "\n" && (t + "\n")[..|t|] == t;
    assert StripRight(t + "\n") == StripRight(t);
  }

  lemma WriterFormIsParsed(s: Setting)
    requires KeyShape(s.key)
    ensures ParseLine(FormatLine(s)) == Some(s)
  {
    FormattedBody(s);
    AssignmentParts(s);
    assert Assignment(s)[|Assignment(s)|..] == [];
  }

  /** The setting, and then n characters of white space. */
  predicate ReadsAs(b: string, s: Setting, n: nat) {
    |b| == |Assignment(s)| + n && b[..|Assignment(s)|] == Assignment(s) && AllSpace(b[|Assignment(s)|..])
  }

  lemma ParsedReadsAs(l: string)
    requires ParseLine(l).Some?
    ensures KeyShape(ParseLine(l).value.key)
    ensures ReadsAs(Body(l), ParseLine(l).value, |Body(l)| - LastQuote(Body(l)) - 1)
  {
    var b := Body(l);
    var i, q := FirstEquals(b), LastQuote(b);
    var a := Assignment(Setting(b[..i], b[i + 2..q]));
    assert b[i] == '=' && b[q] == '"';
    assert b[..q + 1] == b[..i] + [b[i]] + ([b[i + 1]] + b[i + 2..q] + [b[q]]);
    assert a == b[..q + 1];
  }

  lemma LastQuoteOf(a: string, blanks: string)
    requires a != "" && a[|a| - 1] == '"' && AllSpace(blanks)
    ensures LastQuote(a + blanks) == |a| - 1
  {
    var b := a + blanks;
    assert b[|a| - 1] == '"';
    forall j | |a| <= j < |b|
      ensures b[j] != '"'
    {
      assert b[j] == blanks[j - |a|] && Space(blanks[j - |a|]);
    }
  }

  lemma ReadIsParsed(l: string, s: Setting, n: nat)
    requires KeyShape(s.key) && ReadsAs(Body(l), s, n)
    ensures ParseLine(l) == Some(s)
  {
    var b, a := Body(l), Assignment(s);
    var blanks := b[|a|..];
    assert b == a + blanks;
    AssignmentParts(s);
    FirstEqualsOfBoth(a, blanks);
    LastQuoteOf(a, blanks);
    assert b[..|s.key|] == a[..|s.key|] && b[|s.key| + 1] == a[|s.key| + 1];
    assert b[|s.key| + 2..|a| - 1] == a[|s.key| + 2..|a| - 1];
  }

  /** Exactly the lines that read KEY="value", with white space allowed after the last quote, are settings
    * for conf_values.  The value may hold quotes itself. */
  lemma ParsesIff(l: string, s: Setting)
    ensures ParseLine(l) == Some(s) <==> KeyShape(s.key) && exists n: nat :: ReadsAs(Body(l), s, n)
  {
    if ParseLine(l) == Some(s) { ParsedReadsAs(l); }
    if n: nat :| KeyShape(s.key) && ReadsAs(Body(l), s, n) { ReadIsParsed(l, s, n); }
  }

  lemma {:induction false} SpaceComesOff(a: string, t: string, d: string)
    requires AllSpace(a) && AllSpace(d) && (t == "" || (!Space(t[0]) && !Space(t[|t| - 1])))
    ensures Strip(a + t + d) == t
  {
    if a != "" {
      assert (a + t + d)[1..] == a[1..] + t + d;
      SpaceComesOff(a[1..], t, d);
    } else if t == "" {
      assert a + t + d == d;
      AllSpaceComesOff(d);
    } else {
      assert a + t + d == t + d && StripLeft(t + d) == t + d;
      SpaceComesOffRight(t, d);
    }
  }

  lemma {:induction false} AllSpaceComesOff(d: string)
    requires AllSpace(d)
    ensures StripLeft(d) == ""
  {
    if d != "" { AllSpaceComesOff(d[1..]); }
  }

  lemma {:induction false} SpaceComesOffRight(t: string, d: string)
    requires AllSpace(d) && t != "" && !Space(t[|t| - 1])
    ensures StripRight(t + d) == t
  {
    if d == "" {
      assert t + d == t;
    } else {
      assert (t + d)[..|t + d| - 1] == t + d[..|d| - 1];
      SpaceComesOffRight(t, d[..|d| - 1]);
    }
  }

  /** What load_conf makes of a line: white space comes off around the line, the name and the value, and one
    * pair of quotes off the value. */
  lemma LoadsTrimmed(a: string, k: string, b: string, c: string, v: string, d: string)
    requires AllSpace(a) && AllSpace(b) && AllSpace(c) && AllSpace(d)
    requires ShellName(k) && v != "" && !Space(v[0]) && !Space(v[|v| - 1])
    ensures LoadLine(a + ((k + b) + "=" + (c + v)) + d) == Some(Setting(k, Unquote(v)))
  {
    var t := (k + b) + "=" + (c + v);
    assert t[0] == k[0] && t[|t| - 1] == v[|v| - 1];
    SpaceComesOff(a, t, d);
    assert forall j :: 0 <= j < |k + b| ==> (k + b)[j] != '=';
    assert FirstEquals(k + b) == |k + b|;
    KeyEndsAtEquals(k + b, c + v);
    assert t[..|k + b|] == k + b && t[|k + b| + 1..] == c + v;
    SpaceComesOff("", k, b);
    assert "" + k + b == k + b;
    SpaceComesOff(c, v, "");
    assert c + v + "" == c + v;
  }

  /** An empty value, with or without white space. */
  lemma LoadsEmpty(a: string, k: string, b: string, d: string)
    requires AllSpace(a) && AllSpace(b) && AllSpace(d) && ShellName(k)
    ensures LoadLine(a + ((k + b) + "=") + d) == Some(Setting(k, ""))
  {
    var t := (k + b) + "=";
    assert t[0] == k[0];
    SpaceComesOff(a, t, d);
    assert forall j :: 0 <= j < |k + b| ==> (k + b)[j] != '=';
    assert FirstEquals(k + b) == |k + b|;
    KeyEndsAtEquals(k + b, "");
    assert (k + b) + "=" + "" == t;
    assert t[..|k + b|] == k + b && t[|k + b| + 1..] == "";
    SpaceComesOff("", k, b);
    assert "" + k + b == k + b;
  }

  /** Comments, and lines without '=', set nothing. */
  lemma LoadsNothing(a: string, s: string)
    requires AllSpace(a)
    ensures LoadLine(a + "#" + s) == None
    ensures (forall j :: 0 <= j < |s| ==> s[j] != '=') ==> LoadLine(s) == None
  {
    StripLeftSkips(a, "#" + s);
    assert a + "#" + s == a + ("#" + s);
    StripRightKeepsStart("#" + s);
    if forall j :: 0 <= j < |s| ==> s[j] != '=' { StripIsPart(s); }
  }

  lemma {:induction false} StripLeftSkips(a: string, s: string)
    requires AllSpace(a)
    ensures StripLeft(a + s) == StripLeft(s)
  {
    if a == "" {
      assert a + s == s;
    } else {
      assert (a + s)[1..] == a[1..] + s;
      StripLeftSkips(a[1..], s);
    }
  }

  lemma {:induction false} StripRightKeepsStart(s: string)
    requires s != "" && !Space(s[0])
    ensures StripRight(s) != "" && StripRight(s)[0] == s[0]
  {
    if Space(s[|s| - 1]) { StripRightKeepsStart(s[..|s| - 1]); }
  }

  lemma StripIsPart(s: string)
    requires forall j :: 0 <= j < |s| ==> s[j] != '='
    ensures forall j :: 0 <= j < |Strip(s)| ==> Strip(s)[j] != '='
  {
    LeftIsPart(s);
    RightIsPart(StripLeft(s));
  }

  lemma {:induction false} LeftIsPart(s: string)
    ensures forall j :: 0 <= j < |StripLeft(s)| ==> StripLeft(s)[j] in s
  {
    if s != "" && Space(s[0]) { LeftIsPart(s[1..]); }
  }

  lemma {:induction false} RightIsPart(s: string)
    ensures forall j :: 0 <= j < |StripRight(s)| ==> StripRight(s)[j] in s
  {
    if s != "" && Space(s[|s| - 1]) { RightIsPart(s[..|s| - 1]); }
  }

  /** One pair of quotes of either kind comes off; anything else stays. */
  lemma WhatQuotesComeOff(v: string)
    ensures Unquote("\"" + v + "\"") == v && Unquote("'" + v + "'") == v
    ensures |v| < 2 || v[0] != v[|v| - 1] || (v[0] != '"' && v[0] != '\'') ==> Unquote(v) == v
  {
  }

  lemma WriterFormIsLoaded(s: Setting)
    requires KeyShape(s.key)
    ensures LoadLine(FormatLine(s)) == Some(s)
  {
    FormattedBody(s);
    AssignmentParts(s);
    StripKeeps(Assignment(s));
    StripKeeps(s.key);
    QuotesComeOff(s.value);
  }

  lemma QuotesComeOff(v: string)
    ensures Strip("\"" + v + "\"") == "\"" + v + "\"" && Unquote("\"" + v + "\"") == v
  {
    var q := "\"" + v + "\"";
    assert q[0] == '"' && q[|q| - 1] == '"' && q[1..|q| - 1] == v;
    StripKeeps(q);
  }

  // ------------------------------------------------------------------------------- write_conf

  predicate StartsWith(l: string, p: string) {
    |p| <= |l| && l[..|p|] == p
  }

  /** The lines write_conf drops: those that start with an updated key and '='. */
  predicate Removes(keys: set<string>, l: string) {
    exists k :: k in keys && StartsWith(l, k + "=")
  }

  function KeptLines(text: string, u: seq<Setting>): seq<string> {
    Kept(l => Removes(Keys(u), l), Lines(text))
  }

  function Written(text: string, u: seq<Setting>): string {
    Concat(KeptLines(text, u) + FormatAll(FormatLine, u))
  }

  predicate GoodUpdates(u: seq<Setting>) {
    forall i :: 0 <= i < |u| ==> KeyShape(u[i].key) && NewlineFree(u[i].value)
  }

  method KeepLines(removed: string -> bool, lines: seq<string>) returns (kept: seq<string>)
    ensures kept == Kept(removed, lines)
  {
    kept := [];
    for i := 0 to |lines|
      invariant kept == Kept(removed, lines[..i])
    {
      assert lines[..i + 1][..i] == lines[..i];
      if !removed(lines[i]) { kept := kept + [lines[i]]; }
    }
    assert lines[..|lines|] == lines;
  }

  method FormatUpdates(u: seq<Setting>) returns (added: seq<string>)
    ensures added == FormatAll(FormatLine, u)
  {
    added := [];
    for i := 0 to |u|
      invariant added == FormatAll(FormatLine, u[..i])
    {
      assert u[..i + 1][..i] == u[..i];
      added := added + [FormatLine(u[i])];
    }
    assert u[..|u|] == u;
  }

  class SettingsFile {
    var text: Option<string>

    constructor ()
      ensures text == None
    {
      text := None;
    }

    /** write_conf: drop the old assignments, append the new ones, replace the file at once. */
    method WriteConf(u: seq<Setting>)
      modifies this
      ensures text == Some(Written(if old(text).Some? then old(text).value else "", u))
    {
      var lines := if text.Some? then Lines(text.value) else [];
      var kept := KeepLines(l => Removes(Keys(u), l), lines);
      var added := FormatUpdates(u);
      text := Some(Concat(kept + added));
    }

    /** conf_values: the defaults, overridden line by line. */
    method ConfValues(defaults: map<string, string>) returns (values: map<string, string>)
      ensures values == Values(ParseLine, defaults, if text.Some? then Lines(text.value) else [])
    {
      values := ReadValues(ParseLine, defaults, if text.Some? then Lines(text.value) else []);
    }
  }

  // --------------------------------------------------------------------------- the theorems

  lemma RemovedLinesSetUpdatedKeys(keys: set<string>, l: string)
    requires (forall k :: k in keys ==> KeyShape(k)) && ParseLine(l).Some?
    ensures Removes(keys, l) <==> ParseLine(l).value.key in keys
  {
    forall k | k in keys
      ensures StartsWith(l, k + "=") <==> k == ParseLine(l).value.key
    {
      PrefixIsKey(l, k);
    }
  }

  lemma RemovedAreUpdated(lines: seq<string>, u: seq<Setting>)
    requires GoodUpdates(u)
    ensures forall l :: l in lines && ParseLine(l).Some? ==>
      (Removes(Keys(u), l) <==> ParseLine(l).value.key in Keys(u))
  {
    forall l | l in lines && ParseLine(l).Some?
      ensures Removes(Keys(u), l) <==> ParseLine(l).value.key in Keys(u)
    {
      RemovedLinesSetUpdatedKeys(Keys(u), l);
    }
  }

  lemma PrefixIsKey(l: string, k: string)
    requires KeyShape(k) && ParseLine(l).Some?
    ensures StartsWith(l, k + "=") <==> k == ParseLine(l).value.key
  {
    var b := Body(l);
    var i := FirstEquals(b);
    assert l[..i] == b[..i] && l[i] == '=';
    if k == b[..i] {
      assert l[..i + 1] == k + "=";
    } else if StartsWith(l, k + "=") {
      assert l[|k|] == (k + "=")[|k|] == '=';
      assert forall j :: 0 <= j < |k| ==> l[j] == (k + "=")[j] == k[j];
    }
  }

  function LastLine(text: string): string {
    if Lines(text) == [] then "" else Lines(text)[|Lines(text)| - 1]
  }

  /** Nothing is written behind an unterminated line. */
  predicate Clean(text: string, u: seq<Setting>) {
    u == [] || Terminated(text) || Removes(Keys(u), LastLine(text))
  }

  lemma ConcatWithLast(lines: seq<string>, last: string, more: seq<string>)
    ensures Concat(lines + [last] + more) == Concat(lines) + last + Concat(more)
    decreases |lines|
  {
    if lines == [] {
      assert lines + [last] + more == [last] + more;
    } else {
      ConcatWithLast(lines[1..], last, more);
      assert (lines + [last] + more)[1..] == lines[1..] + [last] + more;
    }
  }

  /** Joining the lines of any text and splitting again gives the same lines. */
  lemma LinesAgain(text: string)
    ensures Lines(Concat(Lines(text))) == Lines(text)
  {
    var lines := Lines(text);
    if Terminated(text) {
      TerminatedLines(text);
      LinesAreStable(lines);
    } else {
      UnterminatedLines(text);
      var rest, last := lines[..|lines| - 1], lines[|lines| - 1];
      ConcatWithLast(rest, last, []);
      assert rest + [last] + [] == lines && Concat(rest) + last + "" == Concat(rest) + last;
      LinesOfConcat(rest, last);
      NewlineFreeIsOneLine(last);
    }
  }

  /** The lines after a clean write: the kept lines unchanged and in order, then one line for each
    * update. */
  lemma WrittenLines(text: string, u: seq<Setting>)
    requires Clean(text, u) && GoodUpdates(u)
    ensures Lines(Written(text, u)) == KeptLines(text, u) + FormatAll(FormatLine, u)
    ensures u != [] || Terminated(text) ==> Terminated(Written(text, u))
  {
    var removed := l => Removes(Keys(u), l);
    var all := KeptLines(text, u) + FormatAll(FormatLine, u);
    if u == [] {
      NothingRemoved(removed, Lines(text));
      assert all == Lines(text);
      LinesAgain(text);
      if Terminated(text) {
        TerminatedLines(text);
        ConcatIsTerminated(all);
      }
    } else {
      CleanLinesAreWhole(text, u);
      FormattedAreWhole(u);
      AllWholeAppend(KeptLines(text, u), FormatAll(FormatLine, u));
      LinesAreStable(all);
      ConcatIsTerminated(all);
    }
  }

  lemma CleanLinesAreWhole(text: string, u: seq<Setting>)
    requires Clean(text, u) && u != []
    ensures AllWhole(KeptLines(text, u))
  {
    var removed := l => Removes(Keys(u), l);
    if Terminated(text) {
      TerminatedLines(text);
      KeptAreWhole(removed, Lines(text));
    } else {
      UnterminatedLines(text);
      KeptAreWhole(removed, Lines(text)[..|Lines(text)| - 1]);
    }
  }

  lemma {:induction false} AllWholeAppend(a: seq<string>, b: seq<string>)
    requires AllWhole(a) && AllWhole(b)
    ensures AllWhole(a + b)
  {
    if a == [] {
      assert a + b == b;
    } else {
      AllWholeAppend(a[1..], b);
      assert (a + b)[1..] == a[1..] + b;
    }
  }

  lemma {:induction false} AllWholePrefix(a: seq<string>)
    requires AllWhole(a) && a != []
    ensures AllWhole(a[..|a| - 1]) && WholeLine(a[|a| - 1])
  {
    if |a| > 1 {
      AllWholePrefix(a[1..]);
      assert a[..|a| - 1][1..] == a[1..][..|a| - 2];
    }
  }

  lemma {:induction false} KeptAreWhole(removed: string -> bool, lines: seq<string>)
    requires AllWhole(lines)
    ensures AllWhole(Kept(removed, lines))
  {
    if lines != [] {
      AllWholePrefix(lines);
      KeptAreWhole(removed, lines[..|lines| - 1]);
      AllWholeAppend(Kept(removed, lines[..|lines| - 1]), [lines[|lines| - 1]]);
    }
  }

  lemma FormattedIsWhole(s: Setting)
    requires KeyShape(s.key) && NewlineFree(s.value)
    ensures WholeLine(FormatLine(s))
  {
    FormattedBody(s);
  }

  lemma {:induction false} FormattedAreWhole(u: seq<Setting>)
    requires GoodUpdates(u)
    ensures AllWhole(FormatAll(FormatLine, u))
  {
    if u != [] {
      FormattedAreWhole(u[..|u| - 1]);
      FormattedIsWhole(u[|u| - 1]);
      AllWholeAppend(FormatAll(FormatLine, u[..|u| - 1]), [FormatLine(u[|u| - 1])]);
    }
  }

  lemma {:induction false} ConcatIsTerminated(lines: seq<string>)
    requires AllWhole(lines)
    ensures Terminated(Concat(lines))
  {
    if lines != [] { ConcatIsTerminated(lines[1..]); }
  }

  /** The settings file is a map: after a clean write_conf(u), conf_values is what it was, overridden by u. */
  lemma SettingsFileIsAMap(text: string, u: seq<Setting>, defaults: map<string, string>)
    requires Clean(text, u) && GoodUpdates(u)
    requires forall i :: 0 <= i < |u| ==> u[i].key in defaults
    ensures Values(ParseLine, defaults, Lines(Written(text, u)))
         == Values(ParseLine, defaults, Lines(text)) + UpdateMap(u)
  {
    WrittenLines(text, u);
    forall i | 0 <= i < |u|
      ensures ParseLine(FormatLine(u[i])) == Some(u[i])
    {
      WriterFormIsParsed(u[i]);
    }
    UpdatedKeys(u);
    RemovedAreUpdated(Lines(text), u);
    WrittenValues(ParseLine, FormatLine, l => Removes(Keys(u), l), defaults, Lines(text), u);
  }

  /** load_conf reads every written key as conf_values does. */
  lemma BothReadersAgree(text: string, u: seq<Setting>, defaults: map<string, string>, k: string)
    requires Clean(text, u) && GoodUpdates(u) && k in UpdateMap(u)
    requires forall i :: 0 <= i < |u| ==> u[i].key in defaults
    ensures k in defaults && Values(LoadLine, defaults, Lines(Written(text, u)))[k] == UpdateMap(u)[k]
         == Values(ParseLine, defaults, Lines(Written(text, u)))[k]
  {
    WrittenLines(text, u);
    UpdatedKeys(u);
    forall i | 0 <= i < |u|
      ensures LoadLine(FormatLine(u[i])) == Some(u[i])
    {
      WriterFormIsLoaded(u[i]);
    }
    AppendedValues(LoadLine, FormatLine, defaults, KeptLines(text, u), u);
    SettingsFileIsAMap(text, u, defaults);
  }

  lemma {:induction false} KeptOfFormatted(u: seq<Setting>, keys: set<string>)
    requires Keys(u) <= keys
    ensures Kept(l => Removes(keys, l), FormatAll(FormatLine, u)) == []
  {
    if u != [] {
      var s := u[|u| - 1];
      assert s.key in Keys(u);
      assert Keys(u[..|u| - 1]) <= Keys(u);
      KeptOfFormatted(u[..|u| - 1], keys);
      assert StartsWith(FormatLine(s), s.key + "=") by {
        assert FormatLine(s)[..|s.key| + 1] == s.key + "=";
      }
    }
  }

  lemma {:induction false} KeptOfAppend(removed: string -> bool, a: seq<string>, b: seq<string>)
    ensures Kept(removed, a + b) == Kept(removed, a) + Kept(removed, b)
  {
    if b == [] {
      assert a + b == a;
    } else {
      KeptOfAppend(removed, a, b[..|b| - 1]);
      assert (a + b)[..|a + b| - 1] == a + b[..|b| - 1];
    }
  }

  lemma {:induction false} KeptTwice(p: string -> bool, lines: seq<string>)
    ensures Kept(p, Kept(p, lines)) == Kept(p, lines)
  {
    if lines != [] {
      var before, l := lines[..|lines| - 1], lines[|lines| - 1];
      KeptTwice(p, before);
      if !p(l) {
        assert (Kept(p, before) + [l])[..|Kept(p, before)|] == Kept(p, before);
      }
    }
  }

  /** Writing the same keys again replaces the earlier lines: no assignment is ever left twice. */
  lemma RewriteReplaces(text: string, u: seq<Setting>, v: seq<Setting>)
    requires Clean(text, u) && GoodUpdates(u) && GoodUpdates(v) && Keys(u) == Keys(v)
    ensures Written(Written(text, u), v) == Written(text, v)
  {
    var p, f := l => Removes(Keys(v), l), FormatAll(FormatLine, u);
    WrittenLines(text, u);
    KeptOfFormatted(u, Keys(v));
    KeptOfAppend(p, Kept(p, Lines(text)), f);
    KeptTwice(p, Lines(text));
    assert Kept(p, Lines(text)) + [] == Kept(p, Lines(text));
  }

  lemma {:induction false} NewlineFreeIsOneLine(s: string)
    requires NewlineFree(s) && s != []
    ensures Lines(s) == [s]
  {
    if |s| > 1 {
      NewlineFreeIsOneLine(s[1..]);
      assert [s[0]] + s[1..] == s;
      assert [s[1..]][1..] == [];
    } else {
      assert s[1..] == [] && [s[0]] == s;
    }
  }

  // ----------------------------------------------------------- files without a final newline

  /** The line that results when the file does not end in a newline. */
  function SplicedLine(text: string, s: Setting): string {
    LastLine(text) + FormatLine(s)
  }

  /** All lines of the file but the last, less those that are removed. */
  function KeptBefore(text: string, u: seq<Setting>): seq<string>
    requires Lines(text) != []
  {
    Kept(l => Removes(Keys(u), l), Lines(text)[..|Lines(text)| - 1])
  }

  lemma SplicedIsWhole(last: string, s: Setting)
    requires NewlineFree(last) && KeyShape(s.key) && NewlineFree(s.value)
    ensures WholeLine(last + FormatLine(s)) && Body(last + FormatLine(s)) == last + Assignment(s)
  {
    FormattedIsWhole(s);
    FormattedBody(s);
    var l, b := last + FormatLine(s), last + Assignment(s);
    assert l == b + "\n" && l[..|l| - 1] == b;
    assert NewlineFree(FormatLine(s)[..|FormatLine(s)| - 1]);
    assert FormatLine(s)[..|FormatLine(s)| - 1] == Assignment(s);
  }

  lemma SplicedConcat(kept: seq<string>, last: string, first: string, more: seq<string>)
    ensures Concat(kept + [last] + ([first] + more)) == Concat(kept + [last + first] + more)
  {
    ConcatWithLast(kept, last, [first] + more);
    ConcatWithLast(kept, last + first, more);
    assert ([first] + more)[1..] == more;
    assert Concat(kept) + last + (first + Concat(more)) == Concat(kept) + (last + first) + Concat(more);
  }

  /** The lines after a write that is not clean: the last line and the first update are one line. */
  lemma SplicedLines(text: string, u: seq<Setting>)
    requires !Clean(text, u) && GoodUpdates(u)
    ensures Lines(text) != []
    ensures Lines(Written(text, u))
         == KeptBefore(text, u) + [SplicedLine(text, u[0])] + FormatAll(FormatLine, u[1..])
    ensures Terminated(Written(text, u))
  {
    UnterminatedLines(text);
    var removed := l => Removes(Keys(u), l);
    var rest, last := Lines(text)[..|Lines(text)| - 1], LastLine(text);
    var kept, more := Kept(removed, rest), FormatAll(FormatLine, u[1..]);
    var spliced := last + FormatLine(u[0]);
    FirstOfFormat(FormatLine, u);
    assert KeptLines(text, u) == kept + [last];
    SplicedConcat(kept, last, FormatLine(u[0]), more);
    KeptAreWhole(removed, rest);
    SplicedIsWhole(last, u[0]);
    FormattedAreWhole(u[1..]);
    AllWholeAppend(kept, [spliced]);
    AllWholeAppend(kept + [spliced], more);
    LinesAreStable(kept + [spliced] + more);
    ConcatIsTerminated(kept + [spliced] + more);
  }

  lemma FirstEqualsOfBoth(a: string, b: string)
    ensures FirstEquals(a) < |a| ==> FirstEquals(a + b) == FirstEquals(a)
    ensures FirstEquals(a) == |a| ==> FirstEquals(a + b) == |a| + FirstEquals(b)
  {
    var i := if FirstEquals(a) < |a| then FirstEquals(a) else |a| + FirstEquals(b);
    assert forall j :: 0 <= j < i ==> (a + b)[j] == if j < |a| then a[j] else b[j - |a|];
    assert i < |a + b| ==> (a + b)[i] == if i < |a| then a[i] else b[i - |a|];
  }

  /** The spliced line never sets the first update's key. */
  lemma SplicedSetsAnother(last: string, s: Setting)
    requires NewlineFree(last) && last != "" && KeyShape(s.key) && NewlineFree(s.value)
    requires !StartsWith(last, s.key + "=")
    ensures ParseLine(last + FormatLine(s)).Some? ==> ParseLine(last + FormatLine(s)).value.key != s.key
  {
    var b := last + Assignment(s);
    var i := FirstEquals(last);
    SplicedIsWhole(last, s);
    AssignmentParts(s);
    FirstEqualsOfBoth(last, Assignment(s));
    if ParseLine(last + FormatLine(s)).Some? { ParsedKey(last + FormatLine(s), b); }
    if i < |last| {
      assert b[..i] == last[..i] && last[..i + 1] == last[..i] + "=";
    } else {
      assert FirstEquals(b) == |last| + |s.key| > |s.key|;
    }
  }

  lemma ParsedKey(l: string, b: string)
    requires Body(l) == b && ParseLine(l).Some?
    ensures ParseLine(l).value.key == b[..FirstEquals(b)]
  {
  }

  /** A line that ends in a quote. */
  lemma QuotedIsParsed(l: string, b: string, i: nat)
    requires Body(l) == b && FirstEquals(b) == i && i + 2 < |b|
    requires KeyShape(b[..i]) && b[i + 1] == '"' && b[|b| - 1] == '"'
    ensures ParseLine(l) == Some(Setting(b[..i], b[i + 2..|b| - 1]))
  {
    assert LastQuote(b) == |b| - 1 && b[|b|..] == "";
  }

  /** If the last line set a key, the spliced line sets the same key. */
  lemma SplicedSetsTheSame(last: string, s: Setting)
    requires NewlineFree(last) && KeyShape(s.key) && NewlineFree(s.value) && ParseLine(last).Some?
    ensures ParseLine(last + FormatLine(s)).Some?
    ensures ParseLine(last + FormatLine(s)).value.key == ParseLine(last).value.key
  {
    var b, a := last + Assignment(s), Assignment(s);
    var i := FirstEquals(last);
    assert Body(last) == last;
    SplicedIsWhole(last, s);
    FirstEqualsOfBoth(last, a);
    assert b[..i] == last[..i] && b[i + 1] == last[i + 1];
    assert b[|b| - 1] == a[|a| - 1] == '"';
    QuotedIsParsed(last + FormatLine(s), b, i);
  }

  /** The values read from a file after a write that is not clean. */
  lemma SplicedValues(text: string, u: seq<Setting>, defaults: map<string, string>)
    requires !Clean(text, u) && GoodUpdates(u)
    requires forall i :: 0 <= i < |u| ==> u[i].key in defaults
    ensures
      var before := Values(ParseLine, defaults, KeptBefore(text, u) + [SplicedLine(text, u[0])]);
      Values(ParseLine, defaults, Lines(Written(text, u))) == before + UpdateMap(u[1..])
  {
    SplicedLines(text, u);
    forall i | 0 <= i < |u[1..]|
      ensures ParseLine(FormatLine(u[1..][i])) == Some(u[1..][i]) && u[1..][i].key in defaults
    {
      assert u[1..][i] == u[i + 1];
      WriterFormIsParsed(u[i + 1]);
    }
    AppendedValues(ParseLine, FormatLine, defaults, KeptBefore(text, u) + [SplicedLine(text, u[0])], u[1..]);
  }

  /** write_conf as a map update, for every file: it is one exactly when the write is clean, or when by
    * coincidence the lost update is the default and the spliced line changes nothing. */
  lemma WriteIsAMapUpdateIff(text: string, u: seq<Setting>, defaults: map<string, string>)
    requires GoodUpdates(u) && Distinct(u) && forall i :: 0 <= i < |u| ==> u[i].key in defaults
    ensures
      var values := Values(ParseLine, defaults, Lines(text));
      Values(ParseLine, defaults, Lines(Written(text, u))) == values + UpdateMap(u)
      <==> Clean(text, u) || SplicedRight(defaults, values, u, ParseLine(SplicedLine(text, u[0])))
  {
    if Clean(text, u) {
      SettingsFileIsAMap(text, u, defaults);
    } else {
      UncleanWrite(text, u, defaults);
    }
  }

  lemma UncleanWrite(text: string, u: seq<Setting>, defaults: map<string, string>)
    requires !Clean(text, u)
    requires GoodUpdates(u) && Distinct(u) && forall i :: 0 <= i < |u| ==> u[i].key in defaults
    ensures
      var values := Values(ParseLine, defaults, Lines(text));
      var after := Values(ParseLine, defaults, Lines(Written(text, u)));
      && after[u[0].key] == defaults[u[0].key]
      && (after == values + UpdateMap(u)
          <==> SplicedRight(defaults, values, u, ParseLine(SplicedLine(text, u[0]))))
  {
    UnterminatedLines(text);
    var rest, last := Lines(text)[..|Lines(text)| - 1], LastLine(text);
    assert Lines(text) == rest + [last];
    RemovedAreUpdated(Lines(text), u);
    assert last in Lines(text) && u[0].key in Keys(u);
    SplicedSetsAnother(last, u[0]);
    if ParseLine(last).Some? { SplicedSetsTheSame(last, u[0]); }
    SplicedValues(text, u, defaults);
    SplicedMap(ParseLine, l => Removes(Keys(u), l), defaults, rest, last, SplicedLine(text, u[0]), u);
  }

  /** Why the file must end in a newline, or in a line that goes.  Otherwise the first update is lost:
    * its key reads as the default, and the written file is no map update unless that was its value. */
  lemma UnterminatedLineSwallowsTheUpdate(text: string, u: seq<Setting>, defaults: map<string, string>)
    requires !Clean(text, u)
    requires GoodUpdates(u) && Distinct(u) && forall i :: 0 <= i < |u| ==> u[i].key in defaults
    ensures
      var after := Values(ParseLine, defaults, Lines(Written(text, u)));
      && after[u[0].key] == defaults[u[0].key]
      && (u[0].value != defaults[u[0].key] ==> after != Values(ParseLine, defaults, Lines(text)) + UpdateMap(u))
  {
    UncleanWrite(text, u, defaults);
  }

  /** A value comes back exactly when it holds no line break and is not lost behind an unterminated line;
    * nothing else in it matters, quotes included. */
  lemma ValueComesBackIff(text: string, s: Setting, defaults: map<string, string>)
    requires KeyShape(s.key) && s.key in defaults && NewlineFree(defaults[s.key])
    ensures Values(ParseLine, defaults, Lines(Written(text, [s])))[s.key] == s.value
       <==> NewlineFree(s.value) && (Clean(text, [s]) || s.value == defaults[s.key])
  {
    if !NewlineFree(s.value) {
      ReadValuesAreNewlineFree(Written(text, [s]), s.key, defaults);
    } else if Clean(text, [s]) {
      SettingsFileIsAMap(text, [s], defaults);
      assert [s][..0] == [] && UpdateMap([s]) == UpdateMap([])[s.key := s.value];
    } else {
      UncleanWrite(text, [s], defaults);
    }
  }

  lemma ParsedIsNewlineFree(l: string)
    requires NewlineFree(Body(l)) && ParseLine(l).Some?
    ensures NewlineFree(ParseLine(l).value.value)
  {
  }

  lemma ReadValuesAreNewlineFree(text: string, k: string, defaults: map<string, string>)
    requires k in defaults && NewlineFree(defaults[k])
    ensures NewlineFree(Values(ParseLine, defaults, Lines(text))[k])
  {
    forall i | 0 <= i < |Lines(text)| && ParseLine(Lines(text)[i]).Some?
      ensures NewlineFree(ParseLine(Lines(text)[i]).value.value)
    {
      BodiesAreNewlineFree(text, i);
      ParsedIsNewlineFree(Lines(text)[i]);
    }
    ValuesAreNewlineFree(ParseLine, defaults, Lines(text), k);
  }

  // ------------------------------------------------------------------------ line by line

  /** A line that does not start with an updated key and '=' stays, in its place among the others; a line
    * that does goes. */
  lemma EachLineStaysOrGoes(text: string, u: seq<Setting>, i: nat)
    requires i < |Lines(text)|
    ensures
      var removed, lines := l => Removes(Keys(u), l), Lines(text);
      var goes := exists s :: s in u && StartsWith(lines[i], s.key + "=");
      KeptLines(text, u)
      == Kept(removed, lines[..i]) + (if goes then [] else [lines[i]]) + Kept(removed, lines[i + 1..])
  {
    var removed, lines := l => Removes(Keys(u), l), Lines(text);
    assert lines == lines[..i] + [lines[i]] + lines[i + 1..];
    KeptOfAppend(removed, lines[..i] + [lines[i]], lines[i + 1..]);
    KeptOfAppend(removed, lines[..i], [lines[i]]);
    assert [lines[i]][..0] == [];
    RemovesIff(u, lines[i]);
  }

  lemma RemovesIff(u: seq<Setting>, l: string)
    ensures Removes(Keys(u), l) <==> exists s :: s in u && StartsWith(l, s.key + "=")
  {
    if Removes(Keys(u), l) {
      var k :| k in Keys(u) && StartsWith(l, k + "=");
      var s :| s in u && s.key == k;
    }
    if s :| s in u && StartsWith(l, s.key + "=") {
      assert s.key in Keys(u);
    }
  }

  /** The appended lines are the updates, one each, in order. */
  lemma {:induction false} OneLineAnUpdate(u: seq<Setting>, i: nat)
    requires i < |u|
    ensures |FormatAll(FormatLine, u)| == |u|
    ensures FormatAll(FormatLine, u)[i] == u[i].key + "=\"" + u[i].value + "\"\n"
  {
    var n := |u| - 1;
    if n > 0 { OneLineAnUpdate(u[..n], if i < n then i else 0); }
  }
}
