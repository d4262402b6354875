/** The merge of two authorized_keys files: merge_keys of moonlight-backup, and the step of a restore
  * that calls it.  Files are text; awk reads records up to '\n' and fields between blanks.
  */
module KeyMerge {
  import opened Basics

  // --------------------------------------------------------------------- records and fields

  predicate Blank(c: char) {
    c == ' ' || c == '\t'
  }

  predicate Word(s: string) {
    s != "" && forall i :: 0 <= i < |s| ==> !Blank(s[i])
  }

  predicate OneLine(s: string) {
    forall i :: 0 <= i < |s| ==> s[i] != '\n'
  }

  function Records(text: string): seq<string> {
    if text == "" then []
    else if text[0] == '\n' then [""] + Records(text[1..])
    else Grown(text[0], Records(text[1..]))
  }

  /** What awk's print writes. */
  function Text(lines: seq<string>): string {
    if lines == [] then "" else lines[0] + "\n" + Text(lines[1..])
  }

  function WordEnd(s: string): (n: nat)
    ensures n <= |s| && (forall i :: 0 <= i < n ==> !Blank(s[i])) && (n < |s| ==> Blank(s[n]))
  {
    if s == "" || Blank(s[0]) then 0 else 1 + WordEnd(s[1..])
  }

  function Fields(s: string): (fs: seq<string>)
    ensures forall i :: 0 <= i < |fs| ==> fs[i] != ""
    decreases |s|
  {
    if s == "" then []
    else if Blank(s[0]) then Fields(s[1..])
    else [s[..WordEnd(s)]] + Fields(s[WordEnd(s)..])
  }

  lemma {:induction false} RecordFirst(l: string, more: string)
    requires OneLine(l)
    ensures Records(l + "\n" + more) == [l] + Records(more)
  {
    var text := l + "\n" + more;
    if l == "" {
      assert text == ['\n'] + more && text[1..] == more;
    } else {
      assert text[1..] == l[1..] + "\n" + more;
      RecordFirst(l[1..], more);
      assert [text[0]] + l[1..] == l;
    }
  }

  /** Reading what was printed, in front of anything. */
  lemma {:induction false} RecordsOfText(lines: seq<string>, more: string)
    requires forall l :: l in lines ==> OneLine(l)
    ensures Records(Text(lines) + more) == lines + Records(more)
  {
    if lines == [] {
      assert "" + more == more && [] + Records(more) == Records(more);
    } else {
      var l, tail := lines[0], lines[1..];
      Regroup(l + "\n", Text(tail), more);
      RecordFirst(l, Text(tail) + more);
      RecordsOfText(tail, more);
      assert lines == [l] + tail;
      Regroup([l], tail, Records(more));
    }
  }

  lemma {:induction false} RecordsAreLines(text: string)
    ensures forall i :: 0 <= i < |Records(text)| ==> OneLine(Records(text)[i])
    ensures Records(text) == [] <==> text == ""
  {
    if text != "" {
      RecordsAreLines(text[1..]);
      var rest := Records(text[1..]);
      if text[0] != '\n' && rest != [] {
        assert OneLine(rest[0]) && OneLine([text[0]] + rest[0]);
      }
    }
  }

  predicate Ended(text: string) {
    text == "" || text[|text| - 1] == '\n'
  }

  /** Two lists of records whose seam is one record. */
  function Spliced(a: seq<string>, b: seq<string>): seq<string>
    requires a != [] && b != []
  {
    a[..|a| - 1] + [a[|a| - 1] + b[0]] + b[1..]
  }

  function Catted(ended: bool, a: seq<string>, b: seq<string>): seq<string>
    requires b != []
  {
    if ended || a == [] then a + b else Spliced(a, b)
  }

  lemma GrownSplice(c: char, a: seq<string>, b: seq<string>)
    requires a != [] && b != []
    ensures Grown(c, Spliced(a, b)) == Spliced(Grown(c, a), b)
  {
    var x, rest := [c] + a[0], a[1..];
    assert Grown(c, a) == [x] + rest;
    if rest == [] {
      assert [c] + (a[0] + b[0]) == x + b[0];
      assert Spliced(a, b) == [a[0] + b[0]] + b[1..] && Spliced([x] + rest, b) == [x + b[0]] + b[1..];
    } else {
      assert Spliced(a, b) == [a[0]] + Spliced(rest, b);
      assert Spliced([x] + rest, b) == [x] + Spliced(rest, b);
    }
  }

  lemma GrownAppend(c: char, a: seq<string>, b: seq<string>)
    requires a != []
    ensures Grown(c, a + b) == Grown(c, a) + b
  {
    var x := [c] + a[0];
    assert (a + b)[0] == a[0] && (a + b)[1..] == a[1..] + b;
    assert Grown(c, a + b) == [x] + (a[1..] + b) == [x] + a[1..] + b;
  }

  lemma GrownCat(c: char, ended: bool, a: seq<string>, b: seq<string>)
    requires a != [] && b != []
    ensures Grown(c, Catted(ended, a, b)) == Catted(ended, Grown(c, a), b)
  {
    if ended { GrownAppend(c, a, b); } else { GrownSplice(c, a, b); }
  }

  lemma EmptyLineCat(ended: bool, a: seq<string>, b: seq<string>)
    requires b != [] && (a == [] ==> ended)
    ensures [""] + Catted(ended, a, b) == Catted(ended, [""] + a, b)
  {
    if ended {
      Regroup([""], a, b);
    } else {
      assert ([""] + a)[..|a|] == [""] + a[..|a| - 1];
    }
  }

  /** `cat` puts two files' records one after the other when the first file ends in a newline;
    * otherwise its last record swallows the first record of the second. */
  lemma {:induction false} RecordsOfBoth(a: string, b: string)
    requires Records(b) != []
    ensures Records(a + b) == Catted(Ended(a), Records(a), Records(b))
  {
    if a == "" {
      assert a + b == b && [] + Records(b) == Records(b);
    } else if |a| == 1 {
      OneCharacterCat(a[0], b);
      assert a == [a[0]];
    } else {
      var c, tail := a[0], a[1..];
      FirstOfBoth(a, b);
      RecordsOfBoth(tail, b);
      RecordsAreLines(tail);
      assert Ended(a) == Ended(tail);
      if c == '\n' {
        EmptyLineCat(Ended(tail), Records(tail), Records(b));
      } else {
        GrownCat(c, Ended(tail), Records(tail), Records(b));
      }
    }
  }

  lemma FirstOfBoth(a: string, b: string)
    requires a != ""
    ensures (a + b)[0] == a[0] && (a + b)[1..] == a[1..] + b
  {
  }

  lemma OneCharacterCat(c: char, b: string)
    requires Records(b) != []
    ensures Records([c] + b) == Catted(Ended([c]), Records([c]), Records(b))
  {
    assert ([c] + b)[1..] == b && [c][1..] == "";
    assert Records([c]) == if c == '\n' then [""] else [[c]];
  }

  lemma {:induction false} WordEndOfWord(w: string, rest: string)
    requires (forall i :: 0 <= i < |w| ==> !Blank(w[i])) && (rest == "" || Blank(rest[0]))
    ensures WordEnd(w + rest) == |w|
  {
    if w == "" {
      assert w + rest == rest;
    } else {
      assert (w + rest)[1..] == w[1..] + rest;
      WordEndOfWord(w[1..], rest);
    }
  }

  lemma FirstWord(w: string, rest: string)
    requires Word(w) && (rest == "" || Blank(rest[0]))
    ensures Fields(w + rest) == [w] + Fields(rest)
  {
    WordEndOfWord(w, rest);
    assert (w + rest)[..|w|] == w && (w + rest)[|w|..] == rest;
  }

  lemma {:induction false} FieldsOfBoth(a: string, b: string)
    requires b == "" || Blank(b[0])
    ensures Fields(a + b) == Fields(a) + Fields(b)
    decreases |a|
  {
    if a == "" {
      assert a + b == b;
    } else if Blank(a[0]) {
      assert (a + b)[1..] == a[1..] + b;
      FieldsOfBoth(a[1..], b);
    } else {
      var w, rest := a[..WordEnd(a)], a[WordEnd(a)..];
      FieldsOfBoth(rest, b);
      assert a == w + rest;
      Regroup(w, rest, b);
      FirstWord(w, rest + b);
      Regroup([w], Fields(rest), Fields(b));
    }
  }

  lemma FieldsOfWord(w: string)
    requires Word(w)
    ensures Fields(w) == [w]
  {
    FirstWord(w, "");
    assert w + "" == w;
  }

  // ------------------------------------------------------------------- the first of each mark

  function Known<K>(k: Option<K>): set<K> {
    match k case Some(x) => {x} case None => {}
  }

  function Marks<L, K(==)>(mark: L -> Option<K>, lines: seq<L>): set<K> {
    if lines == [] then {} else Marks(mark, lines[..|lines| - 1]) + Known(mark(lines[|lines| - 1]))
  }

  predicate Fresh<L, K(==)>(mark: L -> Option<K>, before: seq<L>, l: L) {
    mark(l).Some? && mark(l).value !in Marks(mark, before)
  }

  /** Every line whose mark has not come before. */
  function FirstOfEach<L, K(==)>(mark: L -> Option<K>, lines: seq<L>): seq<L> {
    if lines == [] then []
    else
      var before, l := lines[..|lines| - 1], lines[|lines| - 1];
      FirstOfEach(mark, before) + (if Fresh(mark, before, l) then [l] else [])
  }

  lemma OneMoreLine<L, K>(mark: L -> Option<K>, before: seq<L>, l: L)
    ensures Marks(mark, before + [l]) == Marks(mark, before) + Known(mark(l))
    ensures FirstOfEach(mark, before + [l]) ==
      if Fresh(mark, before, l) then FirstOfEach(mark, before) + [l] else FirstOfEach(mark, before)
  {
    assert (before + [l])[..|before|] == before;
  }

  lemma {:induction false} NothingMadeUp<L, K>(mark: L -> Option<K>, lines: seq<L>)
    ensures forall i :: 0 <= i < |FirstOfEach(mark, lines)| ==> FirstOfEach(mark, lines)[i] in lines
  {
    if lines != [] {
      NothingMadeUp(mark, lines[..|lines| - 1]);
    }
  }

  lemma UpToLine<L, K>(mark: L -> Option<K>, lines: seq<L>, i: nat)
    requires i < |lines|
    ensures
      var before, l := lines[..i], lines[i];
      && Marks(mark, lines[..i + 1]) == Marks(mark, before) + Known(mark(l))
      && FirstOfEach(mark, lines[..i + 1])
         == if Fresh(mark, before, l) then FirstOfEach(mark, before) + [l] else FirstOfEach(mark, before)
  {
    assert lines[..i + 1] == lines[..i] + [lines[i]];
    OneMoreLine(mark, lines[..i], lines[i]);
  }

  /** The loop: print a line unless its mark has been seen. */
  method KeepFirst<L, K(==)>(mark: L -> Option<K>, lines: seq<L>) returns (out: seq<L>)
    ensures out == FirstOfEach(mark, lines)
  {
    out := [];
    var seen: set<K> := {};
    for i := 0 to |lines|
      invariant out == FirstOfEach(mark, lines[..i]) && seen == Marks(mark, lines[..i])
    {
      UpToLine(mark, lines, i);
      var k := mark(lines[i]);
      if k.Some? {
        if k.value !in seen { out := out + [lines[i]]; }
        seen := seen + {k.value};
      }
    }
    assert lines[..|lines|] == lines;
  }

  /** No mark is lost and none comes twice. */
  lemma {:induction false} EachMarkOnce<L, K>(mark: L -> Option<K>, lines: seq<L>)
    ensures Marks(mark, FirstOfEach(mark, lines)) == Marks(mark, lines)
    ensures |FirstOfEach(mark, lines)| == |Marks(mark, lines)|
  {
    if lines != [] {
      var before, l := lines[..|lines| - 1], lines[|lines| - 1];
      EachMarkOnce(mark, before);
      assert lines == before + [l];
      OneMoreLine(mark, before, l);
      OneMoreLine(mark, FirstOfEach(mark, before), l);
    }
  }

  ghost predicate IsFirst<L, K>(mark: L -> Option<K>, lines: seq<L>, i: nat) {
    i < |lines| && mark(lines[i]).Some? && forall j :: 0 <= j < i ==> mark(lines[j]) != mark(lines[i])
  }

  lemma {:induction false} MarksAreOfLines<L, K>(mark: L -> Option<K>, lines: seq<L>, k: K)
    ensures k in Marks(mark, lines) <==> exists j :: 0 <= j < |lines| && mark(lines[j]) == Some(k)
  {
    if lines != [] {
      var before := lines[..|lines| - 1];
      MarksAreOfLines(mark, before, k);
      if k in Marks(mark, before) {
        var j :| 0 <= j < |before| && mark(before[j]) == Some(k);
        assert mark(lines[j]) == Some(k);
      }
      if j :| 0 <= j < |before| && mark(lines[j]) == Some(k) {
        assert mark(before[j]) == Some(k);
      }
    }
  }

  /** A line is kept if and only if it is the first with its mark. */
  lemma {:induction false} KeptIffFirst<L, K>(mark: L -> Option<K>, lines: seq<L>, l: L)
    ensures l in FirstOfEach(mark, lines) <==> exists i :: 0 <= i < |lines| && lines[i] == l && IsFirst(mark, lines, i)
  {
    if lines != [] {
      var n := |lines| - 1;
      var before := lines[..n];
      KeptIffFirst(mark, before, l);
      assert forall i :: 0 <= i < n ==> (IsFirst(mark, before, i) <==> IsFirst(mark, lines, i));
      assert IsFirst(mark, lines, n) <==> Fresh(mark, before, lines[n]) by {
        if mark(lines[n]).Some? {
          MarksAreOfLines(mark, before, mark(lines[n]).value);
        }
      }
      if l in FirstOfEach(mark, before) {
        var i :| 0 <= i < n && before[i] == l && IsFirst(mark, before, i);
        assert lines[i] == l && IsFirst(mark, lines, i);
      }
      if i :| 0 <= i < n && lines[i] == l && IsFirst(mark, lines, i) {
        assert before[i] == l && IsFirst(mark, before, i);
      }
    }
  }

  lemma {:induction false} MarksOfBoth<L, K>(mark: L -> Option<K>, a: seq<L>, b: seq<L>)
    ensures Marks(mark, a + b) == Marks(mark, a) + Marks(mark, b)
  {
    if b == [] {
      assert a + b == a;
    } else {
      assert (a + b)[..|a + b| - 1] == a + b[..|b| - 1];
      MarksOfBoth(mark, a, b[..|b| - 1]);
    }
  }

  lemma {:induction false} NothingNew<L, K>(mark: L -> Option<K>, kept: seq<L>, more: seq<L>)
    requires Marks(mark, more) <= Marks(mark, kept)
    ensures FirstOfEach(mark, kept + more) == FirstOfEach(mark, kept)
  {
    if more == [] {
      assert kept + more == kept;
    } else {
      var before := more[..|more| - 1];
      assert (kept + more)[..|kept + more| - 1] == kept + before;
      MarksOfBoth(mark, kept, before);
      NothingNew(mark, kept, before);
    }
  }

  /** What was kept is kept again. */
  lemma {:induction false} KeptOnce<L, K>(mark: L -> Option<K>, lines: seq<L>)
    ensures FirstOfEach(mark, FirstOfEach(mark, lines)) == FirstOfEach(mark, lines)
  {
    if lines != [] {
      var before, l := lines[..|lines| - 1], lines[|lines| - 1];
      KeptOnce(mark, before);
      EachMarkOnce(mark, before);
      assert lines == before + [l];
      OneMoreLine(mark, before, l);
      OneMoreLine(mark, FirstOfEach(mark, before), l);
    }
  }

  function Each<L, M>(f: L -> M, s: seq<L>): seq<M> {
    seq(|s|, i requires 0 <= i < |s| => f(s[i]))
  }

  /** Marking printed entries is marking the entries. */
  lemma {:induction false} KeptEach<L, M, K>(f: L -> M, mark: M -> Option<K>, entryMark: L -> Option<K>, s: seq<L>)
    requires forall i :: 0 <= i < |s| ==> mark(f(s[i])) == entryMark(s[i])
    ensures FirstOfEach(mark, Each(f, s)) == Each(f, FirstOfEach(entryMark, s))
    ensures Marks(mark, Each(f, s)) == Marks(entryMark, s)
  {
    if s != [] {
      var before, l := s[..|s| - 1], s[|s| - 1];
      KeptEach(f, mark, entryMark, before);
      assert Each(f, s) == Each(f, before) + [f(l)];
      OneMoreLine(mark, Each(f, before), f(l));
    }
  }

  // --------------------------------------------------------------------------- the awk loop

  /** What a line is compared by: its second field, or the whole line when it has only one; comments
    * and blank lines have none. */
  function Mark(line: string): Option<string> {
    var f := Fields(line);
    if f == [] || f[0][0] == '#' then None else Some(if |f| > 1 then f[1] else line)
  }

  method MergeKeys(shipped: string, archived: string) returns (out: seq<string>)
    ensures out == FirstOfEach(Mark, Records(shipped + archived))
  {
    out := KeepFirst(Mark, Records(shipped + archived));
  }

  function Restored(shipped: string, archived: string): string {
    var merged := FirstOfEach(Mark, Records(shipped + archived));
    if shipped == "" || merged == [] then archived else Text(merged)
  }

  /** The file after a restore: `archived` is what the archive put in place of `shipped`.  An empty
    * shipped file or an empty merge leaves it alone. */
  method RestoreKeys(shipped: string, archived: string) returns (keys: string)
    ensures keys == Restored(shipped, archived)
  {
    keys := archived;
    if shipped != "" {
      var merged := MergeKeys(shipped, archived);
      if merged != [] { keys := Text(merged); }
    }
  }

  predicate AllBlank(s: string) {
    forall i :: 0 <= i < |s| ==> s[i] == ' ' || s[i] == '\t'
  }

  lemma {:induction false} FieldsAfterBlanks(b: string, s: string)
    requires AllBlank(b)
    ensures Fields(b + s) == Fields(s)
  {
    if b == "" {
      assert b + s == s;
    } else {
      assert (b + s)[1..] == b[1..] + s;
      FieldsAfterBlanks(b[1..], s);
    }
  }

  /** Which lines the merge passes over: blank ones, and those whose first other character is '#'. */
  lemma BlankAndCommentLines(b: string, s: string)
    requires AllBlank(b) && (s == "" || !Blank(s[0]))
    ensures Mark(b + s).None? <==> s == "" || s[0] == '#'
  {
    FieldsAfterBlanks(b, s);
    if s != "" { assert Fields(s)[0][0] == s[0]; }
  }

  /** A line of one word is compared as a whole, any other by its second word. */
  lemma WhatLinesAreComparedBy(b: string, w: string, gap: string, v: string, rest: string)
    requires AllBlank(b) && AllBlank(gap) && Word(w) && w[0] != '#'
    requires gap != "" && Word(v) && (rest == "" || Blank(rest[0]))
    ensures Mark(b + (w + gap)) == Some(b + (w + gap))
    ensures Mark(b + (w + (gap + (v + rest)))) == Some(v)
  {
    FieldsAfterBlanks(b, w + gap);
    FirstWord(w, gap);
    FieldsAfterBlanks(gap, "");
    assert gap + "" == gap;
    FieldsAfterBlanks(b, w + (gap + (v + rest)));
    FirstWord(w, gap + (v + rest));
    FieldsAfterBlanks(gap, v + rest);
    FirstWord(v, rest);
  }

  /** Nothing shipped, or nothing to print: the archived file stays as it is. */
  lemma NothingToMerge(shipped: string, archived: string)
    requires shipped == "" || Marks(Mark, Records(shipped + archived)) == {}
    ensures Restored(shipped, archived) == archived
  {
    EachMarkOnce(Mark, Records(shipped + archived));
  }

  lemma BothFiles(a: string, b: string)
    requires Ended(a)
    ensures Records(a + b) == Records(a) + Records(b)
  {
    RecordsAreLines(b);
    if b == "" {
      assert a + b == a;
    } else {
      RecordsOfBoth(a, b);
    }
  }

  /** What the lines of a file are compared by. */
  function Compared(text: string): set<string> {
    Marks(Mark, Records(text))
  }

  /** The restored file as lines. */
  lemma RestoredLines(shipped: string, archived: string)
    requires shipped != "" && FirstOfEach(Mark, Records(shipped + archived)) != []
    ensures
      var kept := FirstOfEach(Mark, Records(shipped + archived));
      forall more :: Records(Restored(shipped, archived) + more) == kept + Records(more)
    ensures Records(Restored(shipped, archived)) == FirstOfEach(Mark, Records(shipped + archived))
  {
    var lines := Records(shipped + archived);
    var kept := FirstOfEach(Mark, lines);
    RecordsAreLines(shipped + archived);
    NothingMadeUp(Mark, lines);
    forall more
      ensures Records(Text(kept) + more) == kept + Records(more)
    {
      RecordsOfText(kept, more);
    }
    assert Text(kept) + "" == Text(kept) && kept + Records("") == kept;
  }

  /** A shipped file that ends in a newline: whatever lines of either file are compared by, the restored
    * file has a line for it, and one only. */
  lemma RestoredKeepsEveryMark(shipped: string, archived: string)
    requires Ended(shipped) && shipped != "" && Compared(shipped) + Compared(archived) != {}
    ensures Compared(Restored(shipped, archived)) == Compared(shipped) + Compared(archived)
    ensures |Records(Restored(shipped, archived))| == |Compared(Restored(shipped, archived))|
  {
    var lines := Records(shipped + archived);
    BothFiles(shipped, archived);
    MarksOfBoth(Mark, Records(shipped), Records(archived));
    EachMarkOnce(Mark, lines);
    RestoredLines(shipped, archived);
  }

  /** Restoring the same archive again changes nothing then. */
  lemma RestoringAgainChangesNothing(shipped: string, archived: string)
    requires Ended(shipped) && shipped != "" && Compared(shipped) + Compared(archived) != {}
    ensures Restored(Restored(shipped, archived), archived) == Restored(shipped, archived)
  {
    var lines := Records(shipped + archived);
    BothFiles(shipped, archived);
    MarksOfBoth(Mark, Records(shipped), Records(archived));
    EachMarkOnce(Mark, lines);
    RestoredLines(shipped, archived);
    NothingNew(Mark, FirstOfEach(Mark, lines), Records(archived));
    KeptOnce(Mark, lines);
  }

  // ------------------------------------------------------------- what this means for the keys

  /** One authorised key.  `options` may be empty; `rest` is what follows the material, as a rule a blank
    * and a comment, and may be empty too. */
  datatype Authorised = Authorised(options: string, kind: string, material: string, rest: string) {
    predicate WellFormed() {
      && Word(kind) && Word(material)
      && OneLine(options) && OneLine(kind) && OneLine(material) && OneLine(rest)
      && (options == "" || !Blank(options[0])) && (rest == "" || Blank(rest[0]))
      && (options + kind)[0] != '#'
    }

    function Tail(): string {
      " " + material + rest
    }

    function Line(): string {
      (if options == "" then "" else options + " ") + kind + Tail()
    }

    /** What the merge compares the key by. */
    function ComparedBy(): string {
      if options == "" then material
      else if |Fields(options)| > 1 then Fields(options)[1]
      else kind
    }
  }

  predicate AllWellFormed(ks: seq<Authorised>) {
    forall i :: 0 <= i < |ks| ==> ks[i].WellFormed()
  }

  function Printed(k: Authorised): string {
    k.Line()
  }

  function LinesOf(ks: seq<Authorised>): seq<string> {
    Each(Printed, ks)
  }

  lemma FieldsOfTail(k: Authorised)
    requires k.WellFormed()
    ensures |Fields(k.Tail())| >= 1 && Fields(k.Tail())[0] == k.material
  {
    assert k.Tail() == " " + (k.material + k.rest) && k.Tail()[1..] == k.material + k.rest;
    FieldsOfBoth(k.material, k.rest);
    FieldsOfWord(k.material);
  }

  lemma FieldsOfBare(k: Authorised)
    requires k.WellFormed()
    ensures
      var fs := Fields(k.kind + k.Tail());
      |fs| >= 2 && fs[0] == k.kind && fs[1] == k.material
  {
    FieldsOfTail(k);
    FieldsOfBoth(k.kind, k.Tail());
    FieldsOfWord(k.kind);
  }

  lemma FieldsAfterOptions(options: string, bare: string)
    requires options != "" && !Blank(options[0])
    ensures Fields(options + " " + bare) == Fields(options) + Fields(bare)
    ensures |Fields(options)| >= 1 && Fields(options)[0][0] == options[0]
  {
    var rest := " " + bare;
    assert rest[1..] == bare;
    assert options + " " + bare == options + rest;
    FieldsOfBoth(options, rest);
  }

  lemma MarkByFields(line: string, fs: seq<string>)
    requires Fields(line) == fs && |fs| >= 2 && fs[0] != "" && fs[0][0] != '#'
    ensures Mark(line) == Some(fs[1])
  {
  }

  /** The merge compares a key without options by its material, and a key with options by the second
    * word of the options, or by its kind when the options are one word. */
  lemma MarkOfKey(k: Authorised)
    requires k.WellFormed()
    ensures Mark(k.Line()) == Some(k.ComparedBy())
  {
    var bare := k.kind + k.Tail();
    FieldsOfBare(k);
    if k.options == "" {
      assert "" + k.kind == k.kind;
      MarkByFields(k.Line(), Fields(bare));
    } else {
      assert k.Line() == k.options + " " + bare;
      assert (k.options + k.kind)[0] == k.options[0];
      FieldsAfterOptions(k.options, bare);
      MarkByFields(k.Line(), Fields(k.options) + Fields(bare));
    }
  }

  function ByWord(k: Authorised): Option<string> {
    Some(k.ComparedBy())
  }

  function File(ks: seq<Authorised>): string {
    Text(LinesOf(ks))
  }

  lemma LineIsOneLine(k: Authorised)
    requires k.WellFormed()
    ensures OneLine(k.Line())
  {
    assert OneLine(k.Tail());
  }

  lemma LinesAreOneLine(ks: seq<Authorised>)
    requires AllWellFormed(ks)
    ensures forall l :: l in LinesOf(ks) ==> OneLine(l)
  {
    forall i | 0 <= i < |ks|
      ensures OneLine(LinesOf(ks)[i])
    {
      LineIsOneLine(ks[i]);
      assert LinesOf(ks)[i] == Printed(ks[i]) == ks[i].Line();
    }
  }

  lemma RecordsOfFile(ks: seq<Authorised>, more: string)
    requires AllWellFormed(ks)
    ensures Records(File(ks) + more) == LinesOf(ks) + Records(more)
  {
    LinesAreOneLine(ks);
    RecordsOfText(LinesOf(ks), more);
  }

  lemma RecordsOfOneFile(ks: seq<Authorised>)
    requires AllWellFormed(ks)
    ensures Records(File(ks)) == LinesOf(ks)
  {
    RecordsOfFile(ks, "");
    assert File(ks) + "" == File(ks);
  }

  lemma RecordsOfFiles(a: seq<Authorised>, b: seq<Authorised>)
    requires AllWellFormed(a) && AllWellFormed(b)
    ensures Records(File(a) + File(b)) == LinesOf(a + b)
  {
    RecordsOfFile(a, File(b));
    RecordsOfOneFile(b);
  }

  lemma KeptLines(ks: seq<Authorised>)
    requires AllWellFormed(ks)
    ensures FirstOfEach(Mark, LinesOf(ks)) == LinesOf(FirstOfEach(ByWord, ks))
    ensures Marks(Mark, LinesOf(ks)) == Marks(ByWord, ks)
  {
    forall i | 0 <= i < |ks|
      ensures Mark(Printed(ks[i])) == ByWord(ks[i])
    {
      MarkOfKey(ks[i]);
    }
    KeptEach(Printed, Mark, ByWord, ks);
  }

  /** When the two files together read as these keys. */
  lemma RestoredWhen(shipped: string, archived: string, ks: seq<Authorised>)
    requires shipped != "" && ks != [] && AllWellFormed(ks) && Records(shipped + archived) == LinesOf(ks)
    ensures Restored(shipped, archived) == File(FirstOfEach(ByWord, ks))
  {
    KeptLines(ks);
    EachMarkOnce(ByWord, ks);
    assert ByWord(ks[0]) == Some(ks[0].ComparedBy());
    MarksAreOfLines(ByWord, ks, ks[0].ComparedBy());
  }

  /** The restored file lists the shipped keys and then the archived ones, each unless an earlier key
    * compares equal. */
  lemma RestoredKeys(a: seq<Authorised>, b: seq<Authorised>)
    requires a != [] && AllWellFormed(a) && AllWellFormed(b)
    ensures Restored(File(a), File(b)) == File(FirstOfEach(ByWord, a + b))
  {
    RecordsOfFiles(a, b);
    RestoredWhen(File(a), File(b), a + b);
  }

  ghost predicate SameWord(ks: seq<Authorised>, i: nat, j: nat)
    requires i < |ks| && j < |ks|
  {
    ks[i].ComparedBy() == ks[j].ComparedBy()
  }

  ghost predicate NoSameWord(ks: seq<Authorised>) {
    forall i, j :: 0 <= i < j < |ks| ==> !SameWord(ks, i, j)
  }

  lemma OneMoreWord(before: seq<Authorised>, k: Authorised)
    ensures NoSameWord(before + [k]) <==> NoSameWord(before) && Fresh(ByWord, before, k)
  {
    var ks, n := before + [k], |before|;
    MarksAreOfLines(ByWord, before, k.ComparedBy());
    assert forall i, j :: 0 <= i < j < n ==> SameWord(before, i, j) == SameWord(ks, i, j);
    assert forall i :: 0 <= i < n ==> (SameWord(ks, i, n) <==> ByWord(before[i]) == Some(k.ComparedBy()));
  }

  lemma {:induction false} AllKeptIffDistinct(ks: seq<Authorised>)
    ensures FirstOfEach(ByWord, ks) == ks <==> NoSameWord(ks)
  {
    if ks != [] {
      var before, k := ks[..|ks| - 1], ks[|ks| - 1];
      AllKeptIffDistinct(before);
      assert ks == before + [k];
      OneMoreWord(before, k);
      FullIsWhole(ByWord, before);
    }
  }

  /** The shipped file, with or without its final newline. */
  function ShippedFile(a: seq<Authorised>, ended: bool): string
    requires a != []
  {
    if ended then File(a) else File(a[..|a| - 1]) + a[|a| - 1].Line()
  }

  lemma {:induction false} RecordOfLine(l: string)
    requires OneLine(l) && l != ""
    ensures Records(l) == [l]
  {
    if |l| > 1 {
      RecordOfLine(l[1..]);
      assert [l[1..]][1..] == [] && [l[0]] + l[1..] == l;
    } else {
      assert l[1..] == "" && [l[0]] == l;
    }
  }

  lemma RecordsOfShipped(a: seq<Authorised>, ended: bool)
    requires a != [] && AllWellFormed(a)
    ensures Records(ShippedFile(a, ended)) == LinesOf(a) && ShippedFile(a, ended) != ""
    ensures !ended ==> !Ended(ShippedFile(a, ended))
  {
    var n := |a| - 1;
    var last := a[n].Line();
    RecordsOfOneFile(a);
    LineIsOneLine(a[n]);
    RecordOfLine(last);
    RecordsOfFile(a[..n], last);
    assert a == a[..n] + [a[n]] && LinesOf([a[n]]) == [Printed(a[n])];
    assert LinesOf(a) == LinesOf(a[..n]) + LinesOf([a[n]]);
    assert (File(a[..n]) + last)[|File(a[..n]) + last| - 1] == last[|last| - 1];
  }

  /** Every line of both files is kept exactly when the shipped file ends in a newline, or nothing follows
    * it, and no two keys compare equal. */
  lemma EveryLineKeptIff(a: seq<Authorised>, b: seq<Authorised>, ended: bool)
    requires a != [] && AllWellFormed(a) && AllWellFormed(b)
    ensures Records(Restored(ShippedFile(a, ended), File(b))) == LinesOf(a + b)
       <==> (ended || b == []) && NoSameWord(a + b)
  {
    if ended || b == [] {
      RestoredRead(a, b, ended);
      SurvivesWhenSeparate(a + b);
    } else {
      UnendedFileLosesALine(a, b);
    }
  }

  lemma SurvivesWhenSeparate(ks: seq<Authorised>)
    requires AllWellFormed(ks)
    ensures Records(File(FirstOfEach(ByWord, ks))) == LinesOf(ks) <==> NoSameWord(ks)
  {
    var kept := FirstOfEach(ByWord, ks);
    AllKeptIffDistinct(ks);
    KeptAreWellFormed(ks);
    RecordsOfOneFile(kept);
    if LinesOf(kept) == LinesOf(ks) {
      assert |kept| == |LinesOf(kept)| == |ks|;
      FullIsWhole(ByWord, ks);
    }
  }

  /** Two files run together have a line too few for all their keys. */
  lemma UnendedFileLosesALine(a: seq<Authorised>, b: seq<Authorised>)
    requires a != [] && b != [] && AllWellFormed(a) && AllWellFormed(b)
    ensures |Records(Restored(ShippedFile(a, false), File(b)))| < |a + b|
  {
    var shipped := ShippedFile(a, false);
    var lines := Records(shipped + File(b));
    RecordsOfShipped(a, false);
    RecordsOfOneFile(b);
    RecordsOfBoth(shipped, File(b));
    assert |lines| == |a| + |b| - 1;
    FullIsWhole(Mark, lines);
    if FirstOfEach(Mark, lines) != [] {
      RestoredLines(shipped, File(b));
    }
  }

  lemma KeptAreWellFormed(ks: seq<Authorised>)
    requires AllWellFormed(ks)
    ensures AllWellFormed(FirstOfEach(ByWord, ks))
  {
    NothingMadeUp(ByWord, ks);
  }

  lemma {:induction false} FullIsWhole<L, K>(mark: L -> Option<K>, lines: seq<L>)
    ensures |FirstOfEach(mark, lines)| <= |lines|
    ensures |FirstOfEach(mark, lines)| == |lines| ==> FirstOfEach(mark, lines) == lines
  {
    if lines != [] {
      FullIsWhole(mark, lines[..|lines| - 1]);
      assert lines == lines[..|lines| - 1] + [lines[|lines| - 1]];
    }
  }

  function Materials(ks: seq<Authorised>): set<string> {
    set k | k in ks :: k.material
  }

  /** Keys without options: the restored file has every key of both files, each once. */
  lemma BareKeysSurvive(a: seq<Authorised>, b: seq<Authorised>)
    requires a != [] && AllWellFormed(a) && AllWellFormed(b)
    requires forall k :: k in a + b ==> k.options == ""
    ensures
      var kept := FirstOfEach(ByWord, a + b);
      && Restored(File(a), File(b)) == File(kept)
      && Materials(kept) == Materials(a) + Materials(b)
      && |kept| == |Materials(kept)|
  {
    RestoredKeys(a, b);
    BareKeptMaterials(a + b);
    MaterialsOfBoth(a, b);
  }

  lemma MaterialsOfBoth(a: seq<Authorised>, b: seq<Authorised>)
    ensures Materials(a + b) == Materials(a) + Materials(b)
  {
  }

  lemma BareKeptMaterials(ks: seq<Authorised>)
    requires forall i :: 0 <= i < |ks| ==> ks[i].options == ""
    ensures
      var kept := FirstOfEach(ByWord, ks);
      Materials(kept) == Materials(ks) && |kept| == |Materials(kept)|
  {
    var kept := FirstOfEach(ByWord, ks);
    EachMarkOnce(ByWord, ks);
    NothingMadeUp(ByWord, ks);
    forall i | 0 <= i < |kept|
      ensures kept[i].options == ""
    {
      assert kept[i] in ks;
    }
    BareMarks(ks);
    BareMarks(kept);
  }

  lemma {:induction false} BareMarks(ks: seq<Authorised>)
    requires forall i :: 0 <= i < |ks| ==> ks[i].options == ""
    ensures Marks(ByWord, ks) == Materials(ks)
  {
    if ks != [] {
      var before, k := ks[..|ks| - 1], ks[|ks| - 1];
      BareMarks(before);
      assert ks == before + [k];
      assert Materials(ks) == Materials(before) + {k.material};
    }
  }

  /** Of two keys of one kind, each with one word of options, the archived one is lost. */
  lemma SecondRestrictedKeyIsLost(x: Authorised, y: Authorised)
    requires x.WellFormed() && y.WellFormed() && Word(x.options) && Word(y.options) && x.kind == y.kind
    ensures Restored(File([x]), File([y])) == File([x])
  {
    FieldsOfWord(x.options);
    FieldsOfWord(y.options);
    RestoredKeys([x], [y]);
    assert [x] + [y] == [x, y];
    OneMoreLine(ByWord, [], x);
    OneMoreLine(ByWord, [x], y);
  }

  function FirstWordOf(k: Authorised): string {
    k.Line()[..WordEnd(k.Line())]
  }

  /** Two keys on one line are one key: the first word of y joins x's material, or all of y joins the rest
    * of x's line. */
  function JoinedKey(x: Authorised, y: Authorised): Authorised {
    if x.rest == "" then
      x.(material := x.material + FirstWordOf(y), rest := y.Line()[WordEnd(y.Line())..])
    else x.(rest := x.rest + y.Line())
  }

  lemma FirstWordIsWord(k: Authorised)
    requires k.WellFormed()
    ensures Word(FirstWordOf(k)) && OneLine(FirstWordOf(k)) && OneLine(k.Line()[WordEnd(k.Line())..])
    ensures k.options == "" ==> FirstWordOf(k) == k.kind
  {
    LineIsOneLine(k);
    if k.options == "" {
      assert k.Line() == k.kind + k.Tail();
      WordEndOfWord(k.kind, k.Tail());
    } else {
      assert k.Line()[0] == k.options[0];
    }
  }

  lemma JoinedTail(x: Authorised, y: Authorised)
    requires x.WellFormed() && y.WellFormed()
    ensures JoinedKey(x, y).WellFormed() && JoinedKey(x, y).Tail() == x.Tail() + y.Line()
  {
    FirstWordIsWord(y);
    LineIsOneLine(y);
    if x.rest == "" {
      var w, more := FirstWordOf(y), y.Line()[WordEnd(y.Line())..];
      assert y.Line() == w + more && x.Tail() == " " + x.material;
      Regroup(" ", x.material, w);
      Regroup(" " + x.material, w, more);
    } else {
      Regroup(" " + x.material, x.rest, y.Line());
    }
  }

  lemma JoinedIsOneLine(x: Authorised, y: Authorised)
    requires x.WellFormed() && y.WellFormed()
    ensures JoinedKey(x, y).WellFormed() && JoinedKey(x, y).Line() == x.Line() + y.Line()
  {
    JoinedTail(x, y);
    Regroup((if x.options == "" then "" else x.options + " ") + x.kind, x.Tail(), y.Line());
  }

  lemma FileOfFirst(k: Authorised, b: seq<Authorised>)
    ensures File([k] + b) == k.Line() + ("\n" + File(b))
  {
    assert LinesOf([k] + b)[0] == Printed(k) && LinesOf([k] + b)[1..] == LinesOf(b);
    Regroup(k.Line(), "\n", File(b));
  }

  /** A shipped file without its final newline, whatever else is in both: its last key x and the first
    * archived key y become one line, which is compared, kept and read as one key. */
  lemma UnendedFileJoinsTwoKeys(a: seq<Authorised>, x: Authorised, y: Authorised, b: seq<Authorised>)
    requires AllWellFormed(a) && x.WellFormed() && y.WellFormed() && AllWellFormed(b)
    ensures Restored(File(a) + x.Line(), File([y] + b)) == File(FirstOfEach(ByWord, a + ([JoinedKey(x, y)] + b)))
  {
    var j := JoinedKey(x, y);
    JoinedIsOneLine(x, y);
    FileOfFirst(y, b);
    FileOfFirst(j, b);
    Regroup(x.Line(), y.Line(), "\n" + File(b));
    assert x.Line() + File([y] + b) == File([j] + b);
    Regroup(File(a), x.Line(), File([y] + b));
    RecordsOfFiles(a, [j] + b);
    RestoredWhen(File(a) + x.Line(), File([y] + b), a + ([j] + b));
  }

  // ------------------------------------------------------------------------ who survives

  /** The keys the merge reads from the two files. */
  function KeysRead(a: seq<Authorised>, b: seq<Authorised>, ended: bool): seq<Authorised>
    requires a != []
  {
    if ended || b == [] then a + b else a[..|a| - 1] + ([JoinedKey(a[|a| - 1], b[0])] + b[1..])
  }

  /** The restored file, for either ending of the shipped one: the keys read, each unless an earlier key
    * compares equal. */
  lemma RestoredRead(a: seq<Authorised>, b: seq<Authorised>, ended: bool)
    requires a != [] && AllWellFormed(a) && AllWellFormed(b)
    ensures Restored(ShippedFile(a, ended), File(b)) == File(FirstOfEach(ByWord, KeysRead(a, b, ended)))
  {
    if ended {
      RestoredKeys(a, b);
    } else if b == [] {
      RecordsOfShipped(a, false);
      assert ShippedFile(a, false) + File(b) == ShippedFile(a, false) && a + b == a;
      RestoredWhen(ShippedFile(a, false), File(b), a);
    } else {
      assert b == [b[0]] + b[1..];
      UnendedFileJoinsTwoKeys(a[..|a| - 1], a[|a| - 1], b[0], b[1..]);
    }
  }

  /** Some key with this material is the first to be compared by its word. */
  ghost predicate ComesFirst(ks: seq<Authorised>, material: string) {
    exists i: nat :: i < |ks| && IsFirst(ByWord, ks, i) && ks[i].material == material
  }

  lemma MaterialKeptIff(ks: seq<Authorised>, material: string)
    ensures material in Materials(FirstOfEach(ByWord, ks)) <==> ComesFirst(ks, material)
  {
    var kept := FirstOfEach(ByWord, ks);
    if material in Materials(kept) {
      var k :| k in kept && k.material == material;
      KeptIffFirst(ByWord, ks, k);
      var i :| 0 <= i < |ks| && ks[i] == k && IsFirst(ByWord, ks, i);
      assert ks[i].material == material;
    }
    if ComesFirst(ks, material) {
      var i: nat :| i < |ks| && IsFirst(ByWord, ks, i) && ks[i].material == material;
      KeptIffFirst(ByWord, ks, ks[i]);
      assert ks[i] in kept;
    }
  }

  /** "Both survive", for all files of keys and either ending: the restored file has the material of every
    * key of both exactly when each of them is read from some line that is the first to be compared by its
    * word.  A key that is in both files survives once. */
  lemma EverybodySurvivesIff(a: seq<Authorised>, b: seq<Authorised>, ended: bool)
    requires a != [] && AllWellFormed(a) && AllWellFormed(b)
    ensures
      var ks := KeysRead(a, b, ended);
      var kept := FirstOfEach(ByWord, ks);
      && Restored(ShippedFile(a, ended), File(b)) == File(kept)
      && (Materials(a) + Materials(b) <= Materials(kept) <==> forall k :: k in a + b ==> ComesFirst(ks, k.material))
  {
    var ks := KeysRead(a, b, ended);
    RestoredRead(a, b, ended);
    MaterialsOfBoth(a, b);
    forall k | k in a + b
      ensures k.material in Materials(a) + Materials(b)
      ensures k.material in Materials(FirstOfEach(ByWord, ks)) <==> ComesFirst(ks, k.material)
    {
      MaterialKeptIff(ks, k.material);
      assert k.material in Materials(a + b);
    }
    assert forall m :: m in Materials(a) + Materials(b) ==> exists k :: k in a + b && k.material == m;
  }

  /** What becomes of the key y that an unended shipped file swallows: its material survives exactly when a
    * key with that material comes first.  Where no key has options that is: when another key has the same
    * material, or the joined line happens to be compared by it. */
  lemma JoinedKeySurvivesIff(a: seq<Authorised>, x: Authorised, y: Authorised, b: seq<Authorised>)
    requires AllWellFormed(a) && x.WellFormed() && y.WellFormed() && AllWellFormed(b)
    ensures
      var ks := a + ([JoinedKey(x, y)] + b);
      var kept := FirstOfEach(ByWord, ks);
      var joined := x.material + if x.rest == "" then y.kind else "";
      var bare := x.options == y.options == "" && forall k :: k in a + b ==> k.options == "";
      && Restored(File(a) + x.Line(), File([y] + b)) == File(kept)
      && (y.material in Materials(kept) <==> ComesFirst(ks, y.material))
      && (bare ==> Materials(kept) == Materials(a) + {joined} + Materials(b))
  {
    UnendedFileJoinsTwoKeys(a, x, y, b);
    MaterialKeptIff(a + ([JoinedKey(x, y)] + b), y.material);
    if x.options == y.options == "" && forall k :: k in a + b ==> k.options == "" {
      FirstWordIsWord(y);
      BareWithOneMore(a, JoinedKey(x, y), b);
      assert x.material + "" == x.material;
    }
  }

  lemma AllBare(a: seq<Authorised>, j: Authorised, b: seq<Authorised>)
    requires j.options == "" && forall k :: k in a + b ==> k.options == ""
    ensures
      var ks := a + ([j] + b);
      forall i :: 0 <= i < |ks| ==> ks[i].options == ""
  {
    var ks := a + ([j] + b);
    forall i | 0 <= i < |ks|
      ensures ks[i].options == ""
    {
      assert ks[i] == j || ks[i] in a + b;
    }
  }

  lemma BareWithOneMore(a: seq<Authorised>, j: Authorised, b: seq<Authorised>)
    requires j.options == "" && forall k :: k in a + b ==> k.options == ""
    ensures Materials(FirstOfEach(ByWord, a + ([j] + b))) == Materials(a) + {j.material} + Materials(b)
  {
    AllBare(a, j, b);
    BareKeptMaterials(a + ([j] + b));
    MaterialsOfBoth(a, [j] + b);
    MaterialsOfBoth([j], b);
    assert Materials([j]) == {j.material};
  }
}
