/** merge_conf of moonlight-backup: the shipped settings file is the template, the archived one
  * supplies the values.  Files are sequences of lines.
  *
  * The merge depends on a line only through the key it assigns, so it is modelled and proved for any
  * such function `keyOf` and then used with the one of the awk program.
  */
module ConfMerge {
  import opened Basics

  // ------------------------------------------------------------------------ reading a file

  /** The last assignment of each key, as whole lines. */
  function Settings<L, K(==)>(keyOf: L -> Option<K>, lines: seq<L>): map<K, L> {
    if lines == [] then map[]
    else
      var before, line := Settings(keyOf, lines[..|lines| - 1]), lines[|lines| - 1];
      match keyOf(line) case Some(k) => before[k := line] case None => before
  }

  /** The keys a file assigns, each at its first appearance. */
  function KeyOrder<L, K(==)>(keyOf: L -> Option<K>, lines: seq<L>): seq<K> {
    if lines == [] then []
    else
      var before, line := lines[..|lines| - 1], lines[|lines| - 1];
      match keyOf(line)
      case Some(k) =>
        if k in Settings(keyOf, before) then KeyOrder(keyOf, before) else KeyOrder(keyOf, before) + [k]
      case None => KeyOrder(keyOf, before)
  }

  /** Comments, blank lines and anything else that assigns nothing. */
  function Prose<L, K(==)>(keyOf: L -> Option<K>, lines: seq<L>): seq<L> {
    if lines == [] then []
    else
      var before, line := Prose(keyOf, lines[..|lines| - 1]), lines[|lines| - 1];
      if keyOf(line).Some? then before else before + [line]
  }

  // ---------------------------------------------------------------------- the merged file

  function Replaced<L, K(==)>(keyOf: L -> Option<K>, val: map<K, L>, line: L): L {
    match keyOf(line)
    case Some(k) => if k in val then val[k] else line
    case None => line
  }

  function Overlay<L, K(==)>(keyOf: L -> Option<K>, val: map<K, L>, lines: seq<L>): seq<L> {
    if lines == [] then []
    else Overlay(keyOf, val, lines[..|lines| - 1]) + [Replaced(keyOf, val, lines[|lines| - 1])]
  }

  /** The keys of `order` that are not in `used`. */
  function Unused<K(==)>(order: seq<K>, used: set<K>): seq<K> {
    if order == [] then []
    else
      var before, k := Unused(order[..|order| - 1], used), order[|order| - 1];
      if k in used then before else before + [k]
  }

  /** The lines of val for the given keys, after the note, when there are any. */
  function Appended<L, K(==)>(a: seq<L>, note: seq<L>, val: map<K, L>, ks: seq<K>): seq<L> {
    if ks == [] then a
    else
      var before, k := ks[..|ks| - 1], ks[|ks| - 1];
      (if before == [] then a + note else Appended(a, note, val, before)) + if k in val then [val[k]] else []
  }

  function OldOnly<L, K(==)>(keyOf: L -> Option<K>, archived: seq<L>, shipped: seq<L>): seq<K> {
    Unused(KeyOrder(keyOf, archived), Settings(keyOf, shipped).Keys)
  }

  function Merged<L, K(==)>(keyOf: L -> Option<K>, note: seq<L>, archived: seq<L>, shipped: seq<L>): seq<L> {
    var val := Settings(keyOf, archived);
    Appended(Overlay(keyOf, val, shipped), note, val, OldOnly(keyOf, archived, shipped))
  }

  /** The first loop of the awk program. */
  method ReadArchived<L, K(==)>(keyOf: L -> Option<K>, archived: seq<L>) returns (val: map<K, L>, order: seq<K>)
    ensures val == Settings(keyOf, archived) && order == KeyOrder(keyOf, archived)
  {
    val, order := map[], [];
    for i := 0 to |archived|
      invariant val == Settings(keyOf, archived[..i]) && order == KeyOrder(keyOf, archived[..i])
    {
      assert archived[..i + 1][..i] == archived[..i];
      var key := keyOf(archived[i]);
      if key.Some? {
        if key.value !in val { order := order + [key.value]; }
        val := val[key.value := archived[i]];
      }
    }
    assert archived[..|archived|] == archived;
  }

  /** The second loop: the shipped file, with the archived lines in place. */
  method PrintShipped<L, K(==)>(keyOf: L -> Option<K>, val: map<K, L>, shipped: seq<L>)
    returns (out: seq<L>, seen: set<K>)
    ensures out == Overlay(keyOf, val, shipped) && seen == Settings(keyOf, shipped).Keys * val.Keys
  {
    out, seen := [], {};
    for i := 0 to |shipped|
      invariant out == Overlay(keyOf, val, shipped[..i])
      invariant seen == Settings(keyOf, shipped[..i]).Keys * val.Keys
    {
      assert shipped[..i + 1][..i] == shipped[..i];
      var key := keyOf(shipped[i]);
      if key.Some? && key.value in val {
        out := out + [val[key.value]];
        seen := seen + {key.value};
      } else {
        out := out + [shipped[i]];
      }
    }
    assert shipped[..|shipped|] == shipped;
  }

  /** The END loop: what only the archive knows, under the note. */
  method PrintCarried<L, K(==)>(top: seq<L>, note: seq<L>, val: map<K, L>, order: seq<K>, seen: set<K>,
                                ghost used: set<K>)
      returns (out: seq<L>)
    requires KeySet(order) <= val.Keys
    requires seen == used * val.Keys
    ensures out == Appended(top, note, val, Unused(order, used))
  {
    out := top;
    var noted := false;
    for i := 0 to |order|
      invariant out == Appended(top, note, val, Unused(order[..i], used))
      invariant noted <==> Unused(order[..i], used) != []
    {
      var k := order[i];
      assert k in KeySet(order) && order[..i + 1][..i] == order[..i];
      if k !in seen {
        if !noted {
          out := out + note;
          noted := true;
        }
        out := out + [val[k]];
        assert Unused(order[..i + 1], used)[..|Unused(order[..i], used)|] == Unused(order[..i], used);
      }
    }
    assert order[..|order|] == order;
  }

  // ------------------------------------------------------------------------ what it means

  /** One more line. */
  lemma OneMoreLine<L, K>(keyOf: L -> Option<K>, a: seq<L>, line: L)
    ensures keyOf(line).Some? ==> Settings(keyOf, a + [line]) == Settings(keyOf, a)[keyOf(line).value := line]
    ensures keyOf(line).Some? ==> Prose(keyOf, a + [line]) == Prose(keyOf, a)
    ensures keyOf(line).None? ==> Settings(keyOf, a + [line]) == Settings(keyOf, a)
    ensures keyOf(line).None? ==> Prose(keyOf, a + [line]) == Prose(keyOf, a) + [line]
  {
    assert (a + [line])[..|a|] == a;
  }

  ghost predicate Faithful<L, K>(keyOf: L -> Option<K>, val: map<K, L>) {
    forall k :: k in val ==> keyOf(val[k]) == Some(k)
  }

  ghost predicate Distinct<K>(ks: seq<K>) {
    forall i, j :: 0 <= i < j < |ks| ==> ks[i] != ks[j]
  }

  function KeySet<K(==)>(ks: seq<K>): set<K> {
    set k | k in ks
  }

  lemma KeySetOfLast<K>(ks: seq<K>)
    requires ks != []
    ensures KeySet(ks) == KeySet(ks[..|ks| - 1]) + {ks[|ks| - 1]}
  {
    assert ks == ks[..|ks| - 1] + [ks[|ks| - 1]];
  }

  lemma DistinctOneMore<K>(ks: seq<K>, k: K)
    requires Distinct(ks) && k !in KeySet(ks)
    ensures Distinct(ks + [k]) && KeySet(ks + [k]) == KeySet(ks) + {k}
  {
    assert forall i :: 0 <= i < |ks| ==> ks[i] in KeySet(ks);
  }

  /** Each key a file sets occurs exactly once in its order, and its setting is one of its lines. */
  lemma {:induction false} OrderIsSettings<L, K>(keyOf: L -> Option<K>, lines: seq<L>)
    ensures KeySet(KeyOrder(keyOf, lines)) == Settings(keyOf, lines).Keys
    ensures Distinct(KeyOrder(keyOf, lines))
    ensures Faithful(keyOf, Settings(keyOf, lines))
  {
    if lines != [] {
      var before, line := lines[..|lines| - 1], lines[|lines| - 1];
      OrderIsSettings(keyOf, before);
      if keyOf(line).Some? && keyOf(line).value !in Settings(keyOf, before) {
        DistinctOneMore(KeyOrder(keyOf, before), keyOf(line).value);
      }
    }
  }

  /** Line p is the first with key k. */
  ghost predicate FirstSeenAt<L, K>(keyOf: L -> Option<K>, lines: seq<L>, k: K, p: int)
    requires 0 <= p < |lines|
  {
    keyOf(lines[p]) == Some(k) && forall q :: 0 <= q < p ==> keyOf(lines[q]) != Some(k)
  }

  /** Key i comes before key j in the file. */
  ghost predicate SeenBefore<L, K>(keyOf: L -> Option<K>, lines: seq<L>, k: K, l: K) {
    exists p, q :: 0 <= p < q < |lines| && FirstSeenAt(keyOf, lines, k, p) && FirstSeenAt(keyOf, lines, l, q)
  }

  lemma {:induction false} SetKeysAreSeen<L, K>(keyOf: L -> Option<K>, lines: seq<L>, k: K)
    ensures k in Settings(keyOf, lines) <==> exists p :: 0 <= p < |lines| && FirstSeenAt(keyOf, lines, k, p)
  {
    if lines != [] {
      var n := |lines| - 1;
      var before := lines[..n];
      SetKeysAreSeen(keyOf, before, k);
      assert forall p :: 0 <= p < n ==> (FirstSeenAt(keyOf, lines, k, p) <==> FirstSeenAt(keyOf, before, k, p));
      if keyOf(lines[n]) == Some(k) && k !in Settings(keyOf, before) {
        NotSeen(keyOf, before, k);
        assert FirstSeenAt(keyOf, lines, k, n);
      }
    }
  }

  lemma {:induction false} NotSeen<L, K>(keyOf: L -> Option<K>, lines: seq<L>, k: K)
    requires k !in Settings(keyOf, lines)
    ensures forall q :: 0 <= q < |lines| ==> keyOf(lines[q]) != Some(k)
  {
    if lines != [] { NotSeen(keyOf, lines[..|lines| - 1], k); }
  }

  /** The order of the keys is the order of their first lines. */
  lemma {:induction false} OrderIsFirstSeen<L, K>(keyOf: L -> Option<K>, lines: seq<L>, i: nat, j: nat)
    requires i < j < |KeyOrder(keyOf, lines)|
    ensures SeenBefore(keyOf, lines, KeyOrder(keyOf, lines)[i], KeyOrder(keyOf, lines)[j])
  {
    var n := |lines| - 1;
    var before, order := lines[..n], KeyOrder(keyOf, lines);
    var k, l := order[i], order[j];
    if j < |KeyOrder(keyOf, before)| {
      OrderIsFirstSeen(keyOf, before, i, j);
      var p, q :| 0 <= p < q < n && FirstSeenAt(keyOf, before, k, p) && FirstSeenAt(keyOf, before, l, q);
      assert FirstSeenAt(keyOf, lines, k, p) && FirstSeenAt(keyOf, lines, l, q);
    } else {
      OrderIsSettings(keyOf, before);
      assert k in KeySet(KeyOrder(keyOf, before));
      SetKeysAreSeen(keyOf, before, k);
      var p :| 0 <= p < n && FirstSeenAt(keyOf, before, k, p);
      NotSeen(keyOf, before, l);
      assert FirstSeenAt(keyOf, lines, k, p) && FirstSeenAt(keyOf, lines, l, n);
    }
  }

  lemma {:induction false} UnusedIsFilter<K>(order: seq<K>, used: set<K>)
    ensures KeySet(Unused(order, used)) == KeySet(order) - used
    ensures Distinct(order) ==> Distinct(Unused(order, used))
  {
    if order != [] {
      var before, k := order[..|order| - 1], order[|order| - 1];
      UnusedIsFilter(before, used);
      KeySetOfLast(order);
      if k !in used && Distinct(order) {
        assert k !in KeySet(before);
        DistinctOneMore(Unused(before, used), k);
      } else if k !in used {
        KeySetOfLast(Unused(before, used) + [k]);
      }
    }
  }

  /** Leaving keys out keeps the order of the others. */
  lemma {:induction false} UnusedKeepsOrder<K>(order: seq<K>, used: set<K>, i: nat, j: nat) returns (p: nat, q: nat)
    requires i < j < |Unused(order, used)|
    ensures p < q < |order| && order[p] == Unused(order, used)[i] && order[q] == Unused(order, used)[j]
  {
    var n := |order| - 1;
    var before := Unused(order[..n], used);
    if j < |before| {
      p, q := UnusedKeepsOrder(order[..n], used, i, j);
    } else {
      q := n;
      p := UnusedHas(order[..n], used, i);
    }
  }

  lemma {:induction false} UnusedHas<K>(order: seq<K>, used: set<K>, i: nat) returns (p: nat)
    requires i < |Unused(order, used)|
    ensures p < |order| && order[p] == Unused(order, used)[i]
  {
    var n := |order| - 1;
    if i < |Unused(order[..n], used)| { p := UnusedHas(order[..n], used, i); } else { p := n; }
  }

  /** The carried keys are in the order of their first lines in the archive. */
  lemma CarriedAreFirstSeen<L, K>(keyOf: L -> Option<K>, archived: seq<L>, shipped: seq<L>, i: nat, j: nat)
    requires i < j < |OldOnly(keyOf, archived, shipped)|
    ensures SeenBefore(keyOf, archived, OldOnly(keyOf, archived, shipped)[i], OldOnly(keyOf, archived, shipped)[j])
  {
    var p, q := UnusedKeepsOrder(KeyOrder(keyOf, archived), Settings(keyOf, shipped).Keys, i, j);
    OrderIsFirstSeen(keyOf, archived, p, q);
  }

  /** Exactly the keys that only the archive sets, each once. */
  lemma OldOnlyKeys<L, K>(keyOf: L -> Option<K>, archived: seq<L>, shipped: seq<L>)
    ensures KeySet(OldOnly(keyOf, archived, shipped)) == Settings(keyOf, archived).Keys - Settings(keyOf, shipped).Keys
    ensures Distinct(OldOnly(keyOf, archived, shipped))
  {
    OrderIsSettings(keyOf, archived);
    UnusedIsFilter(KeyOrder(keyOf, archived), Settings(keyOf, shipped).Keys);
  }

  function Restrict<L, K(==)>(val: map<K, L>, keys: set<K>): map<K, L> {
    map k | k in val && k in keys :: val[k]
  }

  lemma {:induction false} OverlaySettings<L, K>(keyOf: L -> Option<K>, val: map<K, L>, lines: seq<L>)
    requires Faithful(keyOf, val)
    ensures Settings(keyOf, Overlay(keyOf, val, lines))
         == Settings(keyOf, lines) + Restrict(val, Settings(keyOf, lines).Keys)
    ensures Prose(keyOf, Overlay(keyOf, val, lines)) == Prose(keyOf, lines)
  {
    if lines != [] {
      var before, line := lines[..|lines| - 1], lines[|lines| - 1];
      OverlaySettings(keyOf, val, before);
      OneMoreLine(keyOf, Overlay(keyOf, val, before), Replaced(keyOf, val, line));
      if keyOf(line).Some? {
        OverlayOneMore(keyOf, val, Settings(keyOf, before), line, keyOf(line).value);
      }
    }
  }

  lemma OverlayOneMore<L, K>(keyOf: L -> Option<K>, val: map<K, L>, m: map<K, L>, line: L, k: K)
    requires Faithful(keyOf, val) && keyOf(line) == Some(k)
    ensures (m + Restrict(val, m.Keys))[k := Replaced(keyOf, val, line)]
         == m[k := line] + Restrict(val, m[k := line].Keys)
  {
  }

  lemma RestrictOneMore<L, K>(m: map<K, L>, val: map<K, L>, s: set<K>, k: K)
    requires k in val
    ensures (m + Restrict(val, s))[k := val[k]] == m + Restrict(val, s + {k})
  {
  }

  /** Appending lines of val under a note adds their settings, and the note to the prose. */
  lemma {:induction false} AppendedSettings<L, K>(keyOf: L -> Option<K>, a: seq<L>, note: seq<L>, val: map<K, L>,
                                                  ks: seq<K>)
    requires Faithful(keyOf, val) && ks != [] && KeySet(ks) <= val.Keys
    requires Settings(keyOf, a + note) == Settings(keyOf, a)
    ensures Settings(keyOf, Appended(a, note, val, ks)) == Settings(keyOf, a) + Restrict(val, KeySet(ks))
    ensures Prose(keyOf, Appended(a, note, val, ks)) == Prose(keyOf, a + note)
  {
    var before, k := ks[..|ks| - 1], ks[|ks| - 1];
    var start := if before == [] then a + note else Appended(a, note, val, before);
    KeySetOfLast(ks);
    assert k in val;
    if before == [] {
      assert Settings(keyOf, a) + Restrict(val, KeySet(before)) == Settings(keyOf, a);
    } else {
      AppendedSettings(keyOf, a, note, val, before);
    }
    OneMoreLine(keyOf, start, val[k]);
    RestrictOneMore(Settings(keyOf, a), val, KeySet(before), k);
  }

  /** What the archive alone sets comes after everything shipped and after the note, one line a key,
    * in the archive's order. */
  lemma {:induction false} AppendedInOrder<L, K>(a: seq<L>, note: seq<L>, val: map<K, L>, ks: seq<K>, i: nat)
    requires i < |ks| && KeySet(ks) <= val.Keys
    ensures |Appended(a, note, val, ks)| == |a| + |note| + |ks|
    ensures a + note <= Appended(a, note, val, ks)
    ensures ks[i] in val && Appended(a, note, val, ks)[|a| + |note| + i] == val[ks[i]]
  {
    var before, k := ks[..|ks| - 1], ks[|ks| - 1];
    KeySetOfLast(ks);
    assert k in val;
    if before != [] {
      AppendedInOrder(a, note, val, before, if i < |before| then i else 0);
    }
  }

  ghost predicate AssignsNothing<L, K>(keyOf: L -> Option<K>, lines: seq<L>) {
    forall i :: 0 <= i < |lines| ==> keyOf(lines[i]).None?
  }

  /** Lines that assign nothing add prose and no settings. */
  lemma {:induction false} ProseIsNeutral<L, K>(keyOf: L -> Option<K>, a: seq<L>, note: seq<L>)
    requires AssignsNothing(keyOf, note)
    ensures Settings(keyOf, a + note) == Settings(keyOf, a) && Prose(keyOf, a + note) == Prose(keyOf, a) + note
  {
    if note == [] {
      assert a + note == a;
    } else {
      var n := |note| - 1;
      ProseIsNeutral(keyOf, a, note[..n]);
      OneMoreLine(keyOf, a + note[..n], note[n]);
      assert a + note == a + note[..n] + [note[n]] && note == note[..n] + [note[n]];
    }
  }

  lemma OverrideInTwoParts<L, K>(m: map<K, L>, val: map<K, L>, rest: set<K>)
    requires val.Keys - m.Keys <= rest
    ensures m + Restrict(val, m.Keys) + Restrict(val, rest) == m + val
  {
  }

  /** The merged file reads as the shipped file overridden by the archived one; the shipped file's
    * prose survives in order, followed at most by the note. */
  lemma MergeIsOverlay<L, K>(keyOf: L -> Option<K>, note: seq<L>, archived: seq<L>, shipped: seq<L>)
    requires AssignsNothing(keyOf, note)
    ensures
      var merged := Merged(keyOf, note, archived, shipped);
      && Settings(keyOf, merged) == Settings(keyOf, shipped) + Settings(keyOf, archived)
      && Prose(keyOf, merged) == Prose(keyOf, shipped) + if OldOnly(keyOf, archived, shipped) == [] then [] else note
  {
    var val, ks := Settings(keyOf, archived), OldOnly(keyOf, archived, shipped);
    OrderIsSettings(keyOf, archived);
    OldOnlyKeys(keyOf, archived, shipped);
    OverlaySettings(keyOf, val, shipped);
    ProseIsNeutral(keyOf, Overlay(keyOf, val, shipped), note);
    OverrideInTwoParts(Settings(keyOf, shipped), val, KeySet(ks));
    if ks == [] {
      assert Restrict(val, KeySet(ks)) == map[];
    } else {
      AppendedSettings(keyOf, Overlay(keyOf, val, shipped), note, val, ks);
    }
  }

  ghost predicate Fixed<L, K>(keyOf: L -> Option<K>, val: map<K, L>, lines: seq<L>) {
    forall i :: 0 <= i < |lines| ==> Replaced(keyOf, val, lines[i]) == lines[i]
  }

  lemma {:induction false} FixedOverlay<L, K>(keyOf: L -> Option<K>, val: map<K, L>, lines: seq<L>)
    requires Fixed(keyOf, val, lines)
    ensures Overlay(keyOf, val, lines) == lines
  {
    if lines != [] { FixedOverlay(keyOf, val, lines[..|lines| - 1]); }
  }

  lemma {:induction false} OverlayIsFixed<L, K>(keyOf: L -> Option<K>, val: map<K, L>, lines: seq<L>)
    requires Faithful(keyOf, val)
    ensures Fixed(keyOf, val, Overlay(keyOf, val, lines))
  {
    if lines != [] { OverlayIsFixed(keyOf, val, lines[..|lines| - 1]); }
  }

  lemma {:induction false} AppendedIsFixed<L, K>(keyOf: L -> Option<K>, a: seq<L>, note: seq<L>, val: map<K, L>,
                                                 ks: seq<K>)
    requires Faithful(keyOf, val) && Fixed(keyOf, val, a) && Fixed(keyOf, val, note)
    ensures Fixed(keyOf, val, Appended(a, note, val, ks))
  {
    if ks != [] { AppendedIsFixed(keyOf, a, note, val, ks[..|ks| - 1]); }
  }

  /** Merging the same archive again changes nothing. */
  lemma MergeAgainChangesNothing<L, K>(keyOf: L -> Option<K>, note: seq<L>, archived: seq<L>, shipped: seq<L>)
    requires AssignsNothing(keyOf, note)
    ensures
      var once := Merged(keyOf, note, archived, shipped);
      Merged(keyOf, note, archived, once) == once
  {
    var once := Merged(keyOf, note, archived, shipped);
    MergedIsFixed(keyOf, note, archived, shipped);
    MergeIsOverlay(keyOf, note, archived, shipped);
    NothingCarried(keyOf, archived, once);
  }

  lemma {:induction false} OverlayLine<L, K>(keyOf: L -> Option<K>, val: map<K, L>, lines: seq<L>, i: nat)
    requires i < |lines|
    ensures |Overlay(keyOf, val, lines)| == |lines|
    ensures Overlay(keyOf, val, lines)[i] == Replaced(keyOf, val, lines[i])
  {
    if |lines| > 1 {
      OverlayLine(keyOf, val, lines[..|lines| - 1], if i < |lines| - 1 then i else 0);
    }
  }

  lemma {:induction false} AppendedKeepsStart<L, K>(a: seq<L>, note: seq<L>, val: map<K, L>, ks: seq<K>)
    ensures a <= Appended(a, note, val, ks)
  {
    if ks != [] { AppendedKeepsStart(a, note, val, ks[..|ks| - 1]); }
  }

  /** Line by line: each shipped line stays where it is, with the archive's last line for its key in its
    * place if the archive sets that key. */
  lemma MergedLine<L, K>(keyOf: L -> Option<K>, note: seq<L>, archived: seq<L>, shipped: seq<L>, i: nat)
    requires i < |shipped|
    ensures
      var merged, val := Merged(keyOf, note, archived, shipped), Settings(keyOf, archived);
      && |merged| >= |shipped|
      && (keyOf(shipped[i]).None? ==> merged[i] == shipped[i])
      && (keyOf(shipped[i]).Some? && keyOf(shipped[i]).value in val ==> merged[i] == val[keyOf(shipped[i]).value])
      && (keyOf(shipped[i]).Some? && keyOf(shipped[i]).value !in val ==> merged[i] == shipped[i])
  {
    var val := Settings(keyOf, archived);
    OverlayLine(keyOf, val, shipped, i);
    AppendedKeepsStart(Overlay(keyOf, val, shipped), note, val, OldOnly(keyOf, archived, shipped));
  }

  /** Without old-only keys nothing is appended, not even the note. */
  lemma NoteOnlyWhenNeeded<L, K>(keyOf: L -> Option<K>, note: seq<L>, archived: seq<L>, shipped: seq<L>)
    requires shipped != [] && Settings(keyOf, archived).Keys <= Settings(keyOf, shipped).Keys
    ensures |Merged(keyOf, note, archived, shipped)| == |shipped|
  {
    NothingCarried(keyOf, archived, shipped);
    OverlayLine(keyOf, Settings(keyOf, archived), shipped, 0);
  }

  /** Line p is the last with key k. */
  ghost predicate LastSeenAt<L, K>(keyOf: L -> Option<K>, lines: seq<L>, k: K, p: int)
    requires 0 <= p < |lines|
  {
    keyOf(lines[p]) == Some(k) && forall q :: p < q < |lines| ==> keyOf(lines[q]) != Some(k)
  }

  /** Reading takes the last assignment of each key. */
  lemma {:induction false} LastAssignmentWins<L, K>(keyOf: L -> Option<K>, lines: seq<L>, k: K)
    ensures k in Settings(keyOf, lines) <==> exists p :: 0 <= p < |lines| && LastSeenAt(keyOf, lines, k, p)
    ensures forall p :: 0 <= p < |lines| && LastSeenAt(keyOf, lines, k, p) ==> Settings(keyOf, lines)[k] == lines[p]
  {
    if lines != [] {
      var n := |lines| - 1;
      var before := lines[..n];
      LastAssignmentWins(keyOf, before, k);
      if keyOf(lines[n]) == Some(k) {
        assert LastSeenAt(keyOf, lines, k, n);
      } else {
        assert forall p :: 0 <= p < n ==> (LastSeenAt(keyOf, lines, k, p) <==> LastSeenAt(keyOf, before, k, p));
      }
    }
  }

  /** No archived assignment is left to put in place. */
  lemma MergedIsFixed<L, K>(keyOf: L -> Option<K>, note: seq<L>, archived: seq<L>, shipped: seq<L>)
    requires AssignsNothing(keyOf, note)
    ensures
      var once := Merged(keyOf, note, archived, shipped);
      Overlay(keyOf, Settings(keyOf, archived), once) == once
  {
    var val, once := Settings(keyOf, archived), Merged(keyOf, note, archived, shipped);
    OrderIsSettings(keyOf, archived);
    OverlayIsFixed(keyOf, val, shipped);
    AppendedIsFixed(keyOf, Overlay(keyOf, val, shipped), note, val, OldOnly(keyOf, archived, shipped));
    FixedOverlay(keyOf, val, once);
  }

  /** No archived key is left to carry over. */
  lemma NothingCarried<L, K>(keyOf: L -> Option<K>, archived: seq<L>, lines: seq<L>)
    requires Settings(keyOf, archived).Keys <= Settings(keyOf, lines).Keys
    ensures OldOnly(keyOf, archived, lines) == []
  {
    OldOnlyKeys(keyOf, archived, lines);
    NoKeys(OldOnly(keyOf, archived, lines));
  }

  lemma NoKeys<K>(ks: seq<K>)
    ensures KeySet(ks) == {} <==> ks == []
  {
    if ks != [] { assert ks[0] in KeySet(ks); }
  }
}

/** The merge with the awk program's notion of an assignment. */
module BackupMerge {
  import opened ConfMerge
  import opened Basics

  type Line = string
  type Key = string

  function Comment(text: string): (line: Line)
    ensures line != "" && line[0] == '#'
  {
    "# " + text
  }

  const NOTE: seq<Line> := ["", Comment("Carried over from a previous installation.")]

  predicate Letter(c: char) {
    'A' <= c <= 'Z' || 'a' <= c <= 'z' || c == '_'
  }

  predicate Identifier(s: string) {
    s != [] && Letter(s[0]) && forall i :: 0 <= i < |s| ==> Letter(s[i]) || '0' <= s[i] <= '9'
  }

  /** What the line assigns: an identifier at its start followed at once by '='. */
  function AssignedKey(line: Line): Option<Key> {
    var i := FirstEquals(line);
    if i < |line| && Identifier(line[..i]) then Some(line[..i]) else None
  }

  /** Exactly the lines that begin with an identifier and '=' assign it. */
  lemma AssignsIff(line: Line, k: Key)
    ensures AssignedKey(line) == Some(k)
       <==> Identifier(k) && |k| < |line| && line[..|k|] == k && line[|k|] == '='
  {
    var i := FirstEquals(line);
    if Identifier(k) && |k| < |line| && line[..|k|] == k && line[|k|] == '=' {
      assert forall j :: 0 <= j < |k| ==> line[j] == k[j] != '=';
      assert i == |k|;
    }
  }

  /** merge_conf; empty files are refused. */
  method MergeConf(archived: seq<Line>, shipped: seq<Line>) returns (out: Option<seq<Line>>)
    ensures out == if archived == [] || shipped == [] then None else Some(Merged(AssignedKey, NOTE, archived, shipped))
  {
    if archived == [] || shipped == [] { return None; }
    var val, order := ReadArchived(AssignedKey, archived);
    var top, seen := PrintShipped(AssignedKey, val, shipped);
    OrderIsSettings(AssignedKey, archived);
    var merged := PrintCarried(top, NOTE, val, order, seen, Settings(AssignedKey, shipped).Keys);
    return Some(merged);
  }

  lemma ProseLine(line: Line)
    requires line == "" || line[0] == '#'
    ensures AssignedKey(line) == None
  {
  }

  lemma NoteIsProse()
    ensures AssignsNothing(AssignedKey, NOTE)
  {
    ProseLine(NOTE[0]);
    ProseLine(NOTE[1]);
  }

  /** merge_conf is an overlay: last assignment wins, the archive's value wherever the archive sets the
    * key, the shipped value elsewhere; the shipped prose stays; a second merge changes nothing. */
  lemma MergeConfIsOverlay(archived: seq<Line>, shipped: seq<Line>)
    ensures
      var merged := Merged(AssignedKey, NOTE, archived, shipped);
      && Settings(AssignedKey, merged) == Settings(AssignedKey, shipped) + Settings(AssignedKey, archived)
      && Prose(AssignedKey, shipped) <= Prose(AssignedKey, merged)
      && Merged(AssignedKey, NOTE, archived, merged) == merged
  {
    NoteIsProse();
    MergeIsOverlay(AssignedKey, NOTE, archived, shipped);
    MergeAgainChangesNothing(AssignedKey, NOTE, archived, shipped);
  }
}
