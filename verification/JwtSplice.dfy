/**
  scripts/merge_jwt_plugin_entry.py: folding all jwt entries of a gateway file into one, by rewriting
  their spans of text from the last to the first.  Where the keys and the closing braces are is the
  parser's business and given.
*/
module JwtSplice {
  import opened Sequences
  import opened Wrappers

  /** A jwt entry as matched: the position of its key, that of its closing brace, its target keys. */
  datatype Match = Match(start: nat, close: nat, targets: seq<string>)

  /** A jwt entry with the span of text to rewrite, [start, end). */
  datatype Entry = Entry(start: nat, end: nat, targets: seq<string>)

  predicate Closed(content: string, m: Match) { m.start < m.close < |content| && content[m.close] == '}' }

  /** Matches come one after the other: the search goes on behind a closing brace. */
  ghost predicate InOrder(content: string, matches: seq<Match>) {
    && (forall i :: 0 <= i < |matches| ==> Closed(content, matches[i]))
    && forall i, j :: 0 <= i < j < |matches| ==> matches[i].close < matches[j].start
  }

  // ---------------------------------------------------------------- spans

  /** content.rfind("\n", 0, pos) + 1 */
  function LineStart(content: string, pos: nat): (r: nat)
    requires pos <= |content|
    ensures r <= pos && (r > 0 ==> content[r - 1] == '\n')
    ensures forall i :: r <= i < pos ==> content[i] != '\n'
  {
    if pos == 0 || content[pos - 1] == '\n' then pos else LineStart(content, pos - 1)
  }

  predicate IsSeparator(c: char) { c == ',' || c == ' ' || c == '\t' }

  /** Past the separators from position i on. */
  function SkipSeparators(content: string, i: nat): (r: nat)
    requires i <= |content|
    ensures i <= r <= |content| && (r < |content| ==> !IsSeparator(content[r]))
    ensures forall k :: i <= k < r ==> IsSeparator(content[k])
    decreases |content| - i
  {
    if i < |content| && IsSeparator(content[i]) then SkipSeparators(content, i + 1) else i
  }

  /** Past the separators and one newline. */
  function Tail(content: string, i: nat): (r: nat)
    requires i <= |content|
    ensures i <= r <= |content|
  {
    var k := SkipSeparators(content, i);
    if k < |content| && content[k] == '\n' then k + 1 else k
  }

  function EntryOf(content: string, m: Match): Entry
    requires m.start < m.close < |content|
  {
    Entry(LineStart(content, m.start), Tail(content, m.close + 1), m.targets)
  }

  function Entries(content: string, matches: seq<Match>): seq<Entry>
    requires InOrder(content, matches)
  {
    seq(|matches|, i requires 0 <= i < |matches| => EntryOf(content, matches[i]))
  }

  method FindTail(content: string, close: nat) returns (tail: nat)
    requires close < |content|
    ensures tail == Tail(content, close + 1)
  {
    tail := close + 1;
    while tail < |content| && IsSeparator(content[tail])
      invariant tail <= |content| && SkipSeparators(content, tail) == SkipSeparators(content, close + 1)
    {
      tail := tail + 1;
    }
    if tail < |content| && content[tail] == '\n' { tail := tail + 1; }
  }

  method FindLineStart(content: string, pos: nat) returns (lineStart: nat)
    requires pos <= |content|
    ensures lineStart == LineStart(content, pos)
  {
    lineStart := pos;
    while lineStart > 0 && content[lineStart - 1] != '\n'
      invariant lineStart <= pos && LineStart(content, lineStart) == LineStart(content, pos)
    {
      lineStart := lineStart - 1;
    }
  }

  method FindEntries(content: string, matches: seq<Match>) returns (entries: seq<Entry>)
    requires InOrder(content, matches)
    ensures entries == Entries(content, matches)
  {
    entries := [];
    for i := 0 to |matches|
      invariant entries == Entries(content, matches)[..i]
    {
      var start := FindLineStart(content, matches[i].start);
      var end := FindTail(content, matches[i].close);
      entries := entries + [Entry(start, end, matches[i].targets)];
    }
  }

  /** A line break between one entry's closing brace and the next entry's key. */
  ghost predicate OwnLines(content: string, matches: seq<Match>)
    requires InOrder(content, matches)
  {
    forall i :: 0 <= i < |matches| - 1 ==> '\n' in content[matches[i].close + 1..matches[i + 1].start]
  }

  /** Spans one after the other. */
  ghost predicate Ordered(content: string, entries: seq<Entry>) {
    && (forall i :: 0 <= i < |entries| ==> entries[i].start < entries[i].end <= |content|)
    && forall i :: 0 <= i < |entries| - 1 ==> entries[i].end <= entries[i + 1].start
  }

  lemma NextLine(content: string, m: Match, n: Match)
    requires Closed(content, m) && Closed(content, n) && m.close < n.start
    ensures '\n' in content[m.close + 1..n.start] <==> EntryOf(content, m).end <= EntryOf(content, n).start
  {
    var k := SkipSeparators(content, m.close + 1);
    var s, between := LineStart(content, n.start), content[m.close + 1..n.start];
    assert forall i :: m.close < i < n.start ==> content[i] == between[i - m.close - 1];
    if '\n' in between {
      var i :| 0 <= i < |between| && between[i] == '\n';
      assert content[m.close + 1 + i] == '\n';
      assert s > m.close + 1 + i && k <= m.close + 1 + i;
    } else {
      assert s <= m.close;
    }
  }

  /** The spans follow each other exactly when a line break separates neighbouring entries; two
      entries on one line have overlapping spans. */
  lemma SpansOrderedIff(content: string, matches: seq<Match>)
    requires InOrder(content, matches)
    ensures Ordered(content, Entries(content, matches)) <==> OwnLines(content, matches)
  {
    var entries := Entries(content, matches);
    forall i | 0 <= i < |matches| - 1
      ensures entries[i].end <= entries[i + 1].start <==> '\n' in content[matches[i].close + 1..matches[i + 1].start]
    {
      NextLine(content, matches[i], matches[i + 1]);
    }
  }

  // ---------------------------------------------------------------- what a span may hold

  predicate IsIndent(c: char) { c == ' ' || c == '\t' }

  /** Nothing but blanks in front of the entry on its line. */
  predicate StartsItsLine(content: string, m: Match)
    requires Closed(content, m)
  {
    forall i :: LineStart(content, m.start) <= i < m.start ==> IsIndent(content[i])
  }

  ghost predicate StartLines(content: string, matches: seq<Match>)
    requires InOrder(content, matches)
  {
    forall k :: 0 <= k < |matches| ==> StartsItsLine(content, matches[k])
  }

  /** Position i is the entry's: in its text, in the separators and the line end behind it, or in the
      blanks right in front of it. */
  ghost predicate Belongs(content: string, m: Match, i: int)
    requires Closed(content, m)
  {
    || m.start <= i <= m.close
    || m.close < i < Tail(content, m.close + 1)
    || (0 <= i < m.start && forall j :: i <= j < m.start ==> IsIndent(content[j]))
  }

  ghost predicate IsJwt(content: string, matches: seq<Match>, i: int)
    requires InOrder(content, matches)
  {
    exists k :: 0 <= k < |matches| && Belongs(content, matches[k], i)
  }

  /** Position i is in a span that is rewritten. */
  ghost predicate InSpan(entries: seq<Entry>, i: int) {
    exists k :: 0 <= k < |entries| && entries[k].start <= i < entries[k].end
  }

  /** The spans do not overlap and hold nothing but jwt entries. */
  ghost predicate SpansAreJwt(content: string, matches: seq<Match>)
    requires InOrder(content, matches)
  {
    && Ordered(content, Entries(content, matches))
    && forall i :: InSpan(Entries(content, matches), i) ==> IsJwt(content, matches, i)
  }

  /** Entries that start their lines are on different lines. */
  lemma StartLinesAreOwn(content: string, matches: seq<Match>)
    requires InOrder(content, matches) && StartLines(content, matches)
    ensures OwnLines(content, matches)
  {
    forall i | 0 <= i < |matches| - 1 ensures '\n' in content[matches[i].close + 1..matches[i + 1].start] {
      var m, n := matches[i], matches[i + 1];
      assert StartsItsLine(content, n) && !IsIndent(content[m.close]);
      if '\n' !in content[m.close + 1..n.start] { SharedLineOverlaps(content, m, n); }
    }
  }

  /** What stands in front of an entry on its line belongs to no entry unless it is blank. */
  lemma FrontBelongs(content: string, matches: seq<Match>, k: nat, i: int)
    requires InOrder(content, matches) && k < |matches| && Ordered(content, Entries(content, matches))
    requires LineStart(content, matches[k].start) <= i < matches[k].start && IsJwt(content, matches, i)
    ensures IsIndent(content[i])
  {
    var j :| 0 <= j < |matches| && Belongs(content, matches[j], i);
    if j < k {
      EndsBefore(content, Entries(content, matches), j, k);
      EarlierIsOver(content, matches[j], matches[k], i);
    } else if j > k {
      LaterHasNotBegun(content, matches[k], matches[j], i);
    }
  }

  lemma EarlierIsOver(content: string, m: Match, n: Match, i: int)
    requires Closed(content, m) && Closed(content, n) && EntryOf(content, m).end <= EntryOf(content, n).start <= i
    ensures !Belongs(content, m, i)
  {
  }

  lemma LaterHasNotBegun(content: string, m: Match, n: Match, i: int)
    requires Closed(content, m) && Closed(content, n) && i < m.start && m.close < n.start
    ensures !Belongs(content, n, i)
  {
    assert !IsIndent(content[m.close]);
  }

  lemma {:induction false} EndsBefore(content: string, entries: seq<Entry>, j: nat, k: nat)
    requires Ordered(content, entries) && j < k < |entries|
    ensures entries[j].end <= entries[k].start
    decreases k
  {
    if j < k - 1 { EndsBefore(content, entries, j, k - 1); }
  }

  lemma SpanBelongs(content: string, m: Match, i: int)
    requires Closed(content, m) && StartsItsLine(content, m)
    requires EntryOf(content, m).start <= i < EntryOf(content, m).end
    ensures Belongs(content, m, i)
  {
  }

  /** The rewritten spans hold only jwt entries, with their indentation and what separates them, if
      and only if nothing but blanks stands in front of an entry on its line. */
  lemma SpansAreJwtIff(content: string, matches: seq<Match>)
    requires InOrder(content, matches)
    ensures SpansAreJwt(content, matches) <==> StartLines(content, matches)
  {
    var entries := Entries(content, matches);
    if StartLines(content, matches) {
      StartLinesAreOwn(content, matches);
      SpansOrderedIff(content, matches);
      forall i | InSpan(entries, i) ensures IsJwt(content, matches, i) {
        var k :| 0 <= k < |entries| && entries[k].start <= i < entries[k].end;
        SpanBelongs(content, matches[k], i);
      }
    }
    if SpansAreJwt(content, matches) {
      forall k, i | 0 <= k < |matches| && LineStart(content, matches[k].start) <= i < matches[k].start
        ensures IsIndent(content[i])
      {
        assert entries[k].start <= i < entries[k].end;
        assert InSpan(entries, i);
        FrontBelongs(content, matches, k, i);
      }
    }
  }

  // ---------------------------------------------------------------- which entry stays, which targets

  /** max(entries, key=number of targets): the first of the longest. */
  predicate IsKeeper(entries: seq<Entry>, k: nat) {
    && k < |entries|
    && (forall i :: 0 <= i < |entries| ==> |entries[i].targets| <= |entries[k].targets|)
    && (forall i :: 0 <= i < k ==> |entries[i].targets| < |entries[k].targets|)
  }

  method FindKeeper(entries: seq<Entry>) returns (k: nat)
    requires entries != []
    ensures IsKeeper(entries, k)
  {
    k := 0;
    for i := 1 to |entries|
      invariant IsKeeper(entries[..i], k)
    {
      if |entries[i].targets| > |entries[k].targets| { k := i; }
    }
    assert entries[..|entries|] == entries;
  }

  function TargetsOf(e: Entry): seq<string> { e.targets }

  /** The inner loop, for the targets of one entry after those gathered before. */
  method AddTargets(ghost all: seq<string>, merged0: seq<string>, seen0: set<string>, targets: seq<string>)
    returns (merged: seq<string>, seen: set<string>)
    requires merged0 == Dedup(all) && forall t :: t in seen0 <==> t in merged0
    ensures merged == Dedup(all + targets) && forall t :: t in seen <==> t in merged
  {
    merged, seen := merged0, seen0;
    assert all + targets[..0] == all;
    for j := 0 to |targets|
      invariant merged == Dedup(all + targets[..j]) && forall t :: t in seen <==> t in merged
    {
      assert all + targets[..j + 1] == (all + targets[..j]) + [targets[j]];
      DedupAppend(all + targets[..j], targets[j]);
      DedupIsSet(all + targets[..j]);
      if targets[j] !in seen {
        seen := seen + {targets[j]};
        merged := merged + [targets[j]];
      }
    }
    assert targets[..|targets|] == targets;
  }

  /** The targets of all entries, each once, in order of first occurrence. */
  method MergeTargets(entries: seq<Entry>) returns (merged: seq<string>)
    ensures merged == Dedup(FlatMap(entries, TargetsOf))
  {
    merged := [];
    var seen: set<string> := {};
    for i := 0 to |entries|
      invariant merged == Dedup(FlatMap(entries[..i], TargetsOf)) && forall t :: t in seen <==> t in merged
    {
      merged, seen := AddTargets(FlatMap(entries[..i], TargetsOf), merged, seen, entries[i].targets);
      assert entries[..i + 1] == entries[..i] + [entries[i]];
      FlatMapAppend(entries[..i], entries[i], TargetsOf);
    }
    assert entries[..|entries|] == entries;
  }

  /** Merging loses no target and keeps none twice. */
  lemma MergedTargets(entries: seq<Entry>)
    ensures var merged := Dedup(FlatMap(entries, TargetsOf));
      NoDuplicates(merged) && forall t :: t in merged <==> exists i :: 0 <= i < |entries| && t in entries[i].targets
  {
    DedupIsSet(FlatMap(entries, TargetsOf));
    forall t ensures t in FlatMap(entries, TargetsOf) <==> exists i :: 0 <= i < |entries| && t in entries[i].targets {
      InTargets(entries, t);
    }
  }

  lemma {:induction false} InTargets(entries: seq<Entry>, t: string)
    ensures t in FlatMap(entries, TargetsOf) <==> exists i :: 0 <= i < |entries| && t in entries[i].targets
    decreases |entries|
  {
    if entries != [] {
      var before, last := entries[..|entries| - 1], entries[|entries| - 1];
      InTargets(before, t);
      if i :| 0 <= i < |before| && t in before[i].targets { assert entries[i] == before[i]; }
      if i :| 0 <= i < |entries| && t in entries[i].targets && i < |before| { assert before[i] == entries[i]; }
    }
  }

  // ---------------------------------------------------------------- the backwards rewrite

  function Min(a: nat, b: nat): nat { if a < b then a else b }

  /** content[:start] + text + content[end:], with Python's clamping of both bounds. */
  function Splice(content: string, e: Entry, text: string): string {
    content[..Min(e.start, |content|)] + text + content[Min(e.end, |content|)..]
  }

  /** What replaces an entry: the rendered one for the span that is kept, nothing for the others. */
  function Replacement(e: Entry, keeper: Entry, rendered: string): string {
    if e.start == keeper.start && e.end == keeper.end then rendered else ""
  }

  function Rewrite(content: string, order: seq<Entry>, keeper: Entry, rendered: string): string
    decreases |order|
  {
    if order == [] then content
    else Rewrite(Splice(content, order[0], Replacement(order[0], keeper, rendered)), order[1..], keeper, rendered)
  }

  /** sorted(entries, key=start, reverse=True): descending, entries with one start in given order. */
  function Insert(e: Entry, sorted: seq<Entry>): seq<Entry> {
    if sorted == [] || sorted[0].start < e.start then [e] + sorted else [sorted[0]] + Insert(e, sorted[1..])
  }

  function Descending(entries: seq<Entry>): seq<Entry> {
    if entries == [] then [] else Insert(entries[|entries| - 1], Descending(entries[..|entries| - 1]))
  }

  method RewriteBackwards(content: string, order: seq<Entry>, keeper: Entry, rendered: string) returns (result: string)
    ensures result == Rewrite(content, order, keeper, rendered)
  {
    result := content;
    for i := 0 to |order|
      invariant Rewrite(result, order[i..], keeper, rendered) == Rewrite(content, order, keeper, rendered)
    {
      assert order[i..][1..] == order[i + 1..];
      var e := order[i];
      if e.start == keeper.start && e.end == keeper.end {
        result := Splice(result, e, rendered);
      } else {
        result := Splice(result, e, "");
      }
    }
  }

  /** The text from position `from` on with every span replaced at once. */
  function Substituted(content: string, entries: seq<Entry>, keeper: Entry, rendered: string, from: nat): string
    requires Ordered(content, entries) && from <= |content| && (entries != [] ==> from <= entries[0].start)
    decreases |entries|
  {
    if entries == [] then content[from..]
    else
      content[from..entries[0].start] + Replacement(entries[0], keeper, rendered)
      + Substituted(content, entries[1..], keeper, rendered, entries[0].end)
  }

  function Reversed(entries: seq<Entry>): seq<Entry> {
    if entries == [] then [] else [entries[|entries| - 1]] + Reversed(entries[..|entries| - 1])
  }

  lemma {:induction false} DescendingIsReversed(content: string, entries: seq<Entry>)
    requires Ordered(content, entries)
    ensures Descending(entries) == Reversed(entries)
    decreases |entries|
  {
    if |entries| > 1 {
      DescendingIsReversed(content, entries[..|entries| - 1]);
      assert Reversed(entries[..|entries| - 1])[0] == entries[|entries| - 2];
    }
  }

  /** Text in front of a span is not touched by replacing it. */
  lemma FrontKept(content: string, e: Entry, text: string, a: nat, b: nat)
    requires a <= b <= e.start <= e.end <= |content|
    ensures |Splice(content, e, text)| >= e.start && Splice(content, e, text)[a..b] == content[a..b]
  {
  }

  lemma StillOrdered(content: string, entries: seq<Entry>, text: string)
    requires entries != [] && Ordered(content, entries)
    ensures Ordered(Splice(content, entries[|entries| - 1], text), entries[..|entries| - 1])
  {
    StartsBelow(content, entries);
    FrontKept(content, entries[|entries| - 1], text, 0, 0);
  }

  /** Replacing the last span first leaves the other spans where they were. */
  lemma {:induction false} LastFirst(content: string, entries: seq<Entry>, keeper: Entry, rendered: string, from: nat)
    requires entries != [] && Ordered(content, entries) && from <= entries[0].start
    ensures var last := entries[|entries| - 1];
      var after := Splice(content, last, Replacement(last, keeper, rendered));
      && Ordered(after, entries[..|entries| - 1]) && from <= |after|
      && Substituted(after, entries[..|entries| - 1], keeper, rendered, from)
         == Substituted(content, entries, keeper, rendered, from)
    decreases |entries|
  {
    var last, before := entries[|entries| - 1], entries[..|entries| - 1];
    var text := Replacement(last, keeper, rendered);
    StillOrdered(content, entries, text);
    StartsBelow(content, entries);
    FrontKept(content, last, text, from, from);
    if |entries| == 1 {
      OneSpan(content, last, keeper, rendered, from);
    } else {
      assert entries[1..][..|entries| - 2] == before[1..];
      LastFirst(content, entries[1..], keeper, rendered, entries[0].end);
      FrontKept(content, last, text, from, entries[0].start);
    }
  }

  lemma OneSpan(content: string, e: Entry, keeper: Entry, rendered: string, from: nat)
    requires from <= e.start < e.end <= |content|
    ensures Substituted(content, [e], keeper, rendered, from)
         == Splice(content, e, Replacement(e, keeper, rendered))[from..]
  {
    assert [e][1..] == [];
  }

  lemma {:induction false} StartsBelow(content: string, entries: seq<Entry>)
    requires entries != [] && Ordered(content, entries)
    ensures forall i :: 0 <= i < |entries| - 1 ==> entries[i].end <= entries[|entries| - 1].start
    decreases |entries|
  {
    if |entries| > 1 {
      var before := entries[..|entries| - 1];
      StartsBelow(content, before);
      assert forall i :: 0 <= i < |before| ==> before[i] == entries[i];
    }
  }

  /** With ordered spans the rewrite from the last to the first is the simultaneous substitution:
      the kept span becomes the rendered entry, the others vanish, the text outside the spans stays. */
  lemma {:induction false} BackwardsIsSimultaneous(content: string, entries: seq<Entry>, keeper: Entry,
                                                   rendered: string)
    requires Ordered(content, entries)
    ensures Rewrite(content, Descending(entries), keeper, rendered)
             == Substituted(content, entries, keeper, rendered, 0)
    decreases |entries|
  {
    DescendingIsReversed(content, entries);
    if entries != [] {
      var last, before := entries[|entries| - 1], entries[..|entries| - 1];
      var after := Splice(content, last, Replacement(last, keeper, rendered));
      LastFirst(content, entries, keeper, rendered, 0);
      DescendingIsReversed(after, before);
      BackwardsIsSimultaneous(after, before, keeper, rendered);
      assert Reversed(entries)[1..] == Reversed(before);
    }
  }

  // ---------------------------------------------------------------- the whole merge

  /** main: with fewer than two entries there is nothing to merge.  `render` makes the one entry that
      stays from the merged targets and the position of the span it replaces. */
  method Merge(content: string, matches: seq<Match>, render: (seq<string>, nat) -> string)
    returns (result: Option<string>)
    requires InOrder(content, matches)
    ensures result.None? <==> |matches| < 2
    ensures result.Some? ==>
      exists k: nat :: IsKeeper(Entries(content, matches), k) && Rewritten(content, matches, k, render, result.value)
    ensures result.Some? && OwnLines(content, matches) ==>
      exists k: nat :: IsKeeper(Entries(content, matches), k) && Merged(content, matches, k, render, result.value)
  {
    if |matches| < 2 { return None; }
    var entries := FindEntries(content, matches);
    var k := FindKeeper(entries);
    var merged := MergeTargets(entries);
    var order := SortDescending(entries);
    var rendered := render(merged, entries[k].start);
    var text := RewriteBackwards(content, order, entries[k], rendered);
    result := Some(text);
    assert Rewritten(content, matches, k, render, text);
    if OwnLines(content, matches) {
      SpansOrderedIff(content, matches);
      BackwardsIsSimultaneous(content, entries, entries[k], rendered);
      assert Merged(content, matches, k, render, text);
    }
  }

  /** The spans replaced one by one from the last start to the first, wherever they are. */
  ghost predicate Rewritten(content: string, matches: seq<Match>, k: nat, render: (seq<string>, nat) -> string,
                            result: string)
    requires InOrder(content, matches)
  {
    var entries := Entries(content, matches);
    && k < |entries|
    && result == Rewrite(content, Descending(entries), entries[k],
         render(Dedup(FlatMap(entries, TargetsOf)), entries[k].start))
  }

  /** The result of a merge that keeps entry k: its span becomes the entry with all targets, the
      other spans are gone, the text outside the spans is as before. */
  ghost predicate Merged(content: string, matches: seq<Match>, k: nat, render: (seq<string>, nat) -> string,
                         result: string)
    requires InOrder(content, matches)
  {
    var entries := Entries(content, matches);
    && Ordered(content, entries) && k < |entries|
    && result == Substituted(content, entries, entries[k],
         render(Dedup(FlatMap(entries, TargetsOf)), entries[k].start), 0)
  }

  method SortDescending(entries: seq<Entry>) returns (sorted: seq<Entry>)
    ensures sorted == Descending(entries)
  {
    sorted := [];
    for i := 0 to |entries|
      invariant sorted == Descending(entries[..i])
    {
      assert entries[..i + 1][..i] == entries[..i];
      sorted := Insert(entries[i], sorted);
    }
    assert entries[..|entries|] == entries;
  }

  /** Two entries on one line: the span of the second starts at or before the first's brace, so
      the first rewrite removes text of the first entry too. */
  lemma SharedLineOverlaps(content: string, m: Match, n: Match)
    requires Closed(content, m) && Closed(content, n) && m.close < n.start
    requires '\n' !in content[m.close + 1..n.start]
    ensures EntryOf(content, n).start <= m.close
  {
    assert content[m.close] == '}';
    var s := LineStart(content, n.start);
    assert forall i :: m.close < i < n.start ==> content[i] == content[m.close + 1..n.start][i - m.close - 1];
  }

  /** An entry of another kind in front of the second jwt entry on its line: a line break separates
      the two jwt entries, and the merge removes the other one with the second. */
  lemma OtherEntryRemoved(rendered: string, content: string, a: Match, c: Match)
    requires content == "a={}\nb={},c={}" && a == Match(0, 3, ["x"]) && c == Match(10, 13, [])
    ensures InOrder(content, [a, c]) && OwnLines(content, [a, c]) && !StartLines(content, [a, c])
    ensures EntryOf(content, a) == Entry(0, 5, ["x"]) && EntryOf(content, c) == Entry(5, 14, [])
    ensures content[5..10] == "b={},"
    ensures var entries := [EntryOf(content, a), EntryOf(content, c)];
      Rewrite(content, Descending(entries), entries[0], rendered) == rendered
  {
    assert content[3] == '}' && content[13] == '}' && content[4] == '\n' && |content| == 14;
    assert content[4..10][0] == '\n';
    SpansOfTheCase(content);
    assert !IsIndent(content[5]) && !StartsItsLine(content, c) && [a, c][1] == c;
    NothingLeft(content, Entry(0, 5, ["x"]), Entry(5, 14, []), rendered);
  }

  lemma NothingLeft(content: string, e: Entry, f: Entry, rendered: string)
    requires |content| == 14 && e.start == 0 && e.end == f.start == 5 && f.end == 14
    ensures Rewrite(content, Descending([e, f]), e, rendered) == rendered
  {
    BackwardsIsSimultaneous(content, [e, f], e, rendered);
    assert [e, f][1..] == [f] && [f][1..] == [];
    assert Substituted(content, [f], e, rendered, 5) == content[5..5] + "" + content[14..];
    assert content[0..0] + rendered + "" == rendered;
  }

  lemma SpansOfTheCase(content: string)
    requires content == "a={}\nb={},c={}"
    ensures LineStart(content, 10) == 5 && LineStart(content, 0) == 0
    ensures Tail(content, 4) == 5 && Tail(content, 14) == 14
  {
    assert content[4] == '\n';
    var r := LineStart(content, 10);
    assert forall i :: 5 <= i < 10 ==> content[i] != '\n';
    assert r <= 5 ==> r == 5 || r <= 4;
  }
}
