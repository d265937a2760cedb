/** The merge of the jwt entries read off the file's characters: which of them the spans sweep away,
    what is left, where the rendered entry stands, and the order of the targets. */
module JwtColumns {
  import opened Sequences
  import opened JwtSplice

  // ---------------------------------------------------------------- the characters swept away

  /** Position p goes with an entry: in front of its closing brace with no line break up to its key, or
      behind it with only commas, blanks and tabs up to p, which is one of them or the first line end. */
  ghost predicate Swept(content: string, m: Match, p: int)
    requires Closed(content, m)
  {
    && 0 <= p < |content|
    && (p <= m.close ==> forall j :: p <= j < m.start ==> content[j] != '\n')
    && (p > m.close ==>
          && (forall j :: m.close < j < p ==> content[j] == ',' || content[j] == ' ' || content[j] == '\t')
          && (content[p] == ',' || content[p] == ' ' || content[p] == '\t' || content[p] == '\n'))
  }

  lemma SweptIff(content: string, m: Match, p: int)
    requires Closed(content, m)
    ensures Swept(content, m, p) <==> EntryOf(content, m).start <= p < EntryOf(content, m).end
  {
    var start, skipped := LineStart(content, m.start), SkipSeparators(content, m.close + 1);
    if 0 <= p <= m.close {
      assert p < start ==> p <= start - 1 < m.start && content[start - 1] == '\n';
    } else if m.close < p < |content| {
      assert p > skipped ==> m.close < skipped < p && !IsSeparator(content[skipped]);
    }
  }

  /** No line break from p up to q. */
  predicate SameLine(content: string, p: int, q: int) {
    0 <= p <= q <= |content| && forall j :: p <= j < q ==> content[j] != '\n'
  }

  /** Nothing but blanks and tabs between the last line break and the key. */
  lemma StartsItsLineIff(content: string, m: Match)
    requires Closed(content, m)
    ensures StartsItsLine(content, m)
       <==> forall p :: p < m.start && SameLine(content, p, m.start) ==> content[p] == ' ' || content[p] == '\t'
  {
    var start := LineStart(content, m.start);
    forall p | 0 <= p < m.start ensures start <= p <==> SameLine(content, p, m.start) {
      assert p < start ==> p <= start - 1 < m.start && content[start - 1] == '\n';
    }
  }

  /** An entry's own characters: from its key to its closing brace, what goes with it behind that, and
      the blanks and tabs right in front of the key. */
  lemma BelongsIff(content: string, m: Match, p: int)
    requires Closed(content, m)
    ensures Belongs(content, m, p)
       <==> || m.start <= p <= m.close
            || (p > m.close && Swept(content, m, p))
            || (0 <= p < m.start && forall j :: p <= j < m.start ==> content[j] == ' ' || content[j] == '\t')
  {
    SweptIff(content, m, p);
  }

  /** The characters from a up to b outside every span. */
  ghost function Outside(content: string, entries: seq<Entry>, a: int, b: int): string
    requires 0 <= a && b <= |content|
    decreases b - a
  {
    if a >= b then ""
    else Outside(content, entries, a, b - 1) + (if InSpan(entries, b - 1) then "" else [content[b - 1]])
  }

  lemma {:induction false} OutsideJoins(content: string, entries: seq<Entry>, a: int, b: int, c: int)
    requires 0 <= a <= b <= c <= |content|
    ensures Outside(content, entries, a, c) == Outside(content, entries, a, b) + Outside(content, entries, b, c)
    decreases c - b
  {
    if b < c { OutsideJoins(content, entries, a, b, c - 1); }
  }

  lemma {:induction false} OutsideGap(content: string, entries: seq<Entry>, a: int, b: int)
    requires 0 <= a <= b <= |content| && forall p :: a <= p < b ==> !InSpan(entries, p)
    ensures Outside(content, entries, a, b) == content[a..b]
    decreases b - a
  {
    if a < b {
      OutsideGap(content, entries, a, b - 1);
      assert content[a..b] == content[a..b - 1] + [content[b - 1]];
    }
  }

  lemma {:induction false} OutsideSpan(content: string, entries: seq<Entry>, k: nat, a: int, b: int)
    requires k < |entries| && entries[k].start <= a <= b <= entries[k].end <= |content|
    ensures Outside(content, entries, a, b) == ""
    decreases b - a
  {
    if a < b {
      OutsideSpan(content, entries, k, a, b - 1);
      assert InSpan(entries, b - 1);
    }
  }

  // ---------------------------------------------------------------- what the substitution leaves

  /** `from` lies between the spans in front of the i-th and the i-th. */
  predicate Between(content: string, entries: seq<Entry>, i: nat, from: nat) {
    && i <= |entries| && from <= |content|
    && (i > 0 ==> entries[i - 1].end <= from)
    && (i < |entries| ==> from <= entries[i].start)
  }

  lemma GapIsOutside(content: string, entries: seq<Entry>, i: nat, from: nat, to: nat)
    requires Ordered(content, entries) && Between(content, entries, i, from) && Between(content, entries, i, to)
    requires from <= to
    ensures Outside(content, entries, from, to) == content[from..to]
  {
    forall p | from <= p < to ensures !InSpan(entries, p) {
      forall k | 0 <= k < |entries| ensures !(entries[k].start <= p < entries[k].end) {
        if k < i - 1 { EndsBefore(content, entries, k, i - 1); }
        if k > i { EndsBefore(content, entries, i, k); }
      }
    }
    OutsideGap(content, entries, from, to);
  }

  /** Past a span only what stands in front of it is outside. */
  lemma Pass(content: string, entries: seq<Entry>, i: nat, from: nat, to: nat)
    requires Ordered(content, entries) && i < |entries| && Between(content, entries, i, from)
    requires entries[i].end <= to <= |content|
    ensures Outside(content, entries, from, entries[i].start) == content[from..entries[i].start]
    ensures Outside(content, entries, from, to)
         == content[from..entries[i].start] + Outside(content, entries, entries[i].end, to)
  {
    var e := entries[i];
    GapIsOutside(content, entries, i, from, e.start);
    OutsideSpan(content, entries, i, e.start, e.end);
    OutsideJoins(content, entries, from, e.start, to);
    OutsideJoins(content, entries, e.start, e.end, to);
  }

  lemma SuffixOrdered(content: string, entries: seq<Entry>, i: nat)
    requires Ordered(content, entries) && i <= |entries|
    ensures Ordered(content, entries[i..])
  {
  }

  lemma OneMore(content: string, entries: seq<Entry>, i: nat, keeper: Entry, rendered: string, from: nat)
    requires Ordered(content, entries) && i < |entries| && Between(content, entries, i, from)
    ensures Ordered(content, entries[i..]) && Ordered(content, entries[i + 1..])
    ensures Between(content, entries, i + 1, entries[i].end)
    ensures Substituted(content, entries[i..], keeper, rendered, from)
         == content[from..entries[i].start] + Replacement(entries[i], keeper, rendered)
            + Substituted(content, entries[i + 1..], keeper, rendered, entries[i].end)
  {
    SuffixOrdered(content, entries, i);
    SuffixOrdered(content, entries, i + 1);
    assert entries[i..][1..] == entries[i + 1..];
  }

  /** Behind the kept entry the substitution leaves what is outside the spans. */
  lemma {:induction false} RestIsLeft(content: string, entries: seq<Entry>, k: nat, rendered: string, i: nat, from: nat)
    requires Ordered(content, entries) && k < i && Between(content, entries, i, from)
    ensures Ordered(content, entries[i..])
    ensures Substituted(content, entries[i..], entries[k], rendered, from)
         == Outside(content, entries, from, |content|)
    decreases |entries| - i
  {
    if i == |entries| {
      GapIsOutside(content, entries, i, from, |content|);
      assert entries[i..] == [];
    } else {
      OneMore(content, entries, i, entries[k], rendered, from);
      RestIsLeft(content, entries, k, rendered, i + 1, entries[i].end);
      OneSpanGone(content, entries, k, rendered, i, from, Outside(content, entries, entries[i].end, |content|));
    }
  }

  lemma OneSpanGone(content: string, entries: seq<Entry>, k: nat, rendered: string, i: nat, from: nat, rest: string)
    requires Ordered(content, entries) && k < i < |entries| && Between(content, entries, i, from)
    requires entries[i].end <= |content| && rest == Outside(content, entries, entries[i].end, |content|)
    ensures content[from..entries[i].start] + Replacement(entries[i], entries[k], rendered) + rest
         == Outside(content, entries, from, |content|)
  {
    EndsBefore(content, entries, k, i);
    Pass(content, entries, i, from, |content|);
    NothingBetween(content[from..entries[i].start], rest);
  }

  /** From any entry up to the kept one on: what is outside the spans, with the rendered entry in place
      of the kept span. */
  lemma {:induction false} KeptStandsAlone(content: string, entries: seq<Entry>, k: nat, rendered: string, i: nat,
                                           from: nat)
    requires Ordered(content, entries) && i <= k < |entries| && Between(content, entries, i, from)
    ensures Ordered(content, entries[i..]) && from <= entries[k].start
    ensures Substituted(content, entries[i..], entries[k], rendered, from)
         == Outside(content, entries, from, entries[k].start) + rendered
            + Outside(content, entries, entries[k].end, |content|)
    decreases k - i
  {
    OneMore(content, entries, i, entries[k], rendered, from);
    var next := entries[i].end;
    if i == k {
      Pass(content, entries, i, from, |content|);
      RestIsLeft(content, entries, k, rendered, k + 1, next);
    } else {
      EndsBefore(content, entries, i, k);
      Pass(content, entries, i, from, entries[k].start);
      KeptStandsAlone(content, entries, k, rendered, i + 1, next);
      InFront(content[from..entries[i].start], Outside(content, entries, next, entries[k].start), rendered,
              Outside(content, entries, entries[k].end, |content|));
    }
  }

  lemma NothingBetween(front: string, back: string)
    ensures front + "" + back == front + back
  {
  }

  lemma InFront(front: string, middle: string, rendered: string, back: string)
    ensures front + "" + (middle + rendered + back) == (front + middle) + rendered + back
  {
  }

  // ---------------------------------------------------------------- the merged file

  /** The characters from a up to b that no entry takes with it. */
  ghost function Left(content: string, matches: seq<Match>, a: int, b: int): string
    requires InOrder(content, matches) && 0 <= a && b <= |content|
    decreases b - a
  {
    if a >= b then ""
    else Left(content, matches, a, b - 1) + (if Gone(content, matches, b - 1) then "" else [content[b - 1]])
  }

  ghost predicate Gone(content: string, matches: seq<Match>, p: int)
    requires InOrder(content, matches)
  {
    exists k :: 0 <= k < |matches| && Swept(content, matches[k], p)
  }

  lemma GoneIff(content: string, matches: seq<Match>, p: int)
    requires InOrder(content, matches)
    ensures Gone(content, matches, p) <==> InSpan(Entries(content, matches), p)
  {
    var entries := Entries(content, matches);
    forall k | 0 <= k < |matches|
      ensures Swept(content, matches[k], p) <==> entries[k].start <= p < entries[k].end
    {
      SweptIff(content, matches[k], p);
    }
  }

  lemma AllGone(content: string, matches: seq<Match>, entries: seq<Entry>)
    requires InOrder(content, matches) && entries == Entries(content, matches)
    ensures forall p :: Gone(content, matches, p) <==> InSpan(entries, p)
  {
    forall p ensures Gone(content, matches, p) <==> InSpan(entries, p) { GoneIff(content, matches, p); }
  }

  lemma {:induction false} LeftIsOutside(content: string, matches: seq<Match>, entries: seq<Entry>, a: int, b: int)
    requires InOrder(content, matches) && 0 <= a && b <= |content|
    requires forall p :: a <= p < b ==> (Gone(content, matches, p) <==> InSpan(entries, p))
    ensures Left(content, matches, a, b) == Outside(content, entries, a, b)
    decreases b - a
  {
    if a < b { LeftIsOutside(content, matches, entries, a, b - 1); }
  }

  lemma LeftIs(content: string, matches: seq<Match>, entries: seq<Entry>, a: int, b: int)
    requires InOrder(content, matches) && 0 <= a && b <= |content| && entries == Entries(content, matches)
    ensures Left(content, matches, a, b) == Outside(content, entries, a, b)
  {
    AllGone(content, matches, entries);
    LeftIsOutside(content, matches, entries, a, b);
  }

  /** The merged file, character by character: in front of the kept entry what no entry takes with it,
      then the rendered entry, then what no entry takes with it behind the kept one. */
  lemma MergedIs(content: string, matches: seq<Match>, k: nat, render: (seq<string>, nat) -> string,
                 rendered: string, result: string)
    requires InOrder(content, matches) && k < |matches| && Merged(content, matches, k, render, result)
    requires rendered == render(Dedup(FlatMap(Entries(content, matches), TargetsOf)),
                                LineStart(content, matches[k].start))
    ensures result == Left(content, matches, 0, matches[k].start) + rendered
                      + Left(content, matches, matches[k].close + 1, |content|)
  {
    SubstitutedIs(content, matches, Entries(content, matches), k, rendered, matches[k]);
  }

  lemma SubstitutedIs(content: string, matches: seq<Match>, entries: seq<Entry>, k: nat, rendered: string, m: Match)
    requires InOrder(content, matches) && Ordered(content, entries) && k < |entries|
    requires entries == Entries(content, matches) && m == matches[k]
    ensures Substituted(content, entries, entries[k], rendered, 0)
         == Left(content, matches, 0, m.start) + rendered + Left(content, matches, m.close + 1, |content|)
  {
    var a, b := m.start, m.close + 1;
    AroundTheKept(content, entries, k, rendered, a, b);
    LeftIs(content, matches, entries, 0, a);
    LeftIs(content, matches, entries, b, |content|);
  }

  lemma AroundTheKept(content: string, entries: seq<Entry>, k: nat, rendered: string, a: nat, b: nat)
    requires Ordered(content, entries) && k < |entries|
    requires entries[k].start <= a <= b <= entries[k].end
    ensures Substituted(content, entries, entries[k], rendered, 0)
         == Outside(content, entries, 0, a) + rendered + Outside(content, entries, b, |content|)
  {
    assert entries[0..] == entries;
    KeptStandsAlone(content, entries, k, rendered, 0, 0);
    UpTo(content, entries, k, a);
    From(content, entries, k, b);
  }

  /** Inside its span it does not matter where an entry is cut. */
  lemma UpTo(content: string, entries: seq<Entry>, k: nat, a: nat)
    requires k < |entries| && entries[k].start <= a <= entries[k].end <= |content|
    ensures Outside(content, entries, 0, a) == Outside(content, entries, 0, entries[k].start)
  {
    OutsideSpan(content, entries, k, entries[k].start, a);
    OutsideJoins(content, entries, 0, entries[k].start, a);
  }

  lemma From(content: string, entries: seq<Entry>, k: nat, b: nat)
    requires k < |entries| && entries[k].start <= b <= entries[k].end <= |content|
    ensures Outside(content, entries, b, |content|) == Outside(content, entries, entries[k].end, |content|)
  {
    OutsideSpan(content, entries, k, b, entries[k].end);
    OutsideJoins(content, entries, b, entries[k].end, |content|);
  }

  // ---------------------------------------------------------------- the targets

  /** t stands in entry i at place j, and nowhere before. */
  ghost predicate FirstAt(entries: seq<Entry>, t: string, i: int, j: int) {
    && 0 <= i < |entries| && 0 <= j < |entries[i].targets| && entries[i].targets[j] == t
    && (forall x :: 0 <= x < j ==> entries[i].targets[x] != t)
    && forall y :: 0 <= y < i ==> t !in entries[y].targets
  }

  /** Where the targets of entry i begin in the list of all. */
  lemma {:induction false} FlatAt(entries: seq<Entry>, i: nat, j: nat)
    requires i < |entries| && j < |entries[i].targets|
    ensures var all, before := FlatMap(entries, TargetsOf), FlatMap(entries[..i], TargetsOf);
      |before| + |entries[i].targets| <= |all| && all[|before| + j] == entries[i].targets[j]
      && all[..|before|] == before
    decreases |entries|
  {
    var shorter := entries[..|entries| - 1];
    if i < |shorter| {
      FlatAt(shorter, i, j);
      assert shorter[..i] == entries[..i];
    }
  }

  lemma FirstInAll(entries: seq<Entry>, t: string, i: nat, j: nat)
    requires FirstAt(entries, t, i, j)
    ensures FirstIndex(FlatMap(entries, TargetsOf), x => x, t) == |FlatMap(entries[..i], TargetsOf)| + j
  {
    var all, before := FlatMap(entries, TargetsOf), FlatMap(entries[..i], TargetsOf);
    FlatAt(entries, i, j);
    forall p | 0 <= p < |before| + j ensures all[p] != t { OthersBefore(entries, t, i, j, p); }
    FirstIs(all, t, |before| + j);
  }

  lemma OthersBefore(entries: seq<Entry>, t: string, i: nat, j: nat, p: nat)
    requires FirstAt(entries, t, i, j) && p < |FlatMap(entries[..i], TargetsOf)| + j
    ensures p < |FlatMap(entries, TargetsOf)| && FlatMap(entries, TargetsOf)[p] != t
  {
    var all, before := FlatMap(entries, TargetsOf), FlatMap(entries[..i], TargetsOf);
    if p < |before| {
      FlatAt(entries, i, j);
      NotBefore(entries, t, i);
      assert all[p] == before[p];
    } else {
      FlatAt(entries, i, p - |before|);
    }
  }

  lemma FirstIs(s: seq<string>, t: string, k: nat)
    requires k < |s| && s[k] == t && forall p :: 0 <= p < k ==> s[p] != t
    ensures FirstIndex(s, x => x, t) == k
  {
    KeyIsMember(s, t);
  }

  lemma NotBefore(entries: seq<Entry>, t: string, i: nat)
    requires i <= |entries| && forall y :: 0 <= y < i ==> t !in entries[y].targets
    ensures t !in FlatMap(entries[..i], TargetsOf)
  {
    InTargets(entries[..i], t);
  }

  /** The merged targets come in the order of their first occurrences: by entry, then by place. */
  lemma MergedInOrder(entries: seq<Entry>, p: nat, q: nat, i: nat, j: nat, y: nat, z: nat)
    requires p < q < |Dedup(FlatMap(entries, TargetsOf))|
    requires FirstAt(entries, Dedup(FlatMap(entries, TargetsOf))[p], i, j)
    requires FirstAt(entries, Dedup(FlatMap(entries, TargetsOf))[q], y, z)
    ensures i < y || (i == y && j < z)
  {
    var all := FlatMap(entries, TargetsOf);
    var merged := Dedup(all);
    DedupOrder(all, p, q);
    FirstInAll(entries, merged[p], i, j);
    FirstInAll(entries, merged[q], y, z);
    if i > y { LongerList(entries, y, i); }
    if i < y { LongerList(entries, i, y); }
  }

  lemma {:induction false} LongerList(entries: seq<Entry>, y: nat, i: nat)
    requires y < i <= |entries|
    ensures |FlatMap(entries[..y], TargetsOf)| + |entries[y].targets| <= |FlatMap(entries[..i], TargetsOf)|
    decreases i
  {
    var one := entries[..i];
    assert one[..i - 1] == entries[..i - 1];
    if y < i - 1 { LongerList(entries, y, i - 1); }
  }

  // ---------------------------------------------------------------- the order of the rewrite

  /** The places list the entries by descending start, those with one start in the order given. */
  ghost predicate Downwards(entries: seq<Entry>, places: seq<nat>) {
    && (forall i :: 0 <= i < |places| ==> places[i] < |entries|)
    && forall i, j :: 0 <= i < j < |places| ==>
         || entries[places[i]].start > entries[places[j]].start
         || (entries[places[i]].start == entries[places[j]].start && places[i] < places[j])
  }

  lemma {:induction false} DescendingIs(entries: seq<Entry>) returns (places: seq<nat>)
    ensures |places| == |Descending(entries)| == |entries| && Downwards(entries, places)
    ensures forall i :: 0 <= i < |places| ==> Descending(entries)[i] == entries[places[i]]
    decreases |entries|
  {
    if entries == [] {
      places := [];
    } else {
      var last := |entries| - 1;
      var rest := DescendingIs(entries[..last]);
      var sorted := Descending(entries[..last]);
      DescendingFalls(entries[..last]);
      var at := InsertedAt(entries[last], sorted);
      places := rest[..at] + [last] + rest[at..];
      PlacesExtend(entries, rest, at, places, sorted, Descending(entries));
    }
  }

  lemma {:induction false} DescendingFalls(entries: seq<Entry>)
    ensures StartsFall(Descending(entries))
    decreases |entries|
  {
    if entries != [] {
      DescendingFalls(entries[..|entries| - 1]);
      var at := InsertedAt(entries[|entries| - 1], Descending(entries[..|entries| - 1]));
    }
  }

  lemma PlacesExtend(entries: seq<Entry>, rest: seq<nat>, at: nat, places: seq<nat>, sorted: seq<Entry>,
                     result: seq<Entry>)
    requires entries != [] && Downwards(entries[..|entries| - 1], rest) && at <= |rest| == |sorted|
    requires forall i :: 0 <= i < |rest| ==> sorted[i] == entries[rest[i]]
    requires forall i :: 0 <= i < at ==> sorted[i].start >= entries[|entries| - 1].start
    requires forall i :: at <= i < |sorted| ==> sorted[i].start < entries[|entries| - 1].start
    requires places == rest[..at] + [|entries| - 1] + rest[at..]
    requires result == sorted[..at] + [entries[|entries| - 1]] + sorted[at..]
    ensures Downwards(entries, places) && |result| == |places|
    ensures forall i :: 0 <= i < |places| ==> result[i] == entries[places[i]]
  {
    var shorter := entries[..|entries| - 1];
    assert forall i :: 0 <= i < |rest| ==> rest[i] < |shorter| && shorter[rest[i]] == entries[rest[i]];
  }

  predicate StartsFall(sorted: seq<Entry>) {
    forall i, j :: 0 <= i < j < |sorted| ==> sorted[i].start >= sorted[j].start
  }

  /** Behind every entry that does not start further up. */
  lemma {:induction false} InsertedAt(e: Entry, sorted: seq<Entry>) returns (at: nat)
    requires StartsFall(sorted)
    ensures at <= |sorted| && Insert(e, sorted) == sorted[..at] + [e] + sorted[at..]
    ensures forall i :: 0 <= i < at ==> sorted[i].start >= e.start
    ensures forall i :: at <= i < |sorted| ==> sorted[i].start < e.start
    decreases |sorted|
  {
    if sorted == [] || sorted[0].start < e.start {
      at := 0;
    } else {
      at := InsertedAt(e, sorted[1..]);
      at := at + 1;
    }
  }

  /** Two entries on one line have one start, so the first is replaced first and the second's end then
      cuts into what stands there: kept, the first loses its front or all of it; kept, the second is
      followed by what is left behind the same offset. */
  lemma SharedLineCuts(content: string, e: Entry, f: Entry, rendered: string)
    requires e.start == f.start < e.end < f.end <= |content|
    ensures var order, front := Descending([e, f]), content[..e.start];
      && Rewrite(content, order, e, rendered) == front + Behind(front + rendered + content[e.end..], f.end)
      && Rewrite(content, order, f, rendered) == front + rendered + Behind(front + content[e.end..], f.end)
  {
    assert [e, f][..1] == [e] && [e][..0] == [] && [e][1..] == [];
    assert Descending([e]) == [e];
    assert Insert(f, [e]) == [e] + Insert(f, []);
    assert Descending([e, f]) == Insert(f, [e]) == [e, f];
    TwoSplices(content, e, f, e, rendered);
    TwoSplices(content, e, f, f, rendered);
  }

  /** What stands in a text from an offset on. */
  function Behind(s: string, offset: nat): string { if offset <= |s| then s[offset..] else "" }

  lemma TwoSplices(content: string, e: Entry, f: Entry, keeper: Entry, rendered: string)
    requires e.start == f.start < e.end < f.end <= |content|
    ensures var front, first := content[..e.start], Replacement(e, keeper, rendered);
      Rewrite(content, [e, f], keeper, rendered)
      == front + Replacement(f, keeper, rendered) + Behind(front + first + content[e.end..], f.end)
  {
    var once := Splice(content, e, Replacement(e, keeper, rendered));
    assert [e, f][1..] == [f];
    OneSplice(once, f, keeper, rendered);
    assert once == content[..e.start] + Replacement(e, keeper, rendered) + content[e.end..];
    assert once[..e.start] == content[..e.start];
  }

  lemma OneSplice(content: string, f: Entry, keeper: Entry, rendered: string)
    requires f.start <= |content|
    ensures Rewrite(content, [f], keeper, rendered)
         == content[..f.start] + Replacement(f, keeper, rendered) + Behind(content, f.end)
  {
    assert [f][1..] == [];
    assert Rewrite(content, [f], keeper, rendered) == Splice(content, f, Replacement(f, keeper, rendered));
  }

  lemma NoLonger(entries: seq<Entry>, k: nat, i: nat)
    requires IsKeeper(entries, k) && i < |entries|
    ensures |entries[i].targets| <= |entries[k].targets| && (i < k ==> |entries[i].targets| < |entries[k].targets|)
  {
  }

  /** Only one entry can be kept: the first of those with the most targets. */
  lemma OneKeeper(entries: seq<Entry>, k: nat, l: nat)
    requires IsKeeper(entries, k) && IsKeeper(entries, l)
    ensures k == l
  {
    NoLonger(entries, k, l);
    NoLonger(entries, l, k);
  }

  /** Python's slices past the end are empty. */
  lemma SpliceClamps(content: string, e: Entry, text: string)
    ensures e.start >= |content| ==> Splice(content, e, text)[..|content| + |text|] == content + text
    ensures e.start <= |content| ==> Splice(content, e, text)[..e.start + |text|] == content[..e.start] + text
    ensures e.end >= |content| ==> |Splice(content, e, text)| == Min(e.start, |content|) + |text|
    ensures e.end <= |content| ==> Splice(content, e, text)[Min(e.start, |content|) + |text|..] == content[e.end..]
  {
  }
}
