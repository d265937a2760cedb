/** What the string methods do, letter by letter. */
module PyTextTheorems {
  import opened PyText

  const UPPER := "ABCDEFGHIJKLMNOPQRSTUVWXYZ"
  const LOWER := "abcdefghijklmnopqrstuvwxyz"
  const BLANKS: set<char> := {' ', '\t', '\n', '\r'}

  lemma {:induction false} LowerLetters(s: string)
    ensures forall i :: 0 <= i < |s| ==>
      Lower(s)[i] == if 'A' <= s[i] <= 'Z' then LOWER[s[i] as int - 'A' as int] else s[i]
    decreases |s|
  {
    if s != "" { LowerLetters(s[1..]); }
  }

  lemma {:induction false} UpperLetters(s: string)
    ensures forall i :: 0 <= i < |s| ==>
      Upper(s)[i] == if 'a' <= s[i] <= 'z' then UPPER[s[i] as int - 'a' as int] else s[i]
    decreases |s|
  {
    if s != "" { UpperLetters(s[1..]); }
  }

  predicate Blanks(s: string) { forall i :: 0 <= i < |s| ==> s[i] in BLANKS }

  /** No blank at either end. */
  predicate Trimmed(s: string) { s == "" || (s[0] !in BLANKS && s[|s| - 1] !in BLANKS) }

  lemma {:induction false} LeftTrims(s: string) returns (front: string)
    ensures s == front + StripLeft(s) && Blanks(front)
    ensures StripLeft(s) == "" || StripLeft(s)[0] !in BLANKS
    decreases |s|
  {
    if s != "" && IsBlank(s[0]) {
      var rest := LeftTrims(s[1..]);
      front := [s[0]] + rest;
      assert s == [s[0]] + s[1..];
    } else {
      front := "";
    }
  }

  lemma {:induction false} RightTrims(s: string) returns (back: string)
    ensures s == StripRight(s) + back && Blanks(back)
    ensures StripRight(s) == "" || StripRight(s)[|StripRight(s)| - 1] !in BLANKS
    decreases |s|
  {
    if s != "" && IsBlank(s[|s| - 1]) {
      var rest := RightTrims(s[..|s| - 1]);
      back := rest + [s[|s| - 1]];
      assert s == s[..|s| - 1] + [s[|s| - 1]];
    } else {
      back := "";
    }
  }

  /** strip() takes blanks off both ends and nothing else. */
  lemma StripTrims(s: string) returns (front: string, back: string)
    ensures s == front + Strip(s) + back && Blanks(front) && Blanks(back) && Trimmed(Strip(s))
  {
    front := LeftTrims(s);
    back := RightTrims(StripLeft(s));
    assert front + (Strip(s) + back) == front + Strip(s) + back;
    if Strip(s) != "" { assert StripLeft(s)[0] == Strip(s)[0]; }
  }

  /** `low` is `s` with every capital replaced by its small letter. */
  predicate LowOf(s: string, low: string) {
    && |low| == |s|
    && forall i :: 0 <= i < |s| ==> low[i] == if 'A' <= s[i] <= 'Z' then LOWER[s[i] as int - 'A' as int] else s[i]
  }

  /** What is left of the first letter that is not blank is in front of the middle. */
  lemma FrontIsShorter(s: string, front: string, middle: string, back: string, f: string, rest: string)
    requires s == front + middle + back && middle != "" && middle[0] !in BLANKS
    requires s == f + rest && Blanks(f)
    ensures |f| <= |front|
  {
    assert s[|front|] == middle[0];
    assert forall i :: 0 <= i < |f| ==> s[i] == f[i];
  }

  lemma BackIsShorter(s: string, front: string, middle: string, back: string, b: string, rest: string)
    requires s == front + middle + back && middle != "" && middle[|middle| - 1] !in BLANKS
    requires s == rest + b && Blanks(b)
    ensures |b| <= |back|
  {
    assert s[|front| + |middle| - 1] == middle[|middle| - 1];
    assert forall i :: |rest| <= i < |s| ==> s[i] == b[i - |rest|];
  }

  /** A name has one text between its blanks. */
  lemma OneMiddle(s: string, front: string, middle: string, back: string, f: string, m: string, b: string)
    requires s == front + middle + back && Blanks(front) && Blanks(back) && Trimmed(middle)
    requires s == f + m + b && Blanks(f) && Blanks(b) && Trimmed(m)
    ensures middle == m
  {
    assert s == f + (m + b) && s == front + (middle + back);
    if middle == "" || m == "" {
      AllBlank(s, front, middle, back);
      AllBlank(s, f, m, b);
    } else {
      FrontIsShorter(s, front, middle, back, f, m + b);
      FrontIsShorter(s, f, m, b, front, middle + back);
      BackIsShorter(s, front, middle, back, b, f + m);
      BackIsShorter(s, f, m, b, back, front + middle);
      assert middle == s[|front|..|s| - |back|] && m == s[|f|..|s| - |b|];
    }
  }

  /** Nothing is left between the blanks exactly when all is blank. */
  lemma AllBlank(s: string, front: string, middle: string, back: string)
    requires s == front + middle + back && Blanks(front) && Blanks(back) && Trimmed(middle)
    ensures middle == "" <==> Blanks(s)
  {
    if middle != "" { assert s[|front|] == middle[0]; }
  }

  lemma {:induction false} ReplaceLetters(s: string, from: char, to: char)
    ensures |Replace(s, from, to)| == |s|
    ensures forall i :: 0 <= i < |s| ==> Replace(s, from, to)[i] == if s[i] == from then to else s[i]
    decreases |s|
  {
    if s != "" { ReplaceLetters(s[1..], from, to); }
  }
}
