/** resolve_service of scripts/import_kong_routes_from_terragrunt.py, read off the label's letters and
    the columns of the catalogue. */
module ServiceColumns {
  import opened Wrappers
  import opened PyText
  import opened PyTextTheorems
  import opened KongImport
  import opened ServiceResolution

  // ---------------------------------------------------------------- the normal form of a name

  /** The part in front of "-service", or all of a name that does not end so. */
  ghost predicate StemOf(s: string, stem: string) {
    s == stem + "-service" || (s == stem && forall t: string :: s != t + "-service")
  }

  lemma StripSuffixIff(s: string, stem: string)
    ensures StripSuffix(s) == stem <==> StemOf(s, stem)
  {
    var cut := |s| - |"-service"|;
    if EndsWith(s, SERVICE_SUFFIX) {
      assert s == s[..cut] + "-service";
    }
    forall t: string | s == t + "-service" ensures EndsWith(s, SERVICE_SUFFIX) && StripSuffix(s) == t {
      assert s[|t|..] == "-service" && s[..|t|] == t;
    }
  }

  const DIGITS := "0123456789"

  lemma InFront<T>(head: seq<T>, a: seq<T>, x: seq<T>, b: seq<T>)
    ensures head + (a + x + b) == (head + a) + x + b
  {
  }

  /** A small letter or digit is kept where it stands, anything else goes. */
  lemma {:induction false} KeptLetters(a: string, x: char, b: string)
    ensures KeepAlphanumeric("") == ""
    ensures KeepAlphanumeric(a + [x] + b)
         == KeepAlphanumeric(a) + (if x in LOWER || x in DIGITS then [x] else "") + KeepAlphanumeric(b)
    decreases |a|
  {
    if a == "" {
      assert a + [x] + b == [x] + b;
      FirstLetter(x, b);
    } else {
      var rest := a[1..] + [x] + b;
      KeptLetters(a[1..], x, b);
      FirstLetter(a[0], rest);
      FirstLetter(a[0], a[1..]);
      InFront([a[0]], a[1..], [x], b);
      InFront(if a[0] in LOWER || a[0] in DIGITS then [a[0]] else "", KeepAlphanumeric(a[1..]),
              if x in LOWER || x in DIGITS then [x] else "", KeepAlphanumeric(b));
      assert a == [a[0]] + a[1..];
    }
  }

  lemma FirstLetter(x: char, b: string)
    ensures KeepAlphanumeric([x] + b) == (if x in LOWER || x in DIGITS then [x] else "") + KeepAlphanumeric(b)
  {
    assert ([x] + b)[1..] == b;
    InRange(LOWER, 'a', x);
    InRange(DIGITS, '0', x);
  }

  /** A stretch of the code table holds the characters from its first to its last. */
  lemma InRange(stretch: string, first: char, x: char)
    requires forall i :: 0 <= i < |stretch| ==> stretch[i] as int == first as int + i
    ensures x in stretch <==> 0 <= x as int - first as int < |stretch|
  {
    if 0 <= x as int - first as int < |stretch| { assert stretch[x as int - first as int] == x; }
  }

  /** The normal form: take the blanks off both ends, make the letters small, take one "-service" off
      the end and keep the small letters and digits. */
  lemma NormIs(s: string, front: string, middle: string, back: string, low: string, stem: string)
    requires s == front + middle + back && Blanks(front) && Blanks(back) && Trimmed(middle)
    requires LowOf(middle, low) && StemOf(low, stem)
    ensures Norm(s) == KeepAlphanumeric(stem)
  {
    var f, b := StripTrims(s);
    OneMiddle(s, front, middle, back, f, Strip(s), b);
    LowerLetters(middle);
    assert low == Lower(middle);
    StripSuffixIff(low, stem);
  }

  // ---------------------------------------------------------------- the rules in order

  /** A name is a candidate for its own normal form, in its place. */
  lemma {:induction false} CandidatesAre(a: seq<string>, name: string, b: seq<string>, n: string)
    ensures Candidates([], n) == []
    ensures Candidates(a + [name] + b, n)
         == Candidates(a, n) + (if Norm(name) == n then [name] else []) + Candidates(b, n)
    decreases |a|
  {
    if a == [] {
      assert a + [name] + b == [name] + b;
      FirstCandidate(name, b, n);
    } else {
      var rest := a[1..] + [name] + b;
      CandidatesAre(a[1..], name, b, n);
      FirstCandidate(a[0], rest, n);
      FirstCandidate(a[0], a[1..], n);
      InFront([a[0]], a[1..], [name], b);
      InFront(if Norm(a[0]) == n then [a[0]] else [], Candidates(a[1..], n), if Norm(name) == n then [name] else [],
              Candidates(b, n));
      assert a == [a[0]] + a[1..];
    }
  }

  lemma FirstCandidate(name: string, b: seq<string>, n: string)
    ensures Candidates([name] + b, n) == (if Norm(name) == n then [name] else []) + Candidates(b, n)
  {
    assert ([name] + b)[1..] == b;
  }

  lemma {:induction false} NoneBefore(names: seq<string>, n: string)
    requires forall k :: 0 <= k < |names| ==> Norm(names[k]) != n
    ensures Candidates(names, n) == []
    decreases |names|
  {
    if names != [] { NoneBefore(names[1..], n); }
  }

  /** None of the three rules that look for the name itself fires. */
  ghost predicate Unnamed(c: Catalogue, text: string) {
    && text !in c.names
    && (forall stem: string :: text == stem + "-service" ==> stem !in c.names)
    && (text in c.manual ==> c.manual[text] !in c.names)
  }

  /** A label that is a candidate's name stands for it. Else, when the part in front of "-service" is
      one, it stands for that. Else the hand-confirmed name is taken when it is a candidate. */
  lemma NamedIs(c: Catalogue, text: string, stem: string)
    ensures text in c.names ==> Direct(c, text) == Some(Found(text, Exact))
    ensures text !in c.names && text == stem + "-service" && stem in c.names
        ==> Direct(c, text) == Some(Found(stem, Stripped))
    ensures text !in c.names && (forall t: string :: text == t + "-service" ==> t !in c.names)
         && text in c.manual && c.manual[text] in c.names
        ==> Direct(c, text) == Some(Found(c.manual[text], Manual))
  {
    StripSuffixIff(text, stem);
    StripSuffixIff(text, StripSuffix(text));
  }

  /** Otherwise the names with the label's normal form decide: none and nothing is known yet, one and
      it is taken, more and all of them are reported. */
  lemma UnnamedIs(c: Catalogue, text: string, k: nat)
    requires Unnamed(c, text)
    ensures Direct(c, text).None? <==> forall j :: 0 <= j < |c.names| ==> Norm(c.names[j]) != Norm(text)
    ensures k < |c.names| && (forall j :: 0 <= j < |c.names| ==> (Norm(c.names[j]) == Norm(text) <==> j == k))
        ==> Direct(c, text) == Some(Found(c.names[k], Normalised))
    ensures (exists i, j :: 0 <= i < j < |c.names| && Norm(c.names[i]) == Norm(c.names[j]) == Norm(text))
        ==> Direct(c, text) == Some(Ambiguous(Candidates(c.names, Norm(text))))
  {
    UnnamedCounts(c, text);
    var names, n := c.names, Norm(text);
    if forall j :: 0 <= j < |names| ==> Norm(names[j]) != n {
      NoneBefore(names, n);
    } else if i, j :| 0 <= i < j < |names| && Norm(names[i]) == Norm(names[j]) == n {
      TwoCandidates(names, i, j, n);
    } else {
      var i :| 0 <= i < |names| && Norm(names[i]) == n;
      OneCandidate(names, i, n);
    }
  }

  lemma UnnamedCounts(c: Catalogue, text: string)
    requires Unnamed(c, text)
    ensures var candidates := Candidates(c.names, Norm(text));
      Direct(c, text) == if candidates == [] then None
                         else if |candidates| == 1 then Some(Found(candidates[0], Normalised))
                         else Some(Ambiguous(candidates))
  {
    StripSuffixIff(text, StripSuffix(text));
  }

  lemma OneCandidate(names: seq<string>, k: nat, n: string)
    requires k < |names| && forall j :: 0 <= j < |names| ==> (Norm(names[j]) == n <==> j == k)
    ensures Candidates(names, n) == [names[k]]
  {
    var before, after := names[..k], names[k + 1..];
    assert names == before + [names[k]] + after;
    CandidatesAre(before, names[k], after, n);
    assert Candidates(before, n) == [] by { NoneBefore(before, n); }
    assert Candidates(after, n) == [] by { NoneBefore(after, n); }
  }

  lemma TwoCandidates(names: seq<string>, i: nat, j: nat, n: string)
    requires i < j < |names| && Norm(names[i]) == Norm(names[j]) == n
    ensures |Candidates(names, n)| > 1
  {
    assert names == names[..i] + [names[i]] + names[i + 1..];
    CandidatesAre(names[..i], names[i], names[i + 1..], n);
    assert names[i + 1..][j - i - 1] == names[j];
    assert names[j] in Candidates(names[i + 1..], n);
  }

  // ---------------------------------------------------------------- owners

  /** A label is passed on exactly when no rule answers it and it has an owner of another, non-empty name. */
  lemma PassedOnIff(c: Catalogue, text: string, owner: string)
    ensures AsksOwner(RulesOf(c), text, owner)
       <==> && Direct(c, text).None? && text in c.owners && c.owners[text] == owner
            && owner != "" && owner != text
  {
    assert RulesOf(c).direct(text) == Direct(c, text);
  }

  /** What a label passed on gets: the owner's service, marked as found through the owner, or nothing. */
  lemma PassedOnIs(c: Catalogue, text: string, owner: string, calls: nat)
    requires AsksOwner(RulesOf(c), text, owner) && Call(RulesOf(c), owner, calls).Some?
    ensures var answer := Call(RulesOf(c), owner, calls).value;
      Call(RulesOf(c), text, calls + 1)
      == Some(if answer.Found? && answer.name != "" then Found(answer.name, ViaOwner(owner)) else NoMatch)
  {
    DirectIsSound(c);
    if Call(RulesOf(c), owner, calls).value.Diverges? { NeverSaysDiverges(RulesOf(c), owner, calls); }
  }

  lemma {:induction false} NeverSaysDiverges(r: Rules, text: string, calls: nat)
    requires Sound(r) && Call(r, text, calls).Some?
    ensures !Call(r, text, calls).value.Diverges?
    decreases calls
  {
    if Delegates(r, text) { NeverSaysDiverges(r, Owner(r, text).value, calls - 1); }
  }

  /** A label no rule answers and nobody else owns has no service. */
  lemma OrphanHasNone(c: Catalogue, text: string, calls: nat)
    requires Direct(c, text).None? && forall owner :: !AsksOwner(RulesOf(c), text, owner)
    ensures Call(RulesOf(c), text, calls + 1) == Some(NoMatch)
  {
    var r := RulesOf(c);
    assert r.direct(text) == Direct(c, text);
    if Owner(r, text).Some? { assert AsksOwner(r, text, Owner(r, text).value); }
  }

  // ---------------------------------------------------------------- the table

  /** The table holds, for a label of the file, the service whose name the source's recursion returns and
      whose name belongs to one code; other labels are absent. */
  lemma TableIff(c: Catalogue, file: File, text: string, s: Service)
    ensures (text in ServiceTable(c, file) && ServiceTable(c, file)[text] == s)
       <==> && (exists i :: 0 <= i < |file.entries| && file.entries[i].groupLabel == text)
            && s.name in c.codes && c.codes[s.name] == [s.code]
            && exists calls :: Returns(RulesOf(c), text, calls, s.name)
  {
    if text in ServiceTable(c, file) || exists i :: 0 <= i < |file.entries| && file.entries[i].groupLabel == text {
      ServiceOfIff(c, text, s);
    }
  }

  lemma ServiceOfIff(c: Catalogue, text: string, s: Service)
    ensures ServiceOf(c, text) == Some(s)
       <==> && s.name in c.codes && c.codes[s.name] == [s.code]
            && exists calls :: Returns(RulesOf(c), text, calls, s.name)
  {
    ReturnsIff(c, text, s.name);
  }

  lemma ReturnsIff(c: Catalogue, text: string, name: string)
    ensures (exists calls :: Returns(RulesOf(c), text, calls, name))
       <==> Resolve(RulesOf(c), text, {}).Found? && Resolve(RulesOf(c), text, {}).name == name
  {
    var r, enough := RulesOf(c), |c.owners| + 1;
    if calls: nat :| Returns(r, text, calls, name) {
      Settled(c, text, calls);
    }
    if Resolve(r, text, {}).Found? {
      Settles(c, text);
      assert Returns(r, text, enough, Resolve(r, text, {}).name);
    }
  }

  lemma Settles(c: Catalogue, text: string)
    requires !Resolve(RulesOf(c), text, {}).Diverges?
    ensures Call(RulesOf(c), text, |c.owners| + 1) == Some(Resolve(RulesOf(c), text, {}))
  {
    DirectIsSound(c);
    Termination(RulesOf(c), text);
  }

  lemma Settled(c: Catalogue, text: string, calls: nat)
    requires Call(RulesOf(c), text, calls).Some?
    ensures Call(RulesOf(c), text, calls) == Some(Resolve(RulesOf(c), text, {}))
  {
    DirectIsSound(c);
    Termination(RulesOf(c), text);
    var enough := |c.owners| + 1;
    Settles(c, text);
    MoreCalls(RulesOf(c), text, calls, calls + enough);
    MoreCalls(RulesOf(c), text, enough, calls + enough);
  }

  ghost predicate Returns(r: Rules, text: string, calls: nat, name: string) {
    Call(r, text, calls).Some? && Call(r, text, calls).value.Found? && Call(r, text, calls).value.name == name
  }
}
