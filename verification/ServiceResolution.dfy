/**
  resolve_service of scripts/import_kong_routes_from_terragrunt.py: how a gateway group label
  finds its service, and for which files the recursion through owners ends.
*/
module ServiceResolution {
  import opened Wrappers
  import opened PyText
  import opened KongImport

  datatype How = Exact | Stripped | Manual | Normalised | ViaOwner(owner: string)

  /** `Diverges` stands for the source recursing without end. */
  datatype Resolution = Found(name: string, how: How) | Ambiguous(candidates: seq<string>) | NoMatch | Diverges

  /** The candidate services in dict order with their codes, the owner each label names, and
      the hand-confirmed labels, whatever MANUAL_SERVICE_MAP of the script holds. */
  datatype Catalogue = Catalogue(names: seq<string>, codes: map<string, seq<string>>, owners: map<string, string>,
                                 manual: map<string, string>)

  const SERVICE_SUFFIX := "-service"

  function StripSuffix(s: string): string {
    if EndsWith(s, SERVICE_SUFFIX) then s[..|s| - |SERVICE_SUFFIX|] else s
  }

  function KeepAlphanumeric(s: string): string {
    if s == "" then ""
    else (if 'a' <= s[0] <= 'z' || '0' <= s[0] <= '9' then [s[0]] else "") + KeepAlphanumeric(s[1..])
  }

  function Norm(name: string): string { KeepAlphanumeric(StripSuffix(Lower(Strip(name)))) }

  /** The names whose normal form is n, in dict order. */
  function Candidates(names: seq<string>, n: string): (r: seq<string>)
    ensures forall c :: c in r <==> c in names && Norm(c) == n
  {
    if names == [] then []
    else
      var rest := Candidates(names[1..], n);
      if Norm(names[0]) == n then [names[0]] + rest else rest
  }

  /** The four rules that look at the label alone; None when none of them fires. */
  function Direct(c: Catalogue, text: string): Option<Resolution> {
    if text in c.names then Some(Found(text, Exact))
    else if StripSuffix(text) in c.names then Some(Found(StripSuffix(text), Stripped))
    else if text in c.manual && c.manual[text] in c.names then
      Some(Found(c.manual[text], Manual))
    else
      var candidates := Candidates(c.names, Norm(text));
      if |candidates| == 1 then Some(Found(candidates[0], Normalised))
      else if |candidates| > 1 then Some(Ambiguous(candidates))
      else None
  }

  /** What the recursion sees of a file: the answer a label has of its own, if any, and the owner
      each label names. */
  datatype Rules = Rules(direct: string -> Option<Resolution>, owners: map<string, string>)

  function RulesOf(c: Catalogue): Rules { Rules(text => Direct(c, text), c.owners) }

  /** The owner that is asked next: named, not empty, and not the label itself. */
  function Owner(r: Rules, text: string): Option<string> {
    if text in r.owners && r.owners[text] != "" && r.owners[text] != text then Some(r.owners[text]) else None
  }

  /** A label that is passed on to its owner. */
  predicate Delegates(r: Rules, text: string) { r.direct(text).None? && Owner(r, text).Some? }

  /** What the owner's answer is for the label that asked it: a non-empty service or nothing. */
  function Through(owner: string, answer: Resolution): Resolution {
    match answer
    case Found(name, _) => if name != "" then Found(name, ViaOwner(owner)) else NoMatch
    case Diverges => Diverges
    case _ => NoMatch
  }

  /** The resolution, `visited` being the labels already passed on. */
  function Resolve(r: Rules, text: string, visited: set<string>): Resolution
    requires text !in visited
    decreases r.owners.Keys - visited
  {
    if r.direct(text).Some? then r.direct(text).value
    else if Owner(r, text).None? then NoMatch
    else
      var owner := Owner(r, text).value;
      if owner in visited + {text} then Diverges else Through(owner, Resolve(r, owner, visited + {text}))
  }

  /** The source's recursion cut off after `calls` calls; None while it has not returned. */
  function Call(r: Rules, text: string, calls: nat): Option<Resolution>
    decreases calls
  {
    if calls == 0 then None
    else if r.direct(text).Some? then r.direct(text)
    else if Owner(r, text).None? then Some(NoMatch)
    else
      var answer := Call(r, Owner(r, text).value, calls - 1);
      if answer.None? then None else Some(Through(Owner(r, text).value, answer.value))
  }

  /** No rule that looks at the label alone answers "diverges". */
  ghost predicate Sound(r: Rules) { forall x :: r.direct(x).Some? ==> !r.direct(x).value.Diverges? }

  // ---------------------------------------------------------------- termination

  /** Labels that all delegate among themselves. */
  ghost predicate Closed(r: Rules, s: set<string>) {
    forall x :: x in s ==> Delegates(r, x) && Owner(r, x).value in s
  }

  lemma {:induction false} ClosedNeverReturns(r: Rules, s: set<string>, text: string, calls: nat)
    requires Closed(r, s) && text in s
    ensures Call(r, text, calls).None?
    decreases calls
  {
    if calls > 0 {
      assert Delegates(r, text);
      ClosedNeverReturns(r, s, Owner(r, text).value, calls - 1);
    }
  }

  /** The labels asked in turn: text, its owner, the owner's owner, ... */
  function Chain(r: Rules, text: string, k: nat): Option<string>
    decreases k
  {
    if k == 0 then Some(text)
    else if !Delegates(r, text) then None
    else Chain(r, Owner(r, text).value, k - 1)
  }

  lemma {:induction false} ChainStep(r: Rules, text: string, k: nat)
    ensures Chain(r, text, k + 1)
         == if Chain(r, text, k).Some? && Delegates(r, Chain(r, text, k).value) then Owner(r, Chain(r, text, k).value)
            else None
    decreases k
  {
    if k > 0 && Delegates(r, text) { ChainStep(r, Owner(r, text).value, k - 1); }
  }

  lemma {:induction false} ChainPrefix(r: Rules, text: string, j: nat, k: nat)
    requires j <= k && Chain(r, text, k).Some?
    ensures Chain(r, text, j).Some?
    decreases k
  {
    if j < k {
      ChainStep(r, text, k - 1);
      ChainPrefix(r, text, j, k - 1);
    }
  }

  /** The owner chain of a label comes back to a label it has met. */
  ghost predicate MeetsTwice(r: Rules, text: string) {
    exists j: nat, k: nat :: j < k && Chain(r, text, k).Some? && Chain(r, text, j) == Chain(r, text, k)
  }

  /** Up to the repetition the labels of the chain delegate among themselves. */
  lemma RepeatIsClosed(r: Rules, text: string, j: nat, k: nat) returns (s: set<string>)
    requires j < k && Chain(r, text, k).Some? && Chain(r, text, j) == Chain(r, text, k)
    ensures Closed(r, s) && text in s
  {
    s := set i | 0 <= i < k && Chain(r, text, i).Some? :: Chain(r, text, i).value;
    assert Chain(r, text, 0) == Some(text);
    forall x | x in s ensures Delegates(r, x) && Owner(r, x).value in s {
      var i :| 0 <= i < k && Chain(r, text, i) == Some(x);
      ChainPrefix(r, text, i + 1, k);
      ChainStep(r, text, i);
      if i + 1 < k { assert Chain(r, text, i + 1).value in s; } else { assert Chain(r, text, j).value in s; }
    }
  }

  /** v is among the first k labels of the chain. */
  ghost predicate Met(r: Rules, text: string, k: nat, v: string) {
    exists j: nat :: j < k && Chain(r, text, j) == Some(v)
  }

  /** A divergence is a repetition; the labels passed on are the chain so far. */
  lemma {:induction false} DivergenceRepeats(r: Rules, text: string, k: nat, visited: set<string>)
    requires Sound(r) && Chain(r, text, k).Some? && Chain(r, text, k).value !in visited
    requires forall v :: v in visited ==> Met(r, text, k, v)
    requires Resolve(r, Chain(r, text, k).value, visited).Diverges?
    ensures MeetsTwice(r, text)
    decreases r.owners.Keys - visited
  {
    var here := Chain(r, text, k).value;
    assert r.direct(here).None?;
    var owner := Owner(r, here).value;
    ChainStep(r, text, k);
    assert Chain(r, text, k + 1) == Some(owner);
    if owner in visited + {here} {
      if owner != here { assert Met(r, text, k, owner); }
    } else {
      forall v | v in visited + {here} ensures Met(r, text, k + 1, v) {
        if v == here { assert Chain(r, text, k) == Some(v); } else { assert Met(r, text, k, v); }
      }
      assert Through(owner, Resolve(r, owner, visited + {here})).Diverges?;
      DivergenceRepeats(r, text, k + 1, visited + {here});
    }
  }

  lemma OneLess(s: set<string>, visited: set<string>, x: string)
    requires x in s && x !in visited
    ensures |s - visited| == |s - (visited + {x})| + 1
  {
    assert s - visited == (s - (visited + {x})) + {x};
  }

  lemma {:induction false} CallReturns(r: Rules, text: string, visited: set<string>, calls: nat)
    requires text !in visited && !Resolve(r, text, visited).Diverges?
    requires calls > |r.owners.Keys - visited|
    ensures Call(r, text, calls) == Some(Resolve(r, text, visited))
    decreases r.owners.Keys - visited
  {
    if Delegates(r, text) {
      var owner := Owner(r, text).value;
      OneLess(r.owners.Keys, visited, text);
      CallReturns(r, owner, visited + {text}, calls - 1);
      assert Call(r, text, calls) == Some(Through(owner, Resolve(r, owner, visited + {text})));
    }
  }

  /** The recursion of the source returns exactly when the owner chain of the label meets no label
      twice, then within one call more than there are labels; Resolve gives that answer. */
  lemma Termination(r: Rules, text: string)
    requires Sound(r)
    ensures (exists calls :: Call(r, text, calls).Some?) <==> !MeetsTwice(r, text)
    ensures !MeetsTwice(r, text) ==> Call(r, text, |r.owners| + 1) == Some(Resolve(r, text, {}))
    ensures MeetsTwice(r, text) <==> Resolve(r, text, {}).Diverges?
  {
    if Resolve(r, text, {}).Diverges? { DivergenceRepeats(r, text, 0, {}); }
    if j: nat, k: nat :| j < k && Chain(r, text, k).Some? && Chain(r, text, j) == Chain(r, text, k) {
      var s := RepeatIsClosed(r, text, j, k);
      forall calls ensures Call(r, text, calls).None? { ClosedNeverReturns(r, s, text, calls); }
      if !Resolve(r, text, {}).Diverges? { CallReturns(r, text, {}, |r.owners.Keys - {}| + 1); }
    } else {
      assert r.owners.Keys - {} == r.owners.Keys;
      CallReturns(r, text, {}, |r.owners| + 1);
    }
  }

  /** Owners rank below the labels that name them; a label naming itself is allowed. */
  ghost predicate Ranked(r: Rules, rank: string -> nat) {
    forall x :: Owner(r, x).Some? ==> rank(Owner(r, x).value) < rank(x)
  }

  lemma {:induction false} AcyclicReturns(r: Rules, rank: string -> nat, text: string, calls: nat)
    requires Ranked(r, rank) && calls > rank(text)
    ensures Call(r, text, calls).Some?
    decreases rank(text)
  {
    if Delegates(r, text) { AcyclicReturns(r, rank, Owner(r, text).value, calls - 1); }
  }

  lemma {:induction false} MoreCalls(r: Rules, text: string, calls: nat, more: nat)
    requires Call(r, text, calls).Some? && calls <= more
    ensures Call(r, text, more) == Call(r, text, calls)
    decreases calls
  {
    if Delegates(r, text) { MoreCalls(r, Owner(r, text).value, calls - 1, more - 1); }
  }

  /** On an acyclic owner map the source always returns, and the rank of the label bounds the
      number of calls. */
  lemma AcyclicResolves(r: Rules, rank: string -> nat, text: string)
    requires Sound(r) && Ranked(r, rank)
    ensures !MeetsTwice(r, text)
    ensures Call(r, text, rank(text) + 1) == Some(Resolve(r, text, {}))
  {
    var n, m := rank(text) + 1, |r.owners| + 1;
    AcyclicReturns(r, rank, text, n);
    Termination(r, text);
    MoreCalls(r, text, n, n + m);
    MoreCalls(r, text, m, n + m);
  }

  /** Two labels without an answer that own each other: the source never returns. */
  lemma MutualOwnersDiverge(r: Rules, a: string, b: string)
    requires r.direct(a).None? && r.direct(b).None? && a != b
    requires Owner(r, a) == Some(b) && Owner(r, b) == Some(a)
    ensures Resolve(r, a, {}).Diverges?
    ensures forall calls :: Call(r, a, calls).None?
  {
    assert Closed(r, {a, b});
    forall calls ensures Call(r, a, calls).None? { ClosedNeverReturns(r, {a, b}, a, calls); }
  }

  // ---------------------------------------------------------------- what is returned

  /** A returned service is what the first label of the owner chain with an answer of its own
      stands for; an owner is asked only when the label has no answer. */
  lemma {:induction false} FoundAlongTheChain(r: Rules, text: string, calls: nat) returns (k: nat)
    requires Call(r, text, calls).Some? && Call(r, text, calls).value.Found?
    ensures Chain(r, text, k).Some?
    ensures r.direct(Chain(r, text, k).value).Some? && r.direct(Chain(r, text, k).value).value.Found?
    ensures r.direct(Chain(r, text, k).value).value.name == Call(r, text, calls).value.name
    ensures k == 0 <==> r.direct(text).Some?
    decreases calls
  {
    if r.direct(text).Some? {
      k := 0;
    } else {
      var before := FoundAlongTheChain(r, Owner(r, text).value, calls - 1);
      k := before + 1;
    }
  }

  // ---------------------------------------------------------------- the rules of the script

  lemma DirectIsSound(c: Catalogue)
    ensures Sound(RulesOf(c))
  {
    forall x | Direct(c, x).Some? ensures !Direct(c, x).value.Diverges? { NeverDiverges(c, x); }
  }

  lemma NeverDiverges(c: Catalogue, text: string)
    requires Direct(c, text).Some?
    ensures !Direct(c, text).value.Diverges?
  {
  }

  lemma DirectIsCandidate(c: Catalogue, text: string)
    requires Direct(c, text).Some? && Direct(c, text).value.Found?
    ensures Direct(c, text).value.name in c.names
  {
    var candidates := Candidates(c.names, Norm(text));
    if |candidates| == 1 { assert candidates[0] in candidates; }
  }

  /** Whatever the owners, a returned service is a candidate. */
  lemma FoundIsCandidate(c: Catalogue, text: string, calls: nat)
    requires Call(RulesOf(c), text, calls).Some? && Call(RulesOf(c), text, calls).value.Found?
    ensures Call(RulesOf(c), text, calls).value.name in c.names
  {
    var r := RulesOf(c);
    var k := FoundAlongTheChain(r, text, calls);
    var end := Chain(r, text, k).value;
    assert r.direct(end) == Direct(c, end);
    DirectIsCandidate(c, end);
  }

  /** A label only its normal form speaks for, and for more than one service. */
  predicate IsAmbiguous(c: Catalogue, text: string) {
    && text !in c.names && StripSuffix(text) !in c.names
    && !(text in c.manual && c.manual[text] in c.names)
    && |Candidates(c.names, Norm(text))| > 1
  }

  lemma AmbiguousDirect(c: Catalogue, text: string)
    ensures IsAmbiguous(c, text) <==> Direct(c, text).Some? && Direct(c, text).value.Ambiguous?
    ensures IsAmbiguous(c, text) ==> Direct(c, text) == Some(Ambiguous(Candidates(c.names, Norm(text))))
  {
  }

  /** An ambiguous normalised match is final: the label itself reports it and no owner is asked,
      and a label that owns nothing better than it gets no match either. */
  lemma AmbiguousIsFinal(c: Catalogue, text: string)
    requires IsAmbiguous(c, text)
    ensures Resolve(RulesOf(c), text, {}) == Ambiguous(Candidates(c.names, Norm(text)))
    ensures forall x, calls :: AsksOwner(RulesOf(c), x, text) && Call(RulesOf(c), x, calls).Some?
              ==> Call(RulesOf(c), x, calls) == Some(NoMatch)
  {
    AmbiguousDirect(c, text);
    var r := RulesOf(c);
    assert r.direct(text) == Direct(c, text);
    forall x, calls | AsksOwner(r, x, text) && Call(r, x, calls).Some?
      ensures Call(r, x, calls) == Some(NoMatch)
    {
      AmbiguousOwner(r, x, text, calls);
    }
  }

  predicate AsksOwner(r: Rules, text: string, owner: string) { Delegates(r, text) && Owner(r, text) == Some(owner) }

  lemma AmbiguousOwner(r: Rules, text: string, owner: string, calls: nat)
    requires AsksOwner(r, text, owner) && r.direct(owner).Some? && r.direct(owner).value.Ambiguous?
    requires Call(r, text, calls).Some?
    ensures Call(r, text, calls) == Some(NoMatch)
  {
    var answer := Call(r, owner, calls - 1);
    assert answer == r.direct(owner);
  }

  // ---------------------------------------------------------------- the services a file resolves to

  /** The service of a label: resolved, and the name belongs to one code only. */
  function ServiceOf(c: Catalogue, text: string): Option<Service> {
    match Resolve(RulesOf(c), text, {})
    case Found(name, _) =>
      if name in c.codes && |c.codes[name]| == 1 then Some(Service(name, c.codes[name][0])) else None
    case _ => None
  }

  /** The table the reconcile run works with, for every label the file mentions. */
  function ServiceTable(c: Catalogue, file: File): map<string, Service> {
    map i | 0 <= i < |file.entries| && ServiceOf(c, file.entries[i].groupLabel).Some?
      :: file.entries[i].groupLabel := ServiceOf(c, file.entries[i].groupLabel).value
  }

  /** A service in the table is a candidate name that belongs to one code, and it is what the
      source's recursion returns for the label. */
  lemma TableIsSound(c: Catalogue, file: File, text: string)
    requires text in ServiceTable(c, file)
    ensures var s := ServiceTable(c, file)[text];
      && s.name in c.names && s.name in c.codes && c.codes[s.name] == [s.code]
      && exists calls :: Call(RulesOf(c), text, calls).Some? && Call(RulesOf(c), text, calls).value.Found?
                         && Call(RulesOf(c), text, calls).value.name == s.name
  {
    DirectIsSound(c);
    Termination(RulesOf(c), text);
    FoundIsCandidate(c, text, |c.owners| + 1);
  }
}
