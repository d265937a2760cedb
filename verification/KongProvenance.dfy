/** Where every row and group of the tables after an applied run comes from. */
module KongProvenance {
  import opened Wrappers
  import opened KongImport
  import opened KongImportTheorems

  /** An active row of one of the groups, with the group's service. */
  ghost predicate Carries(groups: seq<Group>, r: Row) {
    exists j :: 0 <= j < |groups| && BelongsTo(groups[j], r)
  }

  predicate BelongsTo(g: Group, r: Row) {
    r.groupId == Some(g.id) && r.apiName == g.apiName && r.serviceCode == g.serviceCode && r.status == ACTIVE
  }

  /** What a run never changes of a group: its identity and its service. */
  predicate SameService(g: Group, h: Group) {
    g.id == h.id && KeyOf(g) == KeyOf(h) && g.apiName == h.apiName && g.serviceCode == h.serviceCode
  }

  /** A group made for an entry of the file, for the service its label resolves to. */
  ghost predicate MadeFor(file: File, services: map<string, Service>, g: Group) {
    exists m :: 0 <= m < |file.entries| && EntryKey(file.entries[m]) == KeyOf(g) && g.key in services
                && g.apiName == Some(services[g.key].name) && g.serviceCode == Some(services[g.key].code)
  }

  ghost predicate GroupsExplained(w0: Work, file: File, services: map<string, Service>, w: Work) {
    && |w0.db.groups| <= |w.db.groups|
    && (forall i :: 0 <= i < |w0.db.groups| ==> SameService(w0.db.groups[i], w.db.groups[i]))
    && (forall i :: |w0.db.groups| <= i < |w.db.groups| ==> MadeFor(file, services, w.db.groups[i]))
  }

  ghost predicate RowsExplained(w0: Work, w: Work) {
    && |w0.db.rows| <= |w.db.rows|
    && forall i :: 0 <= i < |w.db.rows| ==>
         (i < |w0.db.rows| && w.db.rows[i] == w0.db.rows[i]) || Carries(w.db.groups, w.db.rows[i])
  }

  /** A target stands for one of the groups. */
  ghost predicate TargetOf(groups: seq<Group>, t: Target) {
    exists j :: 0 <= j < |groups| && t == Target(groups[j].id, groups[j].apiName, groups[j].serviceCode)
  }

  lemma AttachedCarries(groups: seq<Group>, t: Target, r: Row)
    requires TargetOf(groups, t) && r.groupId == Some(t.id) && r.apiName == t.apiName && r.serviceCode == t.serviceCode
    requires r.status == ACTIVE
    ensures Carries(groups, r)
  {
    var j :| 0 <= j < |groups| && t == Target(groups[j].id, groups[j].apiName, groups[j].serviceCode);
    assert BelongsTo(groups[j], r);
  }

  lemma PathExplained(w0: Work, w: Work, e: Entry, t: Target, path: string)
    requires RowsExplained(w0, w) && TargetOf(w.db.groups, t)
    ensures var r := PathStep(w, e, t, path, true); RowsExplained(w0, r) && r.db.groups == w.db.groups
  {
    var r, k := PathStep(w, e, t, path, true), RouteKey(e.httpMethod, path);
    AttachedCarries(w.db.groups, t, Inserted(e, path, t));
    if Waiting(w.pool, k) != [] && Waiting(w.pool, k)[0] < |w.db.rows| {
      AttachedCarries(w.db.groups, t, Adopted(w.db.rows[Waiting(w.pool, k)[0]], t));
    }
  }

  lemma {:induction false} PathsExplained(w0: Work, w: Work, e: Entry, t: Target, paths: seq<string>)
    requires RowsExplained(w0, w) && TargetOf(w.db.groups, t)
    ensures var r := Paths(w, e, t, paths, true); RowsExplained(w0, r) && r.db.groups == w.db.groups
    decreases |paths|
  {
    if paths != [] {
      PathsExplained(w0, w, e, t, paths[..|paths| - 1]);
      PathExplained(w0, Paths(w, e, t, paths[..|paths| - 1], true), e, t, paths[|paths| - 1]);
    }
  }

  /** Groups that keep their services keep their rows. */
  lemma StillCarries(groups: seq<Group>, after: seq<Group>, r: Row)
    requires Carries(groups, r) && |groups| <= |after|
    requires forall j :: 0 <= j < |groups| ==> SameService(groups[j], after[j])
    ensures Carries(after, r)
  {
    var j :| 0 <= j < |groups| && BelongsTo(groups[j], r);
    assert BelongsTo(after[j], r);
  }

  /** Rows stay explained while groups are only replaced by ones of the same service or appended. */
  lemma RowsStay(w0: Work, w: Work, r: Work)
    requires RowsExplained(w0, w) && r.db.rows == w.db.rows && |w.db.groups| <= |r.db.groups|
    requires forall j :: 0 <= j < |w.db.groups| ==> SameService(w.db.groups[j], r.db.groups[j])
    ensures RowsExplained(w0, r)
  {
    forall i | 0 <= i < |w.db.rows| && Carries(w.db.groups, w.db.rows[i]) ensures Carries(r.db.groups, w.db.rows[i]) {
      StillCarries(w.db.groups, r.db.groups, w.db.rows[i]);
    }
  }

  lemma FoundExplained(w0: Work, w: Work, file: File, e: Entry, services: map<string, Service>, i: nat)
    requires RowsExplained(w0, w) && GroupsExplained(w0, file, services, w)
             && FindGroup(w.db.groups, EntryKey(e)) == Some(i)
    ensures var (r, target) := Claim(w, file, e, services, true);
      RowsExplained(w0, r) && GroupsExplained(w0, file, services, r) && target.Some?
      && TargetOf(r.db.groups, target.value)
  {
    var (r, target) := Claim(w, file, e, services, true);
    assert r.db.groups == w.db.groups[i := Reconciled(w.db.groups[i], file, e)];
    RowsStay(w0, w, r);
    assert r.db.groups[i].id == w.db.groups[i].id;
    forall k | |w0.db.groups| <= k < |r.db.groups| ensures MadeFor(file, services, r.db.groups[k]) {
      assert MadeFor(file, services, w.db.groups[k]);
    }
  }

  lemma MadeExplained(w0: Work, w: Work, file: RouteFile, n: nat, services: map<string, Service>)
    requires n < |file.entries| && RowsExplained(w0, w) && GroupsExplained(w0, file, services, w)
    requires FindGroup(w.db.groups, EntryKey(file.entries[n])) == None && file.entries[n].groupLabel in services
    ensures var (r, target) := Claim(w, file, file.entries[n], services, true);
      RowsExplained(w0, r) && GroupsExplained(w0, file, services, r) && target.Some?
      && TargetOf(r.db.groups, target.value)
  {
    var e := file.entries[n];
    var (r, target) := Claim(w, file, e, services, true);
    var g := NewGroup(w.db, file, e, services[e.groupLabel]);
    assert r.db.groups == w.db.groups + [g] && r.db.groups[|w.db.groups|] == g;
    RowsStay(w0, w, r);
    assert IsMethod(file.entries[n].httpMethod);
    assert EntryKey(file.entries[n]) == KeyOf(g);
    assert MadeFor(file, services, g);
  }

  lemma ClaimExplained(w0: Work, w: Work, file: RouteFile, n: nat, services: map<string, Service>)
    requires n < |file.entries| && RowsExplained(w0, w) && GroupsExplained(w0, file, services, w)
    ensures var (r, target) := Claim(w, file, file.entries[n], services, true);
      && RowsExplained(w0, r) && GroupsExplained(w0, file, services, r)
      && (target.Some? ==> TargetOf(r.db.groups, target.value))
  {
    match FindGroup(w.db.groups, EntryKey(file.entries[n]))
    case Some(i) => FoundExplained(w0, w, file, file.entries[n], services, i);
    case None => if file.entries[n].groupLabel in services { MadeExplained(w0, w, file, n, services); }
  }

  lemma EntryExplained(w0: Work, w: Work, file: RouteFile, n: nat, services: map<string, Service>)
    requires n < |file.entries| && RowsExplained(w0, w) && GroupsExplained(w0, file, services, w)
    ensures var r := EntryStep(w, file, file.entries[n], services, true);
      RowsExplained(w0, r) && GroupsExplained(w0, file, services, r)
  {
    var e := file.entries[n];
    ClaimExplained(w0, w, file, n, services);
    var (claimed, target) := Claim(w, file, e, services, true);
    if target.Some? { PathsExplained(w0, claimed, e, target.value, e.paths); }
  }

  /** After an applied run every group keeps its identity and service or was made for an entry of
      the file and the service its label resolves to, and every row is as it was or is active in
      one of the groups under the group's service name and code. */
  lemma EverythingIsExplained(db: Db, file: RouteFile, services: map<string, Service>)
    ensures RowsExplained(Start(db), After(db, file, services))
    ensures GroupsExplained(Start(db), file, services, After(db, file, services))
  {
    var w0 := Start(db);
    var P := (i: nat, w: Work) => RowsExplained(w0, w) && GroupsExplained(w0, file, services, w);
    forall i: nat, w: Work | i < |file.entries| && P(i, w)
      ensures P(i + 1, EntryStep(w, file, file.entries[i], services, true))
    {
      EntryExplained(w0, w, file, i, services);
    }
    Induct(w0, file, |file.entries|, services, true, P);
  }
}
