/**
  The reconcile run read off the columns of the tables and of the file alone: which rows count as
  linked and to what, which of them a run may touch, and what each entry finds or leaves behind.
*/
module KongColumns {
  import opened Wrappers
  import opened PyText
  import opened PyTextTheorems
  import opened KongImport
  import opened KongImportTheorems
  import opened KongConservation

  // ---------------------------------------------------------------- groups and rows

  /** Position j is the last group with its label and method. */
  ghost predicate LastOfKey(groups: seq<Group>, j: int) {
    && 0 <= j < |groups|
    && forall m :: j < m < |groups| ==> groups[m].key != groups[j].key || groups[m].httpMethod != groups[j].httpMethod
  }

  /** The row's group id is that of a group with this label that no later group with its key shadows. */
  ghost predicate BelongsUnder(groups: seq<Group>, r: Row, groupLabel: string) {
    exists j :: LastOfKey(groups, j) && r.groupId == Some(groups[j].id) && groups[j].key == groupLabel
  }

  lemma {:induction false} FindGroupIff(groups: seq<Group>, groupLabel: string, httpMethod: string, j: int)
    ensures (LastOfKey(groups, j) && groups[j].key == groupLabel && groups[j].httpMethod == httpMethod)
       <==> FindGroup(groups, GroupKey(groupLabel, httpMethod)) == Some(j)
    decreases |groups|
  {
    if groups != [] {
      var n := |groups| - 1;
      FindGroupIff(groups[..n], groupLabel, httpMethod, j);
      if LastOfKey(groups, j) && j < n { assert LastOfKey(groups[..n], j); }
      if FindGroup(groups, GroupKey(groupLabel, httpMethod)) == Some(j) && j < n {
        assert LastOfKey(groups[..n], j) && KeyOf(groups[n]) != GroupKey(groupLabel, httpMethod);
      }
    }
  }

  /** A row is linked exactly when its group id is the id of a group that no later one with its key
      shadows, and then to that group's label, its own upper-cased method and its path, whatever
      its status and its service. */
  lemma LinkIff(db: Database, i: nat, groupLabel: string, httpMethod: string, path: string)
    requires i < |db.rows|
    ensures Links(db)[i] == Some(LinkKey(groupLabel, httpMethod, path)) <==>
      && BelongsUnder(db.groups, db.rows[i], groupLabel)
      && httpMethod == Upper(db.rows[i].httpMethod) && path == db.rows[i].path
  {
    var groups, r := db.groups, db.rows[i];
    if j :| LastOfKey(groups, j) && r.groupId == Some(groups[j].id) && groups[j].key == groupLabel {
      FindIdUnique(groups, j);
      FindGroupIff(groups, groups[j].key, groups[j].httpMethod, j);
    }
    if r.groupId.Some? && LabelOf(groups, r.groupId.value).Some? {
      var j := FindId(groups, r.groupId.value).value;
      FindGroupIff(groups, groups[j].key, groups[j].httpMethod, j);
      assert LastOfKey(groups, j);
    }
  }

  lemma UnlinkedIff(db: Database, i: nat)
    requires i < |db.rows|
    ensures Links(db)[i] == None <==> forall groupLabel :: !BelongsUnder(db.groups, db.rows[i], groupLabel)
  {
    var r := db.rows[i];
    forall groupLabel
      ensures BelongsUnder(db.groups, r, groupLabel)
         <==> Links(db)[i] == Some(LinkKey(groupLabel, Upper(r.httpMethod), r.path))
    {
      LinkIff(db, i, groupLabel, Upper(r.httpMethod), r.path);
    }
    if Links(db)[i].Some? {
      var x := Links(db)[i].value;
      LinkIff(db, i, x.groupLabel, x.httpMethod, x.path);
    }
  }

  /** The paths a run passes over are those of the rows under a group. */
  lemma PassedOverIff(db: Database, groupLabel: string, httpMethod: string, path: string)
    ensures LinkKey(groupLabel, httpMethod, path) in Start(db).linked <==>
      exists i :: 0 <= i < |db.rows| && BelongsUnder(db.groups, db.rows[i], groupLabel)
                  && httpMethod == Upper(db.rows[i].httpMethod) && path == db.rows[i].path
  {
    var x := LinkKey(groupLabel, httpMethod, path);
    LinkedMeaning(db, |db.rows|);
    if i :| 0 <= i < |db.rows| && Links(db)[i] == Some(x) { LinkIff(db, i, groupLabel, httpMethod, path); }
    if i :| 0 <= i < |db.rows| && BelongsUnder(db.groups, db.rows[i], groupLabel)
            && httpMethod == Upper(db.rows[i].httpMethod) && path == db.rows[i].path {
      LinkIff(db, i, groupLabel, httpMethod, path);
    }
  }

  /** The rows waiting for a claim on a route are those on it that are under no group. */
  lemma WaitingIff(db: Database, httpMethod: string, path: string, i: nat)
    ensures i in Waiting(Start(db).pool, RouteKey(httpMethod, path)) <==>
      && i < |db.rows| && httpMethod == Upper(db.rows[i].httpMethod) && path == db.rows[i].path
      && forall groupLabel :: !BelongsUnder(db.groups, db.rows[i], groupLabel)
  {
    var k := RouteKey(httpMethod, path);
    PoolMeaning(db, |db.rows|, k);
    if i < |db.rows| {
      UnlinkedIff(db, i);
      if Links(db)[i] == None { PoolComplete(db, |db.rows|, i); }
    }
  }

  /** A row under a group keeps every field through a run. */
  lemma RowUnderGroupKept(db: Database, file: RouteFile, services: map<string, Service>, i: nat, groupLabel: string)
    requires i < |db.rows| && BelongsUnder(db.groups, db.rows[i], groupLabel)
    ensures var after := After(db, file, services).db; i < |after.rows| && after.rows[i] == db.rows[i]
  {
    UnlinkedIff(db, i);
    LinkedRowsUntouched(db, file, services, i);
  }

  /** A row of group a that has not been deployed is linked all the same: whatever the file says, no
      entry of group b takes it. */
  lemma InitiatedRowStaysLinked(db: Database, file: RouteFile, a: Group, b: Group, r: Row)
    requires db == Db([a, b], [r], 2) && a.key == "a" && b.key == "b" && a.httpMethod == b.httpMethod == "GET"
    requires a.id == 0 && b.id == 1 && r.groupId == Some(0) && r.status == INITIATED
    ensures var after := After(db, file, map[]).db; |after.rows| > 0 && after.rows[0] == r
  {
    assert LastOfKey(db.groups, 0);
    RowUnderGroupKept(db, file, map[], 0, "a");
  }

  // ---------------------------------------------------------------- plugins

  /** What a display name outside the catalogue becomes, letter by letter. */
  function PluginLetter(c: char): char {
    if 'A' <= c <= 'Z' then LOWER[c as int - 'A' as int] else if c == ' ' || c == '_' then '-' else c
  }

  /** The four names of the catalogue. */
  lemma CatalogueNames()
    ensures KongName("JWT") == "jwt" && KongName("User ID Injection") == "user-id-injection"
    ensures KongName("CORS") == "cors" && KongName("Key Auth") == "key-auth"
  {
  }

  /** Any other name: without the blanks around it, in small letters, with dashes for blanks and
      underscores. */
  lemma KongNameIs(n: string, front: string, middle: string, back: string, name: string)
    requires n != "JWT" && n != "User ID Injection" && n != "CORS" && n != "Key Auth"
    requires n == front + middle + back && Blanks(front) && Blanks(back) && Trimmed(middle)
    requires |name| == |middle| && forall i :: 0 <= i < |middle| ==> name[i] == PluginLetter(middle[i])
    ensures KongName(n) == name
  {
    var f, b := StripTrims(n);
    OneMiddle(n, front, middle, back, f, Strip(n), b);
    Dashes(middle, name);
  }

  lemma {:induction false} Dashes(middle: string, name: string)
    requires |name| == |middle| && forall i :: 0 <= i < |middle| ==> name[i] == PluginLetter(middle[i])
    ensures Replace(Replace(Lower(middle), ' ', '-'), '_', '-') == name
    decreases |middle|
  {
    if middle != "" {
      var low := Lower(middle);
      var dashed := Replace(low, ' ', '-');
      Dashes(middle[1..], name[1..]);
      OneLetter(middle[0]);
      assert low[1..] == Lower(middle[1..]);
      assert dashed[1..] == Replace(low[1..], ' ', '-');
      assert name == [name[0]] + name[1..];
    }
  }

  lemma OneLetter(c: char)
    ensures PluginLetter(c) == if LowerChar(c) == ' ' || LowerChar(c) == '_' then '-' else LowerChar(c)
  {
    if 'A' <= c <= 'Z' { assert LOWER[c as int - 'A' as int] == LowerChar(c); }
  }

  /** Some name of the list has this Kong name. */
  ghost predicate Names(names: seq<string>, name: string) {
    exists i :: 0 <= i < |names| && KongName(names[i]) == name
  }

  /** Two lists name the same plugins when every Kong name has a display name in both or in neither. */
  lemma SamePluginsIff(a: seq<string>, b: seq<string>)
    ensures SamePlugins(a, b) <==> forall name :: Names(a, name) <==> Names(b, name)
  {
    forall name
      ensures name in KongNames(a) <==> Names(a, name)
      ensures name in KongNames(b) <==> Names(b, name)
    {
    }
    if forall name :: Names(a, name) <==> Names(b, name) {
      assert forall name :: name in KongNames(a) <==> name in KongNames(b);
    }
  }

  /** The plugins of an entry are those the file lists under its label, a dash and its method in lower
      case; none when it lists none there. */
  lemma PluginsOfEntry(file: File, e: Entry, target: string)
    requires |target| == |e.groupLabel| + 1 + |e.httpMethod|
    requires target[..|e.groupLabel|] == e.groupLabel && target[|e.groupLabel|] == '-'
    requires forall i :: 0 <= i < |e.httpMethod| ==>
      target[|e.groupLabel| + 1 + i]
      == (if 'A' <= e.httpMethod[i] <= 'Z' then LOWER[e.httpMethod[i] as int - 'A' as int] else e.httpMethod[i])
    ensures target in file.pluginsByTarget ==> TargetPlugins(file, e) == file.pluginsByTarget[target]
    ensures target !in file.pluginsByTarget ==> TargetPlugins(file, e) == []
  {
    LowerLetters(e.httpMethod);
    assert target == e.groupLabel + "-" + Lower(e.httpMethod);
  }
}
