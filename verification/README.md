# Verification of the platform's self-contained algorithms

A Dafny 4.11 model of the parts of this repository that are algorithms rather than plumbing, with proofs of
what each is for. AWS calls, database queries, language-model answers and completion orders are parameters:
every theorem holds for all of them.

| files | models |
|---|---|
| `LogWindow`, `LogWindowTheorems`, `LogWindowLadder` | newest-first log reading over an API that only reads oldest-first |
| `KongImport`, `KongImportTheorems`, `KongConservation`, `KongTally`, `KongProvenance`, `KongColumns`, `KongOutcome`, `ServiceResolution`, `ServiceColumns` | reconciling a gateway file with route rows and groups |
| `AuthzForest`, `AuthzForestTheorems`, `AuthzOneParent`, `AuthzReach`, `AuthzColumns` | the OpenFGA tuples built from the database |
| `SwitchMachine`, `SwitchTheorems`, `SwitchReplies`, `SwitchRoutes` | the chat's multi-turn switch machine and its routers |
| `ToolLoop`, `ToolColumns` | the tool loops of the chat graph and their guards |
| `Canvas`, `CanvasBuilder`, `CanvasTheorems`, `CanvasColumns` | discovery results flattened into canvas tables |
| `VpcScan`, `RegionCache`, `RegionColumns` | the concurrent VPC scan; the region cache against direct queries |
| `PyLiteral`, `PyLiteralTheorems`, `PyLiteralLayout` | the Python-literal printer and a reader for what it prints |
| `JwtSplice`, `JwtColumns` | merging jwt plugin entries by rewriting text spans backwards |
| `GpuSizing`, `GpuColumns` | choosing and clamping GPU instances |
| `Wrappers`, `Sequences`, `PyText`, `PyTextTheorems` | Option, sequence operations, Python string methods |

Code that changes things in place is modelled as methods and classes that are proved equal to specification
functions; the theorems are about those functions. The `Columns`, `Routes` and `Layout` files say what these
functions give in terms of the raw inputs alone, the columns of rows, the characters of texts, the positions of
messages, without the functions that compute it. `dafny verify dfyconfig.toml` checks everything.

## What the proofs found

Where the code does not do what its comments or tests promise, the code is modelled as it is, a lemma gives
the failing case, and another says exactly when the promise holds.

* Log reading: a window that is empty next to one that is saturated makes shrink and expand alternate until
  the attempts run out. What is returned then depends on where the search got stuck: nothing at all, although
  a full page exists (`EvenRungAnswersNothing`), or the oldest page of a window (`OddRungAnswersOldestPage`).
  No larger number of attempts would help (`MoreAttemptsNeverHelp`). `ExhaustedIff`, `NewestFirstIff` and
  `NothingIsReturnedIff` say for which requests each of this happens, from the counts of events in the
  windows alone, and `SilentIff` for which the flag "has older" is wrong. Comments speak of paginating a
  one-second window; the loop paginates the two-second one before it (`PaginatedIff`).
* Route import: a path listed twice in one new group is imported twice (`ListedTwiceImportedTwice`);
  `NoTwins` gives the exact condition.
* Service resolution recurses without end on labels that own each other (`MutualOwnersDiverge`);
  `Termination` gives the exact condition.
* Authorization tuples: a node can get two parents. `OneParentIff` gives the exact condition on the rows, level
  by level; with clean codes it comes down to one thing, rows of two tenants on an application without a known
  workspace (`CleanOneParentIff`, `TwoTenantsOnOneApp`). A group code can also read like a default group's
  (`NamedLikeADefault`). A deleted workspace still named by an application has no parent (`ChainIsRootedIff`,
  `DeadWorkspace`).
* Printer: text outside the Basic Multilingual Plane comes back as surrogate pairs, so the script's own check
  rejects it (`EmojiFails`).
* Chat: a REFERENCE turn that names a resource with its own creation node gets its tool results sent to that
  node (`ReferenceMisrouted`). A CREATE of another resource is refused in one turn but possible in two, with
  the parameters collected so far still there (`SwapInTwoTurns`). The word test for yes and no,
  meant to let a reply like "roll no" through, counts it as a refusal (`RollNoIsRefused`) and "ok no" as an
  acceptance (`OkNoIsAccepted`); `IsYesIff` and `IsNoIff` say which texts count as what, by the words that
  stand in them, and `RulingDecides` what becomes of the question.
* Tool loops: `reference_node` appends the user's message every time it is entered, and the repeat guard
  stops scanning there, so it never fires (`ReferenceGuardNeverFires`). `logging_tool_node` writes the tenant
  into the very calls the next batch is compared with, so a repeated batch of tenant tools runs again
  (`RepeatRunsIff`). Saying words said before opens no turn: after a ready result nothing runs
  (`RepeatedMessageRunsNothing`), otherwise exactly a batch that differs from the last one
  (`RepeatedMessageRunsIff`).
* Canvas: EKS rows bring no region, VPC or subnet row with them, so their references resolve only where the
  discovery found these too (`EksClustersResolveIff`, `EksNodeResolvesIff`, `EksVpcDangles`);
  and the ids of EKS nodes name no account, so they can repeat (`TwinEksNodes`).
* VPC scan: each held id is found exactly once under every completion order if and only if no held id is
  requested twice or only one id is requested (`OnceIff`); a repeated id can be hit once or twice depending on
  the order (`RepeatedIdDependsOnOrder`).
* ElastiCache: the direct path reads the first page only, the cache every page (`ElastiCacheRefines`,
  `SecondPageMissed`).
* Plugin merge: a span runs from the start of the line, so whatever stands in front of a jwt entry on its line is
  removed with it (`OtherEntryRemoved`); `SpansAreJwtIff` gives the exact condition. Two jwt entries on one line
  have one start, and the second rewrite cuts into what the first has put there (`SharedLineCuts`).
* GPU sizing: when nothing fits, best fit is the largest instance but the fallback list starts with the
  smallest (`BestFitIsFirstFallbackIff`, `FallbacksStartElsewhere`).

## Model

| member | source | states |
|---|---|---|
| LogWindow.GetLogEvents | app/integrations/cloudwatch_logs_integration.py:322-328 | the API answers the first `limit` events of a window in time order; a token may come with nothing behind it |
| LogWindowTheorems.SeenIff | app/integrations/cloudwatch_logs_integration.py:329-345 | the events in a window are those of the log from its start to its end, in their order |
| LogWindow.ChooseAnchor | app/integrations/cloudwatch_logs_integration.py:260-308 | whatever the streams report, the anchor lies in the range and at most 600 s before its end |
| LogWindowTheorems.AnchorIff | app/integrations/cloudwatch_logs_integration.py:260-308 | the latest stream time is the anchor if and only if it is positive, in the range and at most 600 s old; otherwise the range end is |
| LogWindow.GetLogEventsNewest | app/integrations/cloudwatch_logs_integration.py:239-410 | pre-flight, loops and trimming compute the search and the answer that the theorems below are about |
| LogWindow.SmartWindow | app/integrations/cloudwatch_logs_integration.py:329-388 | shrinking, expanding and paginating in place follow the search step by step |
| LogWindow.ReadPages | app/integrations/cloudwatch_logs_integration.py:366-388 | pagination collects the window's events up to the cap of twenty pages, whatever the tokens say |
| LogWindowTheorems.NewestSuffix | app/integrations/cloudwatch_logs_integration.py:329-396 | the answer is the newest end of all matching events, and not empty if anything matches, if and only if the last window was read to its end |
| LogWindowLadder.NewestFirstIff | app/integrations/cloudwatch_logs_integration.py:329-396 | the same promise over the request: it fails exactly when two seconds hold more than twenty pages, or the windows get stuck and the last is not a page that is the whole window |
| LogWindowLadder.ExhaustedIff | app/integrations/cloudwatch_logs_integration.py:329-388 | the attempts run out exactly on an empty window under a saturated one, at the widest window, or on a saturated window whose half is empty and whose half doubled is not partly filled |
| LogWindowLadder.NothingIsReturnedIff | app/integrations/cloudwatch_logs_integration.py:350-396 | although something matches, nothing is returned exactly when the attempts end on the empty window |
| LogWindowLadder.StuckUpEnds | app/integrations/cloudwatch_logs_integration.py:350-366 | what a search stuck while expanding ends on, by the parity of the window |
| LogWindowLadder.StuckDownEnds | app/integrations/cloudwatch_logs_integration.py:350-366 | what a search stuck while shrinking ends on |
| LogWindowLadder.BurstPaginates | app/integrations/cloudwatch_logs_integration.py:366-388 | a saturated two-second window is paginated, whatever lies around it |
| LogWindowLadder.EvenRungAnswersNothing | app/integrations/cloudwatch_logs_integration.py:350-396 | nothing in ten minutes but a page in twenty, and so on every second window: an empty answer that announces older events |
| LogWindowLadder.OddRungAnswersOldestPage | app/integrations/cloudwatch_logs_integration.py:350-396 | on the windows between: the oldest page of the saturated one |
| LogWindowLadder.SomethingMatchesNothingIsReturned | app/integrations/cloudwatch_logs_integration.py:350-396 | such a log exists: two events match, none is returned |
| LogWindowTheorems.AnswerSize | app/integrations/cloudwatch_logs_integration.py:390-396 | how many events are returned; a `break` exit never answers nothing when something matches |
| LogWindowTheorems.NothingNewerOmitted | app/integrations/cloudwatch_logs_integration.py:390-410 | nothing left out is newer than the reported oldest timestamp |
| LogWindowTheorems.OldestIsReturned | app/integrations/cloudwatch_logs_integration.py:402-410 | on every exit the oldest timestamp is absent exactly when the answer is empty; otherwise a returned event has it and none is earlier |
| LogWindowTheorems.EmptyAnswerIsHonest | app/integrations/cloudwatch_logs_integration.py:398-410 | on every exit an empty answer without "has older" means that nothing matches in the range |
| LogWindowTheorems.NoOlderMeansAll | app/integrations/cloudwatch_logs_integration.py:398-410 | on a `break` exit no "has older" means that every matching event was returned |
| LogWindowTheorems.OlderIsAnnounced | app/integrations/cloudwatch_logs_integration.py:398-401 | the only way the flag can be wrong: attempts exhausted on a full page that starts at the range start |
| LogWindowLadder.SilentIff | app/integrations/cloudwatch_logs_integration.py:398-401 | the requests for which it is: stuck so that the attempts end on a saturated window of the whole range that holds more than a page |
| LogWindowLadder.SilenceHappens | app/integrations/cloudwatch_logs_integration.py:398-401 | such a request exists |
| LogWindowTheorems.MoreAttemptsNeverHelp | app/integrations/cloudwatch_logs_integration.py:329-388 | a search that runs out of its fifteen attempts would run out of any number |
| LogWindowLadder.NineQueries | app/integrations/cloudwatch_logs_integration.py:329-388 | if no window that shrinking gets to is empty short of the range start, the loop breaks within nine window queries |
| LogWindowLadder.RecentEventIsFed | app/integrations/cloudwatch_logs_integration.py:329-388 | an event in the last two seconds is enough for that |
| LogWindowLadder.PaginatedIff | app/integrations/cloudwatch_logs_integration.py:366-388 | pagination happens if and only if the two-second window holds a full page |
| LogWindowTheorems.AlternationLosesTheNewest | app/integrations/cloudwatch_logs_integration.py:350-366 | nothing in five minutes but more than a page in ten: the answer is the oldest page, never the newest |
| LogWindowTheorems.AlternationHappens | app/integrations/cloudwatch_logs_integration.py:350-366 | such a log exists |
| LogWindowLadder.PageCapLosesTheNewest | app/integrations/cloudwatch_logs_integration.py:371-388 | whenever the two-second window holds more than twenty pages its newest events are lost |
| KongImport.Importer.IndexGroups | scripts/import_kong_routes_from_terragrunt.py:268-273 | of two groups with one key the later one is found |
| KongImport.Importer.SplitRows | scripts/import_kong_routes_from_terragrunt.py:286-303 | the rows are split into linked paths and the pool of adoptable rows |
| KongImport.Importer.ImportPath | scripts/import_kong_routes_from_terragrunt.py:381-419 | a path is left alone, adopts a pool row or inserts a row, in place |
| KongImport.Importer.ClaimGroup | scripts/import_kong_routes_from_terragrunt.py:318-377 | the group part of an entry: found and reconciled, created, or skipped |
| KongImport.Importer.Run | scripts/import_kong_routes_from_terragrunt.py:311-419 | the loops over entries and paths compute the reconciled state |
| KongImport.ImportFile | scripts/import_kong_routes_from_terragrunt.py:226-439 | a whole run, committed or not, from the stored rows to the stored rows and the counters |
| KongImport.MethodsAreUpper | scripts/import_kong_routes_from_terragrunt.py:70 | the parser's method names are unchanged by the upper-casing of stored rows |
| KongImportTheorems.LinkedMeaning | scripts/import_kong_routes_from_terragrunt.py:295-302 | the linked paths are exactly the links of rows to groups in scope |
| KongImportTheorems.PoolMeaning | scripts/import_kong_routes_from_terragrunt.py:287-303 | a pool holds only unlinked rows of its route, each once, in table order |
| KongImportTheorems.PoolComplete | scripts/import_kong_routes_from_terragrunt.py:287-303 | every unlinked row is in the pool of its route |
| KongImportTheorems.LinkCountLaw | scripts/import_kong_routes_from_terragrunt.py:381-419 | how many rows are linked to a path after a run, for every database and file |
| KongImportTheorems.NoTwins | scripts/import_kong_routes_from_terragrunt.py:274-285 | the import leaves no twins if and only if there were none and no unlinked path is listed twice |
| KongImportTheorems.ListedTwiceImportedTwice | scripts/import_kong_routes_from_terragrunt.py:381-419 | a path listed twice in a new group gets two rows |
| KongImportTheorems.RunLeavesIdle | scripts/import_kong_routes_from_terragrunt.py:362-419 | after a run no entry has anything left to do |
| KongImportTheorems.SecondRunIsIdle | scripts/import_kong_routes_from_terragrunt.py:268-419 | fixpoint: a second run creates, inserts and relinks nothing and changes no field of any group or row |
| KongConservation.AdoptionConserved | scripts/import_kong_routes_from_terragrunt.py:385-419 | for each route the claims adopt as many rows as were unlinked, the rest insert, nothing else leaves the pool |
| KongConservation.AdoptedInOrder | scripts/import_kong_routes_from_terragrunt.py:390-401 | the first pool rows are adopted, each once; the others keep every field |
| KongConservation.LinkedRowsUntouched | scripts/import_kong_routes_from_terragrunt.py:381-383 | rows linked before the run are the same after it |
| KongConservation.DryRunPredicts | scripts/import_kong_routes_from_terragrunt.py:355-439 | a dry run changes no stored row and reports the counters of the applied run |
| KongTally.CountersAreTrue | scripts/import_kong_routes_from_terragrunt.py:305-430 | the counters of a run are the rows inserted, the groups created and the rows that lost their unlinked state |
| KongProvenance.EverythingIsExplained | scripts/import_kong_routes_from_terragrunt.py:311-419 | after a run every group keeps its identity and service or was made for an entry and its resolved service; every row is as it was or active in a group under its service |
| KongTally.FoundAndSkipped | scripts/import_kong_routes_from_terragrunt.py:305-430 | the counters of groups found and of paths skipped: those of the entries whose group exists when they are reached, and of those that have no group and no service |
| KongOutcome.RunLeaves | scripts/import_kong_routes_from_terragrunt.py:311-419 | for every database and file, every field of every group and row after an applied run: groups as the file tells them or as they were, then the made ones; each path that gets a row gets, in the file's order, the first that waits on its route or a new one at the end |
| KongColumns.FindGroupIff | scripts/import_kong_routes_from_terragrunt.py:268-273 | the group found for a label and a method is the last row with both |
| KongColumns.LinkIff | scripts/import_kong_routes_from_terragrunt.py:286-303 | a row is linked exactly when its group id is that of a group which no later one with its key shadows, and then to that group's label, its upper-cased method and its path, whatever its status or service |
| KongColumns.PassedOverIff | scripts/import_kong_routes_from_terragrunt.py:286-303 | the paths passed over are those of the rows under such a group |
| KongColumns.WaitingIff | scripts/import_kong_routes_from_terragrunt.py:286-303 | every other row waits in the pool of its route, and nothing else does |
| KongColumns.RowUnderGroupKept | scripts/import_kong_routes_from_terragrunt.py:381-401 | a row under such a group keeps every field through a run |
| KongColumns.InitiatedRowStaysLinked | scripts/import_kong_routes_from_terragrunt.py:296-303 | a row of one group that is not deployed yet is not taken by an entry of another group with its path |
| KongColumns.PluginsOfEntry | scripts/import_kong_routes_from_terragrunt.py:318 | an entry's plugins are those listed under its label, a dash and its method in small letters |
| KongColumns.KongNameIs | scripts/import_kong_routes_from_terragrunt.py:178-185 | the Kong name of a plugin outside the catalogue, letter by letter |
| KongColumns.SamePluginsIff | scripts/import_kong_routes_from_terragrunt.py:176-186 | two lists name the same plugins when every Kong name is meant in both or in neither |
| ServiceResolution.Termination | scripts/import_kong_routes_from_terragrunt.py:197-222 | the recursion returns if and only if the owner chain of the label meets no label twice, then within one call more than labels |
| ServiceResolution.AcyclicResolves | scripts/import_kong_routes_from_terragrunt.py:217-222 | on every acyclic owner map, self-references allowed, it returns within the rank of the label |
| ServiceResolution.MutualOwnersDiverge | scripts/import_kong_routes_from_terragrunt.py:217-222 | two labels owning each other: it never returns |
| ServiceResolution.FoundAlongTheChain | scripts/import_kong_routes_from_terragrunt.py:201-222 | the service returned is what the first label of the owner chain with an answer of its own stands for |
| ServiceResolution.FoundIsCandidate | scripts/import_kong_routes_from_terragrunt.py:201-222 | whatever the owners, a returned name is a candidate service |
| ServiceResolution.AmbiguousIsFinal | scripts/import_kong_routes_from_terragrunt.py:208-215 | an ambiguous normalised match is never resolved through an owner |
| ServiceResolution.TableIsSound | scripts/import_kong_routes_from_terragrunt.py:326-339 | a service used for a new group is the resolved candidate and belongs to one code |
| ServiceColumns.NormIs | scripts/import_kong_routes_from_terragrunt.py:189-194 | the normal form, from the letters: no surrounding blanks, small letters, one "-service" taken off the end, then letters and digits only |
| ServiceColumns.KeptLetters | scripts/import_kong_routes_from_terragrunt.py:193-194 | which characters the normal form keeps |
| ServiceColumns.NamedIs | scripts/import_kong_routes_from_terragrunt.py:201-206 | the first three rules in their order: the name itself, the name without "-service", the hand-confirmed name |
| ServiceColumns.UnnamedIs | scripts/import_kong_routes_from_terragrunt.py:208-215 | otherwise the names with the same normal form: none, the one, or all of them as ambiguous |
| ServiceColumns.PassedOnIff | scripts/import_kong_routes_from_terragrunt.py:217-219 | an owner is asked exactly when no rule answers and it is named, not empty and not the label |
| ServiceColumns.PassedOnIs | scripts/import_kong_routes_from_terragrunt.py:217-222 | the owner's service is passed on, an owner without one gives no match |
| ServiceColumns.TableIff | scripts/import_kong_routes_from_terragrunt.py:326-339 | a label of the file has a service exactly when the recursion returns a name that belongs to one code |
| AuthzForest.Collector.ProductChain | scripts/fga_authz_backfill.py:110-125 | the closure adds a row's product link and, where none is known, a made-up workspace |
| AuthzForest.Collector.PathToGeo | scripts/fga_authz_backfill.py:137-154 | the closure adds a row's path down to its geo and remembers the tenant of a default group |
| AuthzForest.Collector.Collect | scripts/fga_authz_backfill.py:55-201 | the loops collect exactly the tuples of all rows and the owners' grants |
| AuthzForestTheorems.LeftOfJoin | app/core/authz/objects.py:55-75 | whatever stands left of it, a clean code can be split off a joined id again |
| AuthzForestTheorems.DefaultIds | app/core/authz/objects.py:55-63 | default ids give back what they were made from and never equal a clean code |
| AuthzForestTheorems.ParentReadOff | scripts/fga_authz_backfill.py:106-186 | in a consistent database the parent of a node is the one its id and row say |
| AuthzOneParent.OneParentIff | scripts/fga_authz_backfill.py:106-186 | for every database with unique codes: no node has two parents if and only if five conditions on the rows hold, one for each level of joined ids |
| AuthzOneParent.CleanOneParentIff | scripts/fga_authz_backfill.py:106-186 | with clean codes: if and only if no application without a known workspace is used by rows of two tenants |
| AuthzOneParent.ProductsIff | scripts/fga_authz_backfill.py:110-125 | the level of products alone, for every database |
| AuthzOneParent.GroupsIff | scripts/fga_authz_backfill.py:128-148 | the level of groups alone: no row is named like a default group in use of another product |
| AuthzOneParent.JoinIff | app/core/authz/objects.py:55-75 | exactly when two joined ids with different left parts are the same text |
| AuthzOneParent.ChainIsRootedIff | scripts/fga_authz_backfill.py:110-125 | exactly when the workspace of a row's chain has a parent |
| AuthzForestTheorems.Rooted | scripts/fga_authz_backfill.py:106-186 | every node hangs below a tenant by as many collected edges as its type is deep |
| AuthzForestTheorems.LeafReachesItsTenant | scripts/fga_authz_backfill.py:156-186 | every placed row reaches its own tenant by exactly six parent edges, through synthesized nodes too |
| AuthzForestTheorems.OwnersAdminister | scripts/fga_authz_backfill.py:188-201 | an admin tuple exists exactly for an owner and a group three edges below the owner's tenant, default groups included |
| AuthzReach.LeafReachesIff | scripts/fga_authz_backfill.py:110-186 | whenever no node has two parents: the tenants a placed row reaches by six edges are those above the workspace that its group's columns, or its own, lead to |
| AuthzReach.GroupReachesIff | scripts/fga_authz_backfill.py:110-148 | the same for a group and three edges |
| AuthzReach.AdminIff | scripts/fga_authz_backfill.py:188-201 | on every database: an admin tuple exists exactly for an owner and a group recorded under the owner's tenant |
| AuthzColumns.ConfigGeoIff | scripts/fga_authz_backfill.py:167-186 | exactly which geo hangs above a config leaf: that of its service's group if there is such a row, else of the default group of the product its service leads to, with the config's own environment and geo |
| AuthzColumns.InfraGeoIff | scripts/fga_authz_backfill.py:156-164 | likewise above an infrastructure leaf: of its own group, with its account's environment or "unknown" |
| AuthzColumns.ProductEdgeIff | scripts/fga_authz_backfill.py:110-125 | exactly which workspace hangs above a product, from the rows of applications and workspaces |
| AuthzColumns.WorkspaceEdgeIff | scripts/fga_authz_backfill.py:107-125 | exactly which tenant hangs above a workspace, made-up ones included |
| AuthzColumns.GroupEdgeIff | scripts/fga_authz_backfill.py:131-147 | exactly which product hangs above a group |
| AuthzColumns.EnvironmentEdgeIff | scripts/fga_authz_backfill.py:148-151 | exactly which group hangs above an environment |
| AuthzColumns.GeoEdgeIff | scripts/fga_authz_backfill.py:148-153 | exactly which environment hangs above a geo |
| AuthzColumns.RecordedIff | scripts/fga_authz_backfill.py:128-148 | the tenant recorded for a group: its last row's, without a row that of the first infrastructure row that has it made up, then of the first config |
| AuthzForestTheorems.PlacedIff | scripts/fga_authz_backfill.py:156-186 | a leaf exists exactly for the rows that are not skipped |
| AuthzOneParent.TwoTenantsOnOneApp | scripts/fga_authz_backfill.py:110-125 | two groups of different tenants on an application without workspace give its product two parents |
| AuthzOneParent.NamedLikeADefault | scripts/fga_authz_backfill.py:137-148 | a group row named like the default group of an application gets two parents |
| AuthzOneParent.DeadWorkspace | scripts/fga_authz_backfill.py:110-125 | a workspace named by an application but without a row is a parent that has none |
| SwitchMachine.ChatThread.SwitchIntentNode | app/infra_chat_agent/switch_intent_node.py:22-540 | the node, with its loops and in-place status writes, makes the modelled transition |
| SwitchMachine.ChatThread.SwitchConfirmationNode | app/infra_chat_agent/switch_confirmation_node.py:10-134 | the node makes the yes, no or unclear transition |
| SwitchMachine.ChatThread.WriteStatus | app/infra_chat_agent/switch_intent_node.py:77-82 | the in-place write of a session's status |
| SwitchMachine.ChatThread.FindMatches | app/infra_chat_agent/switch_intent_node.py:200-223 | the loop over suspended sessions finds those the turn asks for |
| SwitchMachine.ChatThread.FindOtherCreate | app/infra_chat_agent/switch_intent_node.py:386-404 | the loop finds a suspended CREATE of another resource if there is one |
| SwitchMachine.ChatThread.Advance | app/infra_chat_agent/infra_chat_graph.py:102-287 | one turn through the graph: what it leaves behind and which node it goes on to |
| SwitchTheorems.HistoryStaysEmpty | app/infra_chat_agent/switch_intent_node.py:406-486 | over every sequence of turns history stays empty, no question is pending, and a hint names its workflow completely |
| SwitchTheorems.TurnFollowsRule | app/infra_chat_agent/switch_intent_node.py:22-540 | on every reachable state the node comes down to one rule from hint and turn to hint |
| SwitchRoutes.TurnGoesTo | app/infra_chat_agent/infra_chat_graph.py:160-287 | on every reachable state, the node a turn goes to: a CREATE that is not refused and has no flow of its own goes to the response handler exactly when input is required or placement is missing, else to its node exactly for a database user, else to parameter extraction |
| SwitchRoutes.TurnRuns | app/infra_chat_agent/switch_intent_node.py:40-529 | on every reachable state, the workflow that runs after a turn, from what the model said and what ran before |
| SwitchRoutes.TurnLeaves | app/infra_chat_agent/switch_intent_node.py:40-540 | on every reachable state, every field of the state when the switch nodes are done |
| SwitchTheorems.ToolResultsReturn | app/infra_chat_agent/infra_chat_graph.py:373-396 | a turn working in create_flow_v2 or db_user_management_node is a CREATE and gets its tool results back |
| SwitchTheorems.ReferenceReturnsIff | app/infra_chat_agent/infra_chat_graph.py:373-396 | exactly when a REFERENCE turn gets its tool results back |
| SwitchTheorems.ReferenceMisrouted | app/infra_chat_agent/infra_chat_graph.py:373-396 | a REFERENCE turn about "s3" has its tool results sent to create_flow_v2 |
| SwitchTheorems.NoDirectSwap | app/infra_chat_agent/switch_intent_node.py:368-404 | no turn takes a running CREATE of one resource to a running CREATE of another |
| SwitchTheorems.SwapIsRefused | app/infra_chat_agent/switch_intent_node.py:368-404 | exactly the turns that try are refused, with hint and parameters unchanged |
| SwitchTheorems.SwapInTwoTurns | app/infra_chat_agent/switch_intent_node.py:493-529 | with a REFERENCE in between the second CREATE runs, on the parameters collected for the first resource |
| SwitchTheorems.InterruptionsKeepTheWorkflow | app/infra_chat_agent/switch_intent_node.py:47-53 | any number of questions, unsupported, blocked or failed turns leave the running workflow untouched |
| SwitchTheorems.ResumesIff | app/infra_chat_agent/switch_intent_node.py:192-275 | on any state with no question pending a turn resumes a suspended session exactly when one and only one fits, and takes over all it had |
| SwitchTheorems.ConfirmationAnswers | app/infra_chat_agent/switch_confirmation_node.py:34-134 | on any state: what yes, no and anything else do to the session, the hint, the parameters and the route |
| SwitchRoutes.ResumesWhatIsAskedFor | app/infra_chat_agent/switch_intent_node.py:197-275 | on any state without an open question, exactly when a turn resumes, from status, intent, resource and tool of the sessions |
| SwitchRoutes.AsksWhich | app/infra_chat_agent/switch_intent_node.py:276-312 | a REFERENCE turn that fits several suspended sessions asks which of them it is |
| SwitchRoutes.RefusedIff | app/infra_chat_agent/switch_intent_node.py:368-404 | on any state without an open question, exactly when a turn is refused |
| SwitchRoutes.SwitchGoesTo | app/infra_chat_agent/infra_chat_graph.py:160-202 | on any state, the edge behind switch_intent_node |
| SwitchRoutes.ConfirmationGoesTo | app/infra_chat_agent/infra_chat_graph.py:220-245 | on any state, the edge behind the confirmation node |
| SwitchRoutes.PlacementGoesTo | app/infra_chat_agent/infra_chat_graph.py:259-287 | on any state, the edge behind the placement check |
| SwitchRoutes.ToolResultsGoTo | app/infra_chat_agent/infra_chat_graph.py:373-386 | tool results go by the running resource, by its full name or one of its aliases |
| SwitchRoutes.UnansweredIsRejected | app/infra_chat_agent/switch_intent_node.py:57-85 | a question left unanswered has its session rejected and no other session changed |
| SwitchRoutes.StartsBesideTheQuestion | app/infra_chat_agent/switch_intent_node.py:493-540 | with a question open and nothing running: what starts, and whether the question stays open |
| SwitchRoutes.AskingAgainAccepts | app/infra_chat_agent/switch_intent_node.py:120-165 | asking again for what is pending, with a yes or no word, starts it afresh |
| SwitchRoutes.SelectionAnswers | app/infra_chat_agent/switch_intent_node.py:315-366 | what the reply to a choice of sessions does |
| SwitchReplies.WordsIff | app/infra_chat_agent/switch_intent_node.py:58-60 | the words of a text are exactly the blank-free stretches that stand between blanks or its ends |
| SwitchReplies.IsNoIff | app/infra_chat_agent/switch_intent_node.py:58-73 | a text counts as no if and only if a no word stands in it as a word of its own or "don't" occurs anywhere |
| SwitchReplies.IsYesIff | app/infra_chat_agent/switch_intent_node.py:58-73 | likewise for yes, with "go ahead" |
| SwitchReplies.MentionsIff | app/infra_chat_agent/switch_intent_node.py:64-71 | a phrase counts wherever the text reads so |
| SwitchReplies.RulingDecides | app/infra_chat_agent/switch_confirmation_node.py:34-134 | what the confirmation node makes of a reply, on any state with a question pending: accepted on yes, else refused on no, else left open, by the words of the reply alone |
| SwitchReplies.RollNoIsRefused | app/infra_chat_agent/switch_intent_node.py:58-73 | "Roll no" is a refusal |
| SwitchReplies.OkNoIsAccepted | app/infra_chat_agent/switch_intent_node.py:58-73 | "ok no" is accepted although it holds a no word |
| SwitchReplies.EndsInNo | app/infra_chat_agent/switch_intent_node.py:58-73 | every reply that ends in the word "no" is refused unless it says yes too |
| ToolLoop.ShouldContinueTools | app/infra_chat_agent/infra_chat_graph.py:326-361 | the backward loop stops exactly on a batch equal to the latest batch of the turn |
| ToolLoop.ShouldContinueToolsV2 | app/infra_chat_agent/infra_chat_graph.py:400-467 | both backward loops: also stops when the latest result of the turn was ready |
| ToolLoop.LastBatchIff | app/infra_chat_agent/infra_chat_graph.py:339-350 | what the scan for the previous batch looks for, by positions |
| ToolLoop.LastReadyIff | app/infra_chat_agent/infra_chat_graph.py:417-439 | what the scan for the latest result looks for, by positions |
| ToolLoop.NextBatch | app/infra_chat_agent/infra_chat_graph.py:400-467 | within a turn, exactly when the next batch runs |
| ToolLoop.LoopV2Guarded | app/infra_chat_agent/infra_chat_graph.py:400-467 | in any turn from any history no batch follows one with the keys it ran with, nor a ready result |
| ToolLoop.RepeatRunsIff | app/infra_chat_agent/workflows/reference/logging_tool_node.py:85-104 | a batch asked for twice runs twice if and only if it calls a tenant tool without the tenant in its arguments or ValidateParams without the conversation state |
| ToolLoop.RunChangesIff | app/infra_chat_agent/workflows/reference/logging_tool_node.py:85-104 | exactly the calls that running rewrites |
| ToolLoop.NewMessageOpensTurn | app/infra_chat_agent/workflows/create/create_flow_v2_node.py:777-782 | the first batch after a message not said before runs |
| ToolLoop.RepeatedMessageRunsIff | app/infra_chat_agent/workflows/create/create_flow_v2_node.py:740-782 | for every history: exactly when the first batch after words said before runs |
| ToolLoop.RepeatedMessageRunsNothing | app/infra_chat_agent/workflows/create/create_flow_v2_node.py:740-782 | after a turn that ended on a ready result, saying words said before runs nothing |
| ToolLoop.SameWordsAfterRefusal | app/infra_chat_agent/workflows/create/create_flow_v2_node.py:740-782 | after a turn that ended because a batch was repeated, the same words run exactly another batch |
| ToolLoop.ReferenceGuardNeverFires | app/infra_chat_agent/workflows/reference/reference_node.py:195-264 | in the reference loop every batch runs, equal to the one before or not |
| ToolColumns.ContinueIff | app/infra_chat_agent/infra_chat_graph.py:326-361 | the first router by positions: the last message asks for tools and does not repeat the latest batch of the turn |
| ToolColumns.ContinueV2Iff | app/infra_chat_agent/infra_chat_graph.py:400-467 | the second: nor is the latest result of the turn ready |
| ToolColumns.SameKeysIff | app/infra_chat_agent/infra_chat_graph.py:335-348 | batches are compared by names and arguments in order |
| ToolColumns.InjectedIs | app/infra_chat_agent/workflows/reference/logging_tool_node.py:64-104 | which argument is written for which tool; everything else of the call stays |
| ToolColumns.ToolNodeIs | app/infra_chat_agent/workflows/reference/logging_tool_node.py:75-125 | the messages after the tool node, one by one |
| ToolColumns.DropOrphansIs | app/infra_chat_agent/workflows/create/create_flow_v2_node.py:745-768 | what is dropped is the longest run of unanswered batches at the end |
| ToolColumns.V2NodeIs | app/infra_chat_agent/workflows/create/create_flow_v2_node.py:740-782 | the messages create_flow_v2 asks the model with, one by one |
| ToolColumns.ReferenceNodeIs | app/infra_chat_agent/workflows/reference/reference_node.py:195-264 | the messages reference_node leaves, one by one |
| ToolColumns.StopsBefore | app/infra_chat_agent/infra_chat_graph.py:400-467 | a turn runs on until a batch is empty, repeats the one before or follows a ready result |
| Canvas.KeyGivesId | lambda_vpc_discovery/vpc_discovery_service.py:3040-3054 | the account id looked up under a key is the one that would be computed |
| Canvas.IdGivesKey | lambda_vpc_discovery/vpc_discovery_service.py:3040-3054 | different account-and-geo pairs have different canvas ids, whatever the account ids look like |
| CanvasBuilder.Builder.See | lambda_vpc_discovery/vpc_discovery_service.py:3022-3068 | a place gets its geo, account and region rows once, by seen-sets and id map |
| CanvasBuilder.Builder.AddResource | lambda_vpc_discovery/vpc_discovery_service.py:3096-3128 | a resource seen again extends its node in place, a new one adds a node |
| CanvasBuilder.Builder.AddService | lambda_vpc_discovery/vpc_discovery_service.py:3238-3266 | an ECS service extends its cluster in place or starts it |
| CanvasBuilder.Builder.Transform | lambda_vpc_discovery/vpc_discovery_service.py:2880-3348 | the whole transformation equals filling every table on its own |
| CanvasBuilder.VpcsTableByTable | lambda_vpc_discovery/vpc_discovery_service.py:3022-3128 | the interleaved loop fills each table as if it were filled alone |
| CanvasTheorems.PlacesInNormalForm | lambda_vpc_discovery/vpc_discovery_service.py:3022-3068 | geo, account and region ids are free of duplicates and the references between them resolve, on every input |
| CanvasTheorems.RegionIff | lambda_vpc_discovery/vpc_discovery_service.py:3056-3068 | there is a region row exactly for the regions in which a VPC or a regional resource was found |
| CanvasTheorems.NodesListTheirSubnets | lambda_vpc_discovery/vpc_discovery_service.py:3096-3128 | one node per resource, as first seen, listing without repetition exactly the subnets that hold it |
| CanvasTheorems.VpcReferences | lambda_vpc_discovery/vpc_discovery_service.py:3070-3077 | every VPC's region is emitted |
| CanvasTheorems.SubnetReferences | lambda_vpc_discovery/vpc_discovery_service.py:3079-3094 | every subnet's VPC is emitted |
| CanvasTheorems.NodeReferences | lambda_vpc_discovery/vpc_discovery_service.py:3096-3128 | a node's region and all the subnets it lists are emitted |
| CanvasTheorems.RegionalReferences | lambda_vpc_discovery/vpc_discovery_service.py:3270-3334 | a regional node's region is emitted |
| CanvasTheorems.EksRegionIff | lambda_vpc_discovery/vpc_discovery_service.py:3130-3232 | an EKS row's region reference resolves if and only if something else was found in that region of the account |
| CanvasTheorems.EksRowsName | lambda_vpc_discovery/vpc_discovery_service.py:3156-3232 | every EKS node carries the region reference and the subnets of its workload |
| CanvasTheorems.TwinEksNodes | lambda_vpc_discovery/vpc_discovery_service.py:3164-3180 | two accounts with the same cluster, namespace and deployment names give two nodes with one id |
| CanvasTheorems.EksClustersResolveIff | lambda_vpc_discovery/vpc_discovery_service.py:3130-3150 | region, VPC and subnets of all EKS clusters resolve if and only if the discovery found those that each cluster's first workload names |
| CanvasTheorems.EksNodeResolvesIff | lambda_vpc_discovery/vpc_discovery_service.py:3156-3232 | region and subnets of an EKS node resolve if and only if the discovery found those of its workload |
| CanvasTheorems.EksVpcDangles | lambda_vpc_discovery/vpc_discovery_service.py:3130-3150 | a cluster whose region was found but whose VPC was not names a VPC without a row |
| CanvasTheorems.VpcIff | lambda_vpc_discovery/vpc_discovery_service.py:3070-3077 | the VPC rows are the VPCs found |
| CanvasTheorems.SubnetIff | lambda_vpc_discovery/vpc_discovery_service.py:3079-3094 | the subnet rows are the subnets of the VPCs found |
| CanvasTheorems.ClustersInNormalForm | lambda_vpc_discovery/vpc_discovery_service.py:3130-3268 | one EKS cluster per ARN; ECS clusters with exactly the subnets of their services, none twice |
| CanvasTheorems.EcsReferences | lambda_vpc_discovery/vpc_discovery_service.py:3234-3268 | an ECS cluster's region, VPC and subnets are all emitted |
| CanvasColumns.EcsClusterRows | lambda_vpc_discovery/vpc_discovery_service.py:3236-3266 | region and VPC of an ECS cluster are those of its first service: the VPC of the last subnet row whose id is that service's first subnet |
| CanvasColumns.EcsClusterVpc | lambda_vpc_discovery/vpc_discovery_service.py:3236-3266 | where subnet ids are unique that is the discovered VPC which holds the subnet |
| CanvasColumns.RegionsByArea | lambda_vpc_discovery/vpc_discovery_service.py:2899-2921 | the area of every region code |
| CanvasColumns.AtlasRows | lambda_vpc_discovery/vpc_discovery_service.py:3022-3068 | every geo, account and region row shows a place something was found in, and where it stands |
| CanvasColumns.VpcRows | lambda_vpc_discovery/vpc_discovery_service.py:3070-3077 | the VPC rows one by one, in the order found |
| CanvasColumns.SubnetRows | lambda_vpc_discovery/vpc_discovery_service.py:3079-3094 | the subnet rows one by one: the public ones first, numbered through, named or described by kind and zone |
| CanvasColumns.NodeRows | lambda_vpc_discovery/vpc_discovery_service.py:3096-3128 | every node of a subnet resource, with its subnets in the order seen |
| CanvasColumns.RegionalRows | lambda_vpc_discovery/vpc_discovery_service.py:3270-3334 | the regional rows one by one |
| CanvasColumns.EksNodesIff | lambda_vpc_discovery/vpc_discovery_service.py:3130-3232 | the EKS nodes are exactly those of the deployments and daemon sets outside the system namespaces |
| CanvasColumns.EksClusterRows | lambda_vpc_discovery/vpc_discovery_service.py:3130-3150 | an EKS cluster row shows the first workload with its ARN |
| VpcScan.FindVpcs | lambda_vpc_discovery/vpc_discovery_service.py:2708-2737 | the loop over completed checks with its early exit |
| VpcScan.ScanSplits | lambda_vpc_discovery/vpc_discovery_service.py:2681-2737 | requested ids are always split between found and remaining; at the end nothing remains or every check was examined |
| VpcScan.ScanIsComplete | lambda_vpc_discovery/vpc_discovery_service.py:2681-2743 | under every completion order exactly the requested VPCs some region holds are found |
| VpcScan.OnceIff | lambda_vpc_discovery/vpc_discovery_service.py:2681-2743 | with one region per VPC: under every completion order exactly the held checks are hits, each once, if and only if no held id is requested twice or only one id is requested |
| VpcScan.HitCount | lambda_vpc_discovery/vpc_discovery_service.py:2698-2737 | under every order a held check is a hit at least once and at most as often as its id is requested, exactly as often if some requested id is held nowhere |
| VpcScan.RepeatedIdDependsOnOrder | lambda_vpc_discovery/vpc_discovery_service.py:2698-2737 | two held ids, one requested twice: under one order each is found once, under another not |
| RegionCache.FetchServices | lambda_vpc_discovery/vpc_discovery_service.py:770-783 | chunks of ten give every service once, in order |
| RegionCache.FetchHosts | lambda_vpc_discovery/vpc_discovery_service.py:784-800 | chunks of a hundred give every host once, in order |
| RegionCache.FetchEcs | lambda_vpc_discovery/vpc_discovery_service.py:761-807 | the ECS part of the cache, a dict by cluster ARN |
| RegionCache.EcsFromCache | lambda_vpc_discovery/vpc_discovery_service.py:1456-1493 | the ECS resources of a subnet read from the cache |
| RegionCache.EcsDirect | lambda_vpc_discovery/vpc_discovery_service.py:1495-1565 | the ECS resources of a subnet read directly |
| RegionCache.EcsListsIff | lambda_vpc_discovery/vpc_discovery_service.py:1495-1565 | a cluster lists exactly its services with a network in the subnet and, when one of its hosts is there, those without one |
| RegionCache.EcsCacheRefines | lambda_vpc_discovery/vpc_discovery_service.py:761-807 | for every subnet cache and direct path agree on the clusters without repetitions |
| RegionCache.FetchCacheClusters | lambda_vpc_discovery/vpc_discovery_service.py:861-895 | the ElastiCache part of the cache, subnet groups resolved by name |
| RegionCache.CacheFromCache | lambda_vpc_discovery/vpc_discovery_service.py:1295-1316 | the ElastiCache resources of a subnet read from the cache |
| RegionCache.CacheDirect | lambda_vpc_discovery/vpc_discovery_service.py:1318-1348 | the ElastiCache resources of a subnet read directly |
| RegionCache.DirectListsIff | lambda_vpc_discovery/vpc_discovery_service.py:1318-1348 | a cluster is listed exactly when a group its name stands for is of the VPC and holds the subnet |
| RegionCache.ElastiCacheRefines | lambda_vpc_discovery/vpc_discovery_service.py:861-895 | the cached list is the direct list followed by the matches on later pages; equal if and only if no cluster on a later page has a group of the VPC that holds the subnet |
| RegionCache.SecondPageMissed | lambda_vpc_discovery/vpc_discovery_service.py:1318-1348 | a cluster on the second page is listed by the cache alone |
| RegionCache.TwoGroupsDiffer | lambda_vpc_discovery/vpc_discovery_service.py:875-895 | with two groups for one name the direct path can list a cluster the cache does not |
| RegionColumns.ClusterNameIs | lambda_vpc_discovery/vpc_discovery_service.py:769 | a cluster's name is what stands behind the last "/" of its ARN |
| RegionColumns.EcsListsHold | lambda_vpc_discovery/vpc_discovery_service.py:1456-1565 | both paths list for a subnet exactly the services of its clusters that are there, from the pages of the calls alone |
| RegionColumns.EcsOrder | lambda_vpc_discovery/vpc_discovery_service.py:1456-1565 | in which order a cluster's services are listed |
| RegionColumns.CachedHoldsIff | lambda_vpc_discovery/vpc_discovery_service.py:1295-1316 | the cached ElastiCache list holds exactly the clusters of all pages whose last group of that name is there |
| RegionColumns.DirectHoldsIff | lambda_vpc_discovery/vpc_discovery_service.py:1318-1348 | the direct one those of the first page with a group that is there |
| PyLiteralTheorems.LexPrinted | scripts/convert_scanned_data.py:47-73 | the printed text splits into the tokens of the value, at every indent level |
| PyLiteralTheorems.ParseTokens | scripts/convert_scanned_data.py:47-73 | the tokens of a value, trailing commas included, parse back to it |
| PyLiteralTheorems.IntRoundTrip | scripts/convert_scanned_data.py:73 | integers are read back |
| PyLiteralTheorems.ReadEscaped | scripts/convert_scanned_data.py:71-72 | a string with JSON escapes, read as a Python string, is the string with surrogates for code points beyond the BMP |
| PyLiteralTheorems.RoundTrip | scripts/convert_scanned_data.py:47-73 | for every value and indent level the literal reads back as the value if and only if its strings are in the BMP |
| PyLiteralTheorems.SanityCheckPasses | scripts/convert_scanned_data.py:84-89 | the script's check passes exactly on data whose strings are in the BMP |
| PyLiteralTheorems.EmojiFails | scripts/convert_scanned_data.py:84-89 | a code point beyond the BMP comes back as two surrogates and is rejected |
| PyLiteralLayout.PrintedInLines | scripts/convert_scanned_data.py:47-73 | the printed text is its lines: opener, one item a line with a trailing comma, closer, each indented by two spaces a level |
| PyLiteralLayout.EscapeForm | scripts/convert_scanned_data.py:71-72 | which escape each code point gets: itself, two characters, or four small hexadecimal digits once or twice |
| PyLiteralLayout.SurrogatesMean | scripts/convert_scanned_data.py:71-72 | the two escapes beyond the BMP are the UTF-16 surrogates of the code point |
| PyLiteralLayout.IntForm | scripts/convert_scanned_data.py:73 | integers have a sign exactly when negative and no leading zero |
| PyLiteralLayout.BlockInLines | scripts/convert_scanned_data.py:84 | the block assigned to the variable, line by line |
| JwtSplice.FindEntries | scripts/merge_jwt_plugin_entry.py:62-72 | line starts and tails of the entries, by the loops over offsets |
| JwtSplice.SpansOrderedIff | scripts/merge_jwt_plugin_entry.py:65-72 | spans follow each other if and only if a line break separates every two neighbouring jwt entries |
| JwtSplice.SpansAreJwtIff | scripts/merge_jwt_plugin_entry.py:65-72 | the spans do not overlap and hold nothing but jwt entries, their indentation and what separates them, if and only if nothing but blanks stands in front of each on its line |
| JwtSplice.OtherEntryRemoved | scripts/merge_jwt_plugin_entry.py:117-125 | another entry in front of a jwt entry on its line is removed with it |
| JwtSplice.SharedLineOverlaps | scripts/merge_jwt_plugin_entry.py:65-72 | two entries on one line have overlapping spans |
| JwtSplice.FindKeeper | scripts/merge_jwt_plugin_entry.py:104-105 | the kept entry is the first of those with the most targets |
| JwtSplice.MergeTargets | scripts/merge_jwt_plugin_entry.py:106-111 | the loop with its seen-set is first-occurrence deduplication of all targets |
| JwtSplice.MergedTargets | scripts/merge_jwt_plugin_entry.py:106-111 | merging loses no target and keeps none twice |
| JwtSplice.BackwardsIsSimultaneous | scripts/merge_jwt_plugin_entry.py:117-125 | rewriting from the last span to the first is the simultaneous substitution; the text outside the spans is unchanged |
| JwtSplice.Merge | scripts/merge_jwt_plugin_entry.py:90-125 | the whole merge when a line break separates neighbouring entries, or nothing when there are fewer than two |
| JwtColumns.SweptIff | scripts/merge_jwt_plugin_entry.py:64-70 | which characters an entry takes with it: back to the line break in front of its key, on over commas, blanks and tabs behind its brace, and one line end |
| JwtColumns.MergedIs | scripts/merge_jwt_plugin_entry.py:90-125 | the merged file character by character: what no entry takes with it, and the rendered entry in place of the kept one |
| JwtColumns.StartsItsLineIff | scripts/merge_jwt_plugin_entry.py:64 | the condition of SpansAreJwtIff on the characters of the line |
| JwtColumns.MergedInOrder | scripts/merge_jwt_plugin_entry.py:106-111 | the merged targets come in the order of their first occurrences |
| JwtColumns.DescendingIs | scripts/merge_jwt_plugin_entry.py:121 | spans are rewritten by falling start, equal starts in the order found |
| JwtColumns.SharedLineCuts | scripts/merge_jwt_plugin_entry.py:117-125 | what the rewrite leaves of two entries on one line, whichever of them is kept |
| GpuSizing.ClampIsIdempotent | app/core/aws_gpu_config.py:198-212 | clamping twice is clamping once, also with the rounded-up count |
| GpuSizing.ClampedFits | app/core/aws_gpu_config.py:172-235 | a clamped request fits its best-fit instance, with at least the GPUs asked for |
| GpuSizing.FamiliesAreAligned | app/core/aws_gpu_config.py:50-138 | the published families meet the condition of ClampedFits |
| GpuSizing.DefaultIsFixpoint | app/core/aws_gpu_config.py:279-293 | the default request is left alone by the clamp |
| GpuSizing.BestFitIsFirstFallbackIff | app/core/aws_gpu_config.py:215-255 | exactly when best fit is the head of the fallback list |
| GpuSizing.FallbacksStartElsewhere | app/core/aws_gpu_config.py:215-255 | a request too large for its family has a fallback list that does not start with its best fit |
| GpuSizing.BestFitIsMonotone | app/core/aws_gpu_config.py:215-235 | a larger request never gets a smaller instance |
| GpuSizing.SortedIsSorted | app/core/aws_gpu_config.py:238-255 | the fallback list is sorted by size and a permutation of what it is made from |
| GpuSizing.RoundsUp | app/core/aws_gpu_config.py:156-169 | a GPU count is rounded up, monotonically, and refused only above the largest |
| GpuColumns.RoundedIff | app/core/aws_gpu_config.py:156-169 | the count used is the least of the family that is not below the one asked for |
| GpuColumns.InstanceIff | app/core/aws_gpu_config.py:156-169 | the instance for a count: fewest GPUs, then fewest vCPUs, then the first listed |
| GpuColumns.ClampIs | app/core/aws_gpu_config.py:172-212 | a request is raised to one and lowered to the largest size with that count less the reserve: two vCPUs, and 4 GiB or a thirty-second of the memory |
| GpuColumns.DefaultKeeps | app/core/aws_gpu_config.py:279-293 | the default request leaves that reserve on the instance chosen |
| GpuColumns.BestFitIs | app/core/aws_gpu_config.py:215-235 | the least size with room, or the largest when none has, with the rounded-up count |
| GpuColumns.FallbacksAre | app/core/aws_gpu_config.py:238-255 | exactly which instances the list holds, from the smallest up |
| GpuColumns.RefusedIff | app/core/aws_gpu_config.py:156-169 | every function refuses exactly the counts above the largest |

## Left out

- Network calls, sessions, credentials, retries, logging and message wording everywhere: parameters or absent.
- Text case and blanks: ASCII only.
- LogWindow.GetLogEvents: the API's 1 MB answer limit, inverted ranges and the rounding of timestamps to floating point are not modelled; instants are microseconds, events milliseconds.
- KongImport.ImportFile: starts from the parsed file, so the gateway parser is absent, and so is the `--only` filter, which reads a key the parser does not write.
- KongImport.Importer.Run: rows not in scope, audit columns and the commit itself are not part of the tables.
- ServiceResolution.TableIsSound: the table has no entry for a label whose resolution does not end, so the theorems about runs are about files on which it ends for every label; on others the script stops with a recursion error before it stores anything.
- AuthzOneParent.OneParentIff: assumes unique codes of workspaces, groups, infrastructure and configs, which their tables enforce.
- AuthzForest.Collector.Collect: the final sort and the writing of tuples are not modelled; a node keeps type and id apart where the script joins them with a colon.
- SwitchMachine.ChatThread.SwitchIntentNode: the session-suspending branch is unreachable because the script sets its guard to false, so the method omits it; None and "" are not told apart; the reply read as a number is a parameter.
- SwitchMachine.ChatThread.Advance: nodes whose source is elsewhere are assumed to leave the switch fields alone and to change at most the parameters, the hint's phase and the prompted flag, reference_node only the last two; the validator state is not modelled.
- SwitchTheorems.ResumesIff: like ConfirmationAnswers it is about states that cannot arise from a fresh thread (`HistoryStaysEmpty`), only from stored ones: they say what the code would do, since the script switches the suspending branch off.
- SwitchReplies.RulingDecides: the word test is reached only with a switch pending, which no run from a fresh thread gets to (`HistoryStaysEmpty`); it is about the confirmation node alone, before which switch_intent_node drops the question when a CREATE or REFERENCE turn says neither yes nor no.
- ToolLoop.ShouldContinueToolsV2: whether a tool result says it is ready is given, not parsed from its text.
- ToolLoop.NextBatch: the forced choice of ValidateParams on the first entry of a turn is part of what the model is asked, so any calls are allowed.
- ToolLoop.ReferenceGuardNeverFires: the graph framework's limit on the number of steps is not modelled.
- The loop of db_user_management_node: it has no guard, so there is nothing to prove about one.
- CanvasBuilder.Builder.Transform: status texts, type names, display names, empty settings and software labels are absent; positions are modelled for geo and account rows.
- CanvasTheorems.EksRegionIff: like the two theorems built on it, assumes account ids without dashes, as AWS account ids are.
- VpcScan.FindVpcs: checks cancelled by the early exit are those behind it in the completion order.
- RegionCache.FetchEcs: error-free snapshots only; the EKS, RDS, load-balancer, Lambda and MSK parts of the cache are not modelled: they are filtered copies of one listing, without chunks or joins.
- PyLiteralTheorems.RoundTrip: floating-point numbers are carried as their text; the reader accepts more than Python does.
- JwtSplice.Merge: the positions of keys and braces, the target lists and the rendered entry are given; the final re-parse is not modelled, since the brace matcher is not part of this model.
- GpuSizing.ClampedFits: the label selectors built from the choice are not modelled.
- The locator report of verify_sqs_locators.py is not part of this model: it prints differences between stored rows and the text its own formatter makes, and nothing in the platform reads it.
- Temporal workflows, repositories, middleware, plugin components and language-model prompts are not part of this model.
