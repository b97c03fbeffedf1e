# gzscript verification

A Dafny model of the parts of gzscript that are protocols or algorithms, with proofs of
what they keep. Every result is stated for all inputs, all runs or all interleavings.
Each stateful C++ object appears twice: as a specification function on a value, about which
the properties are proved, and as a class whose methods are proved to compute that function.
The files below in second place (`CacheProgress`, `BuildOrder` and so on) say what those
functions mean for a user, in terms of their own: positions, paths, lines, names, answers.

| file | what it models |
|---|---|
| `CacheProtocol.dfy`, `CacheProgress.dfy` | any number of editor processes sharing the module cache through locks, private files, renames and stamps, with crashes and outside edits at every step; who can go on, and where a process alone gets to |
| `BuildQueue.dfy`, `BuildOrder.dfy` | the queue, the active build and the publication rules inside one process; the order of the queue and the fate of each request |
| `SourceScan.dfy`, `SourceNormal.dfy`, `Dependencies.dfy`, `CacheKey.dfy` | how a cache key comes from a script: the scanner, the normal form of a source, the walk over imports, the length-prefixed identity |
| `BindingGraph.dfy`, `Inheritance.dfy` | the dependency closure of the generated bindings, their component files and imports; inheritance chains |
| `TreeSync.dfy`, `TreeOutcome.dfy` | writing the generated tree to disk and checking it; what that means path by path |
| `Migration.dfy`, `MigrationOutcome.dfy` | loading a module and moving live editor instances to it in deferred batches; when an instance moves, with which state, and where a pass leads |
| `LspFraming.dfy`, `LspHeader.dfy` | the byte stream from the language server (Base Protocol, "Header Part", Language Server Protocol Specification 3.17) |
| `LspSession.dfy`, `LspOutcome.dfy` | requests, documents, timeouts and restarts of the language server |
| `Diagnostics.dfy`, `DiagnosticStore.dfy` | the order of diagnostics, the normal form of a batch, the store and its change queue |
| `DocumentPath.dfy`, `PathOutcome.dfy` | the path normaliser, POSIX branch; the place a path leads to |
| `MethodCache.dfy` | the once-only method bind cache, any number of threads |
| `Decimal.dfy`, `Strings.dfy`, `Wrappers.dfy` | shared helpers |

## Where the code does less than one would expect

Each of these is proved twice over: exactly when it holds, for all inputs, and an input or a run where it fails.

- A normal path is a fixed point except for a non-file scheme followed by two or more slashes, although
  `src/diagnostics/gz_diagnostic_path.hpp:21` says "Idempotent" (`IdempotentExceptAfterScheme`; every
  path it excludes is an input where it fails).
- Sorting and dropping equal neighbours is sure to remove repeats exactly when no repeated entry ties
  with one that has another end (`RepeatsRemovedIff`; batches: `RepeatStays`).
- Late results can overwrite newer diagnostics, although `src/diagnostics/gz_diagnostic_store.hpp:17-20`
  says they never can: exactly when the document was removed and has reached the generation of the
  update again in a later lifetime (`LateUpdateOverwritesIff`; run: `UpdateOfRemovedDocumentIsShown`).
- Saving does not always lead to the newest source: when the active build already has it and an older
  request is waiting, the older one is built last (`NewestSourceIsBuiltLast`; run: `OlderTextIsPublished`).
- A request put back because its inputs changed is dropped, not built, exactly when it had been put
  back with a plan before: its plan was moved out (`RetryNeedsFreshPlan`; run: `ChangedInputsAreDropped`).
- The recheck of the key after compiling can be fooled exactly when the contents an input takes over time
  return to an earlier one after another (`RecheckIsSafeIff`; a run for every such history:
  `ReturningInputFoolsRecheck`). Within one run only a return while a build of the script is under way
  and its compiler runs in between can do harm (`PublishedFromItsInputs`).
- Reading a document by the key that was drained for it shows another document exactly when its path has
  a non-file scheme followed by two or more slashes, since `src/diagnostics/gz_diagnostic_store.cpp:193`
  normalises the key once more (`DrainedKeyIsReadIff`, which is about every path).
- A header that ends in the last three bytes before the limit is accepted or refused depending on how it
  arrives in chunks (`HeaderLimitAndChunks`, for streams of any messages; header: `SameMessageBothWays`).
- The pump gives up on a stream of messages, each with room in its header, exactly when more than its input limit is left after the
  eight messages of one call (`Pump`; run: `WellFormedStreamOverflows`).
- A completion asked for while a failed server may not be restarted yet is not retried by asking again
  for the same thing: asking launches only for a query that is not already waiting, and a failed client
  has a query waiting exactly when it was refused since the last launch (`CompleteLaunchesIff`,
  `FailedClientWaitsIff`; run: `RefusedQueryRun`). Asking for a definition is no different
  (`LookupLaunchesIff`, `RefusedLookupStaysPending`).
- A stray Zig file with a backslash in its name survives synchronisation exactly when the name with
  slashes is generated, and check mode does not notice (`BackslashSurvivesIff`; disk:
  `BackslashFileSurvives`).

## Model

| member | source | states |
|---|---|---|
| CacheProtocol.StepKeepsSound | src/gz_build_manager.cpp:662-736 | every step of every process, crash, outside edit or deletion keeps the invariant: stamps name modules that were compiled and loaded for the key, and a process between locking and unlocking owns the lock |
| CacheProtocol.RunsAreSound | src/gz_build_manager.cpp:897-960 | the invariant holds after every interleaving of any number of processes |
| CacheProtocol.MatchingOutputIsGenuine | src/gz_build_manager.cpp:83-93 | an output whose stamp matches has bytes that some process compiled for that key and loaded |
| CacheProtocol.OneHolderPerKey | src/gz_file_utils.cpp:43-94 | no two processes are ever inside the locked section of one key |
| CacheProtocol.PublishedFromItsInputs | src/gz_build_manager.cpp:1148-1175 | unless the input of a script leaves its planned content while the compiler of a build runs and comes back before that build is over, all that the compiler of its published modules read has the module's key |
| CacheProtocol.MatchingOutputFitsItsKey | src/gz_build_manager.cpp:745-797 | under the same assumption on the scripts built for that key, a module whose stamp matches was loaded and compiled from exactly the inputs of its key |
| CacheProtocol.ReturningInputFoolsRecheck | src/gz_build_manager.cpp:781-794 | for every history of an input that returns to a content after another one there is a run with exactly that history that publishes a module compiled from the other |
| CacheProtocol.NoReturnInHistory | src/gz_build_manager.cpp:1148-1175 | an input whose history never returns does not return during any build of any run |
| CacheProtocol.RecheckIsSafeIff | src/gz_build_manager.cpp:1148-1175 | no run with a given history of a script's input publishes a module for it compiled from inputs of another key iff the history never returns |
| CacheProtocol.CleanStepKeepsOnce | src/gz_build_manager.cpp:750-767 | with fixed inputs and nothing failing, a step keeps: a key was compiled at most once and its matching module or its one holder accounts for it |
| CacheProtocol.AtMostOneCompilation | src/gz_build_manager.cpp:897-960 | in such runs all processes together run the compiler at most once for a key |
| CacheProgress.StepKeepsLocksFit | src/gz_file_utils.cpp:24-41 | every step keeps: a key is locked exactly by the process between taking its lock and letting it go |
| CacheProgress.LockedIffInside | src/gz_file_utils.cpp:43-94 | in any run a key is locked iff a process is inside its section, and by that one; a process can take the lock of its plan iff nobody is inside |
| CacheProgress.EndLetsOthersIn | src/gz_build_manager.cpp:897-996 | however a job ends, in a crash too, whoever waits for its key can go in; a module that did not load is gone, and no other end touches a module |
| CacheProgress.AnythingMayFail | src/gz_build_manager.cpp:662-736 | in the model a process may crash at any time and every step of a job may fail |
| CacheProgress.MeddlingIsNoticed | src/gz_build_manager.cpp:83-93 | a module that somebody overwrote or deleted while its key was free has no matching stamp any more |
| CacheProgress.ScratchIsTransient | src/gz_build_manager.cpp:666-718 | a process that never crashes has a private output exactly from the exit of its compiler to the end or the publication of the job |
| CacheProgress.IdleIsServed | src/gz_build_manager.cpp:745-797 | from every reachable state with the key of the inputs free, an idle process alone compiles iff no stamp matches and ends with the module of that key loaded and stamped, the lock free, and nothing else changed |
| CacheProgress.WaiterIsServed | src/gz_build_manager.cpp:911-927 | a process that waited with any plan makes it anew under the lock, changes the lock if the key is another, and is served just so for the inputs of now |
| BuildQueue.BuildManager.QueueCompile | src/gz_build_manager.cpp:803-836 | queueing is the specification (early returns, the new generation, replacement in place) and keeps the invariant |
| BuildQueue.BuildManager.StartNext | src/gz_build_manager.cpp:874-995 | the loop of plan, lock, replan, cache hit, compiler start, put-back and failure is the specification and keeps the invariant |
| BuildQueue.BuildManager.Finish | src/gz_build_manager.cpp:662-736 | removes every private file of the plan on every path; gives a module iff the exit, the move and the load succeed |
| BuildQueue.BuildManager.CompleteActive | src/gz_build_manager.cpp:1119-1193 | the end of a build (stale, superseded, inputs changed, failed or published) followed by the next start is the specification and keeps the invariant |
| BuildQueue.BuildManager.Compile | src/gz_build_manager.cpp:738-801 | a synchronous compile leaves no private file and gives exactly the key its attempts determine |
| BuildQueue.AttemptedIff | src/gz_build_manager.cpp:745-801 | that key is the one of the first attempt that gives a module, found unchanged after compiling, if every attempt before it is one that is made again |
| BuildQueue.BuildManager.Shutdown | src/gz_build_manager.cpp:429-459 | empties the queue, removes the files of the active build and keeps the invariant |
| BuildQueue.CompiledIsPublishedIff | src/gz_build_manager.cpp:1130-1187 | a compiled module at the end of a build is published exactly when it is of the current generation, the recomputed key is the built key, and it was moved and loaded |
| BuildQueue.CacheHitIsPublishedIff | src/gz_build_manager.cpp:933-962 | a round publishes exactly when the key just planned for its own request has a matching stamp under the lock, is not the one loaded, and loads; and it publishes that key |
| BuildQueue.StaleChecksNeverFire | src/gz_build_manager.cpp:879-884 | over every run a waiting request is current and newer than the active build of its script, so no current build is superseded |
| BuildQueue.DoKeepsInv | src/gz_build_manager.cpp:803-1193 | every event keeps: one waiting request per script, current and newer than its active build; private files only of the active build |
| BuildQueue.OnlyTheLatestIsPublished | src/gz_build_manager.cpp:1130-1187 | over every run a publication is for the script's current generation, under a key computed in that event |
| BuildQueue.FilesBelongToTheActiveBuild | src/gz_build_manager.cpp:661-733 | between calls the private files are at most the adapter and output of the active build, none without one |
| BuildQueue.NewestSourceIsBuiltLast | src/gz_build_manager.cpp:812-836 | saving makes the newest source the last to be built iff not (the active build has it and an older request waits) |
| BuildQueue.OlderTextIsPublished | src/gz_build_manager.cpp:812-836 | a run in which saving the newest text changes nothing and the older one ends up published |
| BuildQueue.RunsFitPlans | src/gz_build_manager.cpp:886-921 | over every run a waiting request has a plan iff it was put back with one, and the active request a moved-out plan iff it was |
| BuildQueue.RetryNeedsFreshPlan | src/gz_build_manager.cpp:886-921 | in every run a request whose inputs changed is put back and can be built again iff it was not put back with a plan before; otherwise every round drops it |
| BuildQueue.ChangedInputsAreDropped | src/gz_build_manager.cpp:886-921 | a run from the empty queue in which that happens and nothing is published |
| BuildQueue.ChangedInputsPutBack | src/gz_build_manager.cpp:1168-1175 | inputs that changed during the build publish nothing and put the request first |
| BuildOrder.QueueingKeepsPlaces | src/gz_build_manager.cpp:812-836 | saving changes nothing if the text is being built or waits already; otherwise a request for it takes the very position of the waiting one of its script, or goes behind all, and every other request stays where it is |
| BuildOrder.ChangedIsQueued | src/gz_build_manager.cpp:812-836 | a script that was renamed and edited waits, once saved, to be built under its new name and text, unless just that is on its way |
| BuildOrder.RoundTakesFirst | src/gz_build_manager.cpp:879-884 | a round takes the first request and no other, and puts back at most that one, in front |
| BuildOrder.EventKeepsOrder | src/gz_build_manager.cpp:803-1193 | no event lets a waiting script get before one that waits in front of it; a script starts to wait only by being saved, behind all, or by the end of its own build |
| BuildOrder.FirstSavedIsFirstTaken | src/gz_build_manager.cpp:827-883 | over every run, of two scripts the one that waits first is taken first, put-backs of a build of the other apart |
| BuildOrder.RoundOutcome | src/gz_build_manager.cpp:886-996 | what a round makes of its request: put back with a plan iff it must wait, put back as it was iff its module was lost, built iff the plan is current, locked, not cached and the compiler starts, under a fresh number, and otherwise done with |
| BuildOrder.ExitPutsBackIff | src/gz_build_manager.cpp:1129-1176 | the end of a build puts its request back in front iff the compiler succeeded for the current text and the inputs have another key; its files are gone whatever comes of it |
| BuildOrder.ValidIffLoaded | src/gz_build_manager.cpp:886-1187 | over every run a script counts as valid iff it has a module, whatever fails |
| BuildOrder.ShutdownIsFinal | src/gz_build_manager.cpp:429-459 | after shutting down nothing waits, is built, published or left on disk, whatever is asked |
| SourceScan.SourceDependencies | src/gz_build_manager.cpp:158-219 | the index loop stays in bounds, ends on all texts and returns what the text means |
| SourceScan.PieceScanned | src/gz_build_manager.cpp:163-217 | a printed comment, literal, directive or plain character is scanned as itself, whatever follows |
| SourceScan.PrintedProgramScanned | src/gz_build_manager.cpp:158-219 | scanning a printed program succeeds and finds exactly its directives in order |
| SourceScan.ScannedIff | src/gz_build_manager.cpp:158-219 | the scanner succeeds on exactly the texts that are programs, with any characters in them, unfinished comments and literals included, and finds exactly their directives |
| SourceNormal.NormalFormScans | src/gz_build_manager.cpp:271-274 | the normal form of a source has its directives, with unix line ends in their paths |
| SourceNormal.SameNormalFormSameDirectives | src/gz_build_manager.cpp:504-515 | sources with one normal form have the same directives, if no path has a line end of two characters |
| SourceNormal.UnixOfLines | src/gz_build_manager.cpp:271-274 | replacing line ends keeps the lines and turns exactly the two-character ends between them into single ones |
| SourceNormal.NormalIsBetweenEdges | src/gz_build_manager.cpp:271-274 | the normal form is what is between the blanks and control characters at either edge, all of which are stripped |
| Dependencies.AppendDependencies | src/gz_build_manager.cpp:221-269 | the work list with its visited set ends on every disk, cycles included, and computes the walk and its fingerprint |
| Dependencies.ExploreIsExact | src/gz_build_manager.cpp:229-267 | the walk from any frontier succeeds iff no unsound node is reachable, and then closes the visited set |
| Dependencies.VisitsExactlyReachable | src/gz_build_manager.cpp:221-269 | the walk succeeds iff every reachable node is sound, and visits exactly the reachable nodes |
| Dependencies.SameWalk | src/gz_build_manager.cpp:242-252 | equal fingerprints force two walks on two disks to be step for step the same |
| Dependencies.FingerprintsTellDisksApart | src/gz_build_manager.cpp:221-269 | for roots that pull in the same nodes fingerprints are equal iff the disks agree on every file hashed |
| Dependencies.EqualKeysMeanEqualInputs | src/gz_build_manager.cpp:504-600 | equal keys mean equal build inputs: roots with one normal form, and equal contents of every imported and embedded file |
| Dependencies.ChildrenAreFollowed | src/gz_build_manager.cpp:254-267 | a file pulls in the targets of its directives in order, apart from imports without a slash that do not end in .zig; it has an answer iff its text is a program, and an embedded file pulls in nothing |
| Dependencies.ZigIffEnds | src/gz_build_manager.cpp:257-260 | the extension is zig iff the path ends in .zig, and empty without a dot |
| Dependencies.ImportedFileCounts | src/gz_build_manager.cpp:242-265 | a script that imports a Zig file by any path, a bare name included, or embeds a file, has another fingerprint when the content of that file is another |
| CacheKey.FieldReadBack | src/gz_build_manager.cpp:95-100 | a length-prefixed field is read back whatever follows it |
| CacheKey.FieldsInjective | src/gz_build_manager.cpp:95-100 | a list of fields under known names determines the values |
| CacheKey.IdentityInjective | src/gz_build_manager.cpp:584-600 | equal identity texts mean equal build inputs, all thirteen fields |
| BindingGraph.SeedEdges | tools/generate_bindings.zig:286-301 | the matrix starts with exactly the direct dependencies: itself, ancestors, and the types of its methods unless it is a shell |
| BindingGraph.AddEdges | tools/generate_bindings.zig:370-375 | adds exactly the edges to the classes a list of type names mentions |
| BindingGraph.Close | tools/generate_bindings.zig:302-310 | the in-place triple loop computes exactly the reflexive-transitive closure |
| BindingGraph.PassKeepsClosed | tools/generate_bindings.zig:303-310 | one pass, although it reads cells it may have changed, extends paths by exactly one more intermediate class |
| BindingGraph.SplitAt | tools/generate_bindings.zig:303-310 | a path splits at an intermediate class into two that avoid it |
| BindingGraph.ClosureIsPreorder | tools/generate_bindings.zig:302-310 | the closed matrix is reflexive and transitive |
| BindingGraph.Components | tools/generate_bindings.zig:312-330 | the component loop partitions the classes: two share a file iff each reaches the other |
| BindingGraph.Imports | tools/generate_bindings.zig:430-439 | the imports of a file are exactly the other files its members depend on, each once |
| BindingGraph.ImportsAcyclic | tools/generate_bindings.zig:430-439 | no walk along imports returns to its file |
| BindingGraph.ResolveTree | tools/generate_bindings.zig:281-345 | from class descriptions to files: split by mutual reachability, importing exactly what is needed, acyclically |
| Inheritance.OutcomesExclude | tools/extension_api.zig:100-113 | ending at a root, leaving the API and repeating a class exclude one another |
| Inheritance.InheritanceChain | tools/extension_api.zig:100-113 | gives the root-first chain, the missing class or the cycle exactly when the walk up does |
| TreeSync.Output.SyncTree | tools/generate_bindings.zig:83-141 | write and check mode are the specification; checking changes nothing |
| TreeSync.Output.ReconcileManagedFiles | tools/generate_bindings.zig:149-190 | the three walks remove exactly the stale managed files, or find whether there is one |
| TreeSync.WriteErrors | tools/generate_bindings.zig:89-123 | the exact error of writing, and what may be gone when it fails |
| TreeSync.WriteLeaves | tools/generate_bindings.zig:83-141 | the exact disk after writing: generated contents, and every other file that is neither stale nor listed, untouched |
| TreeSync.ManagedAreGenerated | tools/generate_bindings.zig:149-190 | after writing, a managed Zig file (without a backslash) exists iff it was generated |
| TreeSync.BackslashSurvivesIff | tools/generate_bindings.zig:176-185 | a managed file with a backslash in its name survives iff the name with slashes is generated |
| TreeSync.BackslashFileSurvives | tools/generate_bindings.zig:176-185 | a concrete stray file that survives writing and checking |
| TreeSync.CheckAfterWrite | tools/generate_bindings.zig:127-140 | checking after writing succeeds iff no path was generated with two contents |
| TreeSync.RenderManifest | tools/generate_bindings.zig:357-361 | the manifest lists the files below the generated directory but the stamp |
| TreeSync.ManifestReadBack | tools/generate_bindings.zig:112-116 | splitting a rendered manifest gives back its names and an empty last line |
| TreeSync.CheckMeansNothingToWrite | tools/generate_bindings.zig:332-368 | for a rendered tree checking succeeds iff writing would change nothing |
| TreeOutcome.ValidPathIff | tools/generate_bindings.zig:143-147 | a path is accepted iff it is proper names with slashes between them |
| TreeOutcome.ZigFilesAfterWrite | tools/generate_bindings.zig:149-190 | after writing, generated_classes/*.zig and everything ending in .zig below classes/ and cycles/ is there iff generated; every other file neither generated nor listed is as it was |
| TreeOutcome.CheckIff | tools/generate_bindings.zig:127-140 | on a disk without backslashes checking succeeds iff paths are valid, contents are there, and no such Zig file is there that was not generated |
| TreeOutcome.ForeignDirectoryIsLeft | tools/generate_bindings.zig:94-105 | a generated directory without the stamp is refused and left as it is |
| TreeOutcome.ObsoleteFilesAreGone | tools/generate_bindings.zig:107-122 | files an older manifest lists, with either kind of line end, are gone unless generated again; it is refused iff a listed name is no proper path |
| TreeOutcome.ManifestListsAll | tools/generate_bindings.zig:357-361 | the manifest names exactly the files below the generated directory but the stamp and itself |
| Migration.CheckLayout | src/gz_compiled_module.cpp:541-574 | accepts exactly the layouts that list every property once |
| Migration.Load | src/gz_compiled_module.cpp:541-601 | loads exactly the libraries with a complete layout and unique names (other checks apart), with an index from names to properties |
| Migration.CopiesEach | src/gz_script.cpp:101-117 | the copying loop gives every property with a match its value, whatever is copied after it |
| Migration.CopiesNothingElse | src/gz_script.cpp:101-117 | the copying loop leaves every other property as it was created |
| Migration.CarriesOver | src/gz_script.cpp:90-127 | a migrated instance has every property whose name and type match, and every other as created, but for objects that are not of the class the new module asks for |
| Migration.RetainsWhatIsHeld | src/gz_script.cpp:56-88 | after synchronising, an object property holds an object of its class and exactly that object is retained |
| Migration.BehindIsExact | src/gz_script.cpp:473-482 | the snapshot is exactly the live instances not on the new module |
| Migration.StepKeepsInv | src/gz_script.cpp:436-572 | publishing, callbacks, creation and freeing keep the invariant |
| Migration.EveryRun | src/gz_script.cpp:436-572 | after any run every instance not on the current module is still pending or was reported, a callback is on its way while any is pending, and Zig instances are exactly those of live instances |
| Migration.StepMovesOrLeaves | src/gz_script.cpp:524-561 | a step leaves an instance as it is, or moves it to the current module with exactly the migrated state; it is reported only when migration has no state for it |
| Migration.PassEnds | src/gz_script.cpp:508-572 | a pass over n instances ends within n / 8 callbacks, rounded up, if nothing newer is published |
| MigrationOutcome.MigratesIff | src/gz_script.cpp:90-115 | an instance can move iff the new module makes a state and every property both modules have, by name and type, can be read and written; properties of only one do not matter |
| MigrationOutcome.SyncSettles | src/gz_script.cpp:56-88 | a new state is kept but for live objects of a wrong class, which are taken away; exactly the live object each property holds is kept alive |
| MigrationOutcome.MigratedState | src/gz_script.cpp:90-127 | the whole state of a moved instance, value and retained object of every property, from its old values and the fresh state |
| MigrationOutcome.PublishStartsPass | src/gz_script.cpp:445-500 | publishing makes the module current at once, touches no instance, and lists exactly the instances on other modules |
| MigrationOutcome.CreateGives | src/gz_script.cpp:588-610 | a new instance is on the current module with the fresh state settled, or nothing happens |
| MigrationOutcome.FreeTakes | src/gz_script.cpp:359-371 | freeing takes away one instance and its Zig instance and nothing else |
| MigrationOutcome.PassMovesAll | src/gz_script.cpp:508-572 | when nothing fails, enough callbacks after a publication leave every instance alive on that module and none reported, whatever properties were dropped, renamed or retyped |
| MigrationOutcome.CallbackIsBounded | src/gz_script.cpp:519-561 | one callback moves or reports at most eight instances, or as many as fit into its time |
| Migration.Script.PublishModule | src/gz_script.cpp:445-500 | publication, in and outside the editor, is the specification and keeps the invariant |
| Migration.Script.MigrateEditorInstance | src/gz_script.cpp:90-127 | moves the instance, or leaves it and every Zig instance as they were |
| Migration.Script.ApplyPendingRefresh | src/gz_script.cpp:508-572 | one callback is the specification and keeps the invariant |
| Migration.Script.InstanceCreate | src/gz_script.cpp:588-610 | a new instance is on the current module with one new Zig instance; keeps the invariant |
| Migration.Script.InstanceFree | src/gz_script.cpp:359-371 | the instance and its Zig instance go together; keeps the invariant |
| LspFraming.ReadLength | src/gz_lsp_client.cpp:650-676 | a length is accepted iff it is all digits with a value of at most 8 MiB, and then no beginning of it exceeds the limit either |
| LspFraming.ReadHeader | src/gz_lsp_client.cpp:640-683 | the line loop finds the one length field or the error |
| LspFraming.NextMessage | src/gz_lsp_client.cpp:622-693 | one iteration: wait, fail, or take one message off the buffer |
| LspFraming.Reader.ParseMessages | src/gz_lsp_client.cpp:612-693 | the loop over messages is the specification, up to eight per call |
| LspFraming.PrintedIsWellFormed | src/gz_lsp_client.cpp:350-361 | what the client prints is a well-formed message with room in its header |
| LspFraming.FrameComplete | src/gz_lsp_client.cpp:622-687 | a well-formed message, whatever its header fields, is taken off the front exactly, whatever follows |
| LspFraming.FrameIncomplete | src/gz_lsp_client.cpp:622-687 | any proper prefix of a frame waits for more, unless it holds more than the limit without the end of the header |
| LspFraming.ParsedInStep | src/gz_lsp_client.cpp:612-693 | one call delivers exactly the complete messages up to its quota |
| LspFraming.DeliversExactly | src/gz_lsp_client.cpp:612-693 | however a stream of messages with room in their headers is cut and whenever the parser runs, exactly the bodies come out in order and the buffer is the unconsumed suffix |
| LspFraming.DeliversAll | src/gz_lsp_client.cpp:612-693 | enough calls deliver every body that has arrived |
| LspFraming.HeaderLimitAndChunks | src/gz_lsp_client.cpp:622-633 | a stream of well-formed messages is read under every chunking and every schedule of calls iff every header ends at least three bytes before the limit |
| LspFraming.SameMessageBothWays | src/gz_lsp_client.cpp:622-633 | one message with a header of exactly the limit is delivered whole and fails when its last byte comes later |
| LspFraming.Pump | src/gz_lsp_client.cpp:728-741 | the pump, reading at most 64 KiB, fails on such a stream iff more than the input limit stays undelivered |
| LspFraming.WellFormedStreamOverflows | src/gz_lsp_client.cpp:242-252 | a pipe full of empty messages reaches that limit at the 129th pump |
| LspHeader.DeclaredIff | src/gz_lsp_client.cpp:650-676 | a length field is accepted iff it is spaces and digits of a value within the limit |
| LspHeader.HeaderLengthIff | src/gz_lsp_client.cpp:634-683 | a header of any lines declares a length iff exactly one line begins with Content-Length: and the rest of it is such a field |
| LspHeader.LinesAreWellFormed | src/gz_lsp_client.cpp:622-683 | a message whose header is non-empty lines, one of which declares its length, is well formed whatever the others say |
| LspHeader.BadHeaderFails | src/gz_lsp_client.cpp:622-683 | a header behind the limit, or one of whose lines not exactly one declares a length, fails the stream at once |
| LspSession.SendSpeaks | src/gz_lsp_client.cpp:350-361 | a message that is allowed keeps every wire conforming and advances the server's documents by one message |
| LspSession.SynchronizeKeepsInv | src/gz_lsp_client.cpp:387-419 | opening or changing a document keeps server and client equal, and the server then holds the query's text |
| LspSession.SettleKeepsInv | src/gz_lsp_client.cpp:513-577 | handling an answer keeps the invariant, readiness and incompatible versions included |
| LspSession.ExpireAllKeepsInv | src/gz_lsp_client.cpp:761-781 | timing out requests in any order keeps the invariant |
| LspSession.StepKeepsInv | src/gz_lsp_client.cpp:695-785 | every call keeps the invariant |
| LspSession.VersionCountsEdits | src/gz_lsp_client.cpp:387-419 | the server's version of a document is the number of times it was sent |
| LspSession.QuestionsMeetTheirText | src/gz_lsp_client.cpp:421-441 | a question reaches an initialised server that has exactly its text, under an unused identifier |
| LspSession.EveryRun | src/gz_lsp_client.cpp:263-348 | after any run: every wire conforms, the documents are equal, in flight means exactly one completion outstanding, launches are at most 2 plus readies, cached results answer their own question |
| LspSession.DueCompletionIsAsked | src/gz_lsp_client.cpp:782-784 | a due completion is put to a ready server by the next pump, whatever that pump brings while the server runs, and then in flight |
| LspSession.CompletionRoundTrip | src/gz_lsp_client.cpp:695-785 | a new completion query, sent by one pump and answered anywhere in the next, is served from the cache with the very result of the server, whatever else the two bring |
| LspSession.WaitingDefinitionIsSent | src/gz_lsp_client.cpp:535-556 | a definition asked for before the server was ready is sent when a compatible server becomes ready |
| LspSession.DefinitionRoundTrip | src/gz_lsp_client.cpp:570-576 | a new definition query to a ready server is on the wire at once, and when the next pump brings its answer anywhere among its messages the query is served from then on with that very result, and asking again changes nothing |
| LspSession.WaitingDefinitionRoundTrip | src/gz_lsp_client.cpp:535-576 | a query that waited for the server is asked when it becomes ready and served when its answer comes, in the same pump or the next |
| LspOutcome.ReadyIffCompatible | src/gz_lsp_client.cpp:535-556 | a server becomes ready iff it answers its initialisation with no version or one of 0.16, and may be restarted again; any other fails it |
| LspOutcome.FailedQuestionIsGivenUp | src/gz_lsp_client.cpp:521-532 | a question that is answered with an error or times out is outstanding no more and may be asked again |
| LspOutcome.ExpiredAreGone | src/gz_lsp_client.cpp:761-781 | exactly the requests that timed out are given up, the initialisation apart |
| LspOutcome.FailureForgets | src/gz_lsp_client.cpp:736-758 | broken framing, a dead process or a late initialisation fails the client: nothing is outstanding, open or waited for, and older answers are still served |
| LspOutcome.ShutdownSaysExit | src/gz_lsp_client.cpp:126-179 | shutting down tells a running server to exit and forgets everything |
| LspOutcome.ShutIsFinal | src/gz_lsp_client.cpp:126-179 | after that nothing is launched or written, whatever is asked |
| LspOutcome.QuestionStartsServer | src/gz_lsp_client.cpp:263-319 | a new question to a client without a server starts one, after a failure too when the backoff is over, asks for its initialisation and waits; the answer to that makes it ready |
| LspOutcome.ServedWasAsked | src/gz_lsp_client.cpp:513-577 | over every run what is served for a query is the result of a question about the very same text, document and place |
| LspSession.CompleteLaunchesIff | src/gz_lsp_client.cpp:695-710 | asking for a completion launches iff starting would, the query names a file, has no cached answer and is not waiting |
| LspSession.LookupLaunchesIff | src/gz_lsp_client.cpp:712-726 | asking for a definition launches iff starting would, the query names a file, has no cached answer and is not waiting |
| LspSession.FailedClientWaitsIff | src/gz_lsp_client.cpp:263-280 | over every run a failed client has a completion waiting iff one was refused and nothing was launched since |
| LspSession.RefusedQueryStaysPending | src/gz_lsp_client.cpp:695-710 | a query refused during the backoff starts nothing however often it is repeated |
| LspSession.RefusedLookupStaysPending | src/gz_lsp_client.cpp:712-726 | the same of a definition |
| LspSession.RefusedQueryRun | src/gz_lsp_client.cpp:263-280 | a run in which a repeated query does not launch after the backoff, although starting or any other query would |
| LspSession.LspClient.PumpServer | src/gz_lsp_client.cpp:513-785 | messages, failures, timeouts and the debounced completion in their order are the specification and keep the invariant |
| LspSession.LspClient.CompleteCode | src/gz_lsp_client.cpp:695-710 | gives options iff they are cached for this query, starts the server as specified, and keeps the invariant |
| LspSession.LspClient.LookupCode | src/gz_lsp_client.cpp:712-726 | gives a definition iff it is cached for this query, asks as specified, and keeps the invariant |
| LspSession.LspClient.ShutdownServer | src/gz_lsp_client.cpp:126-179 | stops for good, telling a running server to exit; keeps the invariant |
| Diagnostics.TiesDifferOnlyInEnd | src/diagnostics/gz_diagnostic.cpp:89-111 | neither is less iff they are equal apart from the range end |
| Diagnostics.StrictWeakOrder | src/diagnostics/gz_diagnostic.cpp:89-111 | the comparison is a strict weak order |
| Diagnostics.LessIff | src/diagnostics/gz_diagnostic.cpp:89-111 | the order is by line, column, severity (errors first), source, message, code, producer and document, texts by their first difference |
| Diagnostics.CleanedEntry | src/diagnostics/gz_diagnostic_store.cpp:77-86 | cleaning sets the key and a producer, turns a backward range into its start, and leaves the rest |
| Diagnostics.BackwardsAreTurned | src/diagnostics/gz_diagnostic_store.cpp:79-85 | the count of ranges put right is the number of entries that run backwards |
| Diagnostics.SortIsStable | src/diagnostics/gz_diagnostic_store.cpp:206-211 | sorting keeps every entry and the order of tied ones |
| Diagnostics.NormalizeBatch | src/diagnostics/gz_diagnostic_store.cpp:77-91 | clean, sort, drop equal neighbours; counts the ranges put right |
| Diagnostics.NormalBatch | src/diagnostics/gz_diagnostic_store.cpp:77-91 | a normal batch is sorted, has the same entries and no backward range |
| Diagnostics.MixedTiesKeepRepeats | src/diagnostics/gz_diagnostic_store.cpp:87-90 | a repeated entry that ties with another has a sorting that keeps the repeat |
| Diagnostics.RepeatsRemovedIff | src/diagnostics/gz_diagnostic_store.cpp:87-90 | every normal form is free of repeats iff no repeated entry ties with another |
| Diagnostics.RepeatStays | src/diagnostics/gz_diagnostic_store.cpp:87-90 | a diagnostic before and after one that differs only in its end is a batch whose repeat stays |
| Diagnostics.NormalDependsOnSet | src/diagnostics/gz_diagnostic_store.cpp:77-91 | when no two entries differ only in their end the normal form depends only on the set of entries |
| DiagnosticStore.DoKeepsValid | src/diagnostics/gz_diagnostic_store.cpp:93-189 | the change queue has no repeats, equals its set and names only tracked documents |
| DiagnosticStore.ObserveKeepsUpToDate | src/diagnostics/gz_diagnostic_store.cpp:93-97 | one call, or one read of a document by the consumer, keeps a consumer that re-reads only what it drains right |
| DiagnosticStore.ConsumerStaysRight | src/diagnostics/gz_diagnostic_store.cpp:233-239 | over any run of calls and single reads, a document that is not queued, not drained and unread, nor removed since it was read, shows what the consumer last read |
| DiagnosticStore.DrainedKeyIsReadIff | src/diagnostics/gz_diagnostic_store.cpp:191-198 | a document that is opened, given diagnostics, drained and read by its drained key shows them iff its path has no non-file scheme followed by two slashes |
| DiagnosticStore.SnapshotMerges | src/diagnostics/gz_diagnostic_store.cpp:191-212 | a snapshot is sorted, has every entry of every source, ties in source order |
| DiagnosticStore.ResubmissionIsNoOp | src/diagnostics/gz_diagnostic_store.cpp:124-128 | submitting the same entries in any order and number changes nothing |
| DiagnosticStore.GenerationContract | src/diagnostics/gz_diagnostic_store.hpp:13-20 | opening starts a generation at 1, only advancing raises it, removing forgets it; an update is applied exactly for the current generation of a tracked document and otherwise changes nothing |
| DiagnosticStore.GenerationsCountAdvances | src/diagnostics/gz_diagnostic_store.cpp:35-56 | after any run a generation is one more than the advances since the opening of the current lifetime |
| DiagnosticStore.LateUpdate | src/diagnostics/gz_diagnostic_store.cpp:109-122 | the verdict on an update for a generation of any earlier point of a run, from what happened since |
| DiagnosticStore.LateUpdateOverwritesIff | src/diagnostics/gz_diagnostic_store.hpp:17-20 | an update for an earlier generation changes newer diagnostics iff the document was removed and has reached that generation again |
| DiagnosticStore.UpdateOfRemovedDocumentIsShown | src/diagnostics/gz_diagnostic_store.cpp:181-189 | the update of a removed document is applied and shown once the document is opened again |
| DiagnosticStore.DoShows | src/diagnostics/gz_diagnostic_store.cpp:99-189 | what every document shows from every source after each operation, and which documents are tracked and closed |
| DiagnosticStore.DoQueues | src/diagnostics/gz_diagnostic_store.cpp:93-179 | exactly the documents of which a source now shows something else are queued, behind those waiting |
| DiagnosticStore.DrainAndRemove | src/diagnostics/gz_diagnostic_store.cpp:181-239 | draining hands over the whole queue; removing a document leaves the others in their order |
| DiagnosticStore.Store.OpenDocument | src/diagnostics/gz_diagnostic_store.cpp:35-44 | tracks the document and gives its generation; keeps the queue well formed |
| DiagnosticStore.Store.AdvanceGeneration | src/diagnostics/gz_diagnostic_store.cpp:46-56 | the next generation, or 0 when not tracked; keeps the queue well formed |
| DiagnosticStore.Store.Replace | src/diagnostics/gz_diagnostic_store.cpp:99-133 | the verdict, the new batch and the queue; keeps the queue well formed |
| DiagnosticStore.Store.ClearSource | src/diagnostics/gz_diagnostic_store.cpp:135-149 | empties one source and queues the document if it showed anything; keeps the queue well formed |
| DiagnosticStore.Store.ClearDocument | src/diagnostics/gz_diagnostic_store.cpp:151-168 | empties every source and queues once; keeps the queue well formed |
| DiagnosticStore.Store.ClearAllFromSource | src/diagnostics/gz_diagnostic_store.cpp:170-179 | empties one source everywhere; keeps the queue well formed |
| DiagnosticStore.Store.RemoveDocument | src/diagnostics/gz_diagnostic_store.cpp:181-189 | forgets the document and its place in the queue; keeps the queue well formed |
| DiagnosticStore.Store.Snapshot | src/diagnostics/gz_diagnostic_store.cpp:191-212 | the merged diagnostics of all sources |
| DiagnosticStore.Store.TakeChangedDocuments | src/diagnostics/gz_diagnostic_store.cpp:233-239 | hands over the queue in order and empties it; keeps the queue well formed |
| DocumentPath.UriDecode | src/diagnostics/gz_diagnostic_path.cpp:8-36 | the decoding loop decodes exactly the well-formed escapes |
| DocumentPath.DecodeUndoesEncode | src/diagnostics/gz_diagnostic_path.cpp:8-36 | decoding undoes every encoding that escapes the percent sign |
| DocumentPath.ReadFolds | src/diagnostics/gz_diagnostic_path.cpp:117-140 | the loop with its current segment is the fold over the segments |
| DocumentPath.CollapsingChangesNothing | src/diagnostics/gz_diagnostic_path.cpp:88-108 | collapsing separators first does not change the result |
| DocumentPath.NormalizeDocumentPath | src/diagnostics/gz_diagnostic_path.cpp:40-154 | the normaliser computes scheme plus folded segments |
| DocumentPath.BodyIsClean | src/diagnostics/gz_diagnostic_path.cpp:110-153 | the result is "." or "/" or has only names as segments: none empty or ".", ".." only as a leading run of an unrooted, driveless path |
| DocumentPath.BodyIsStable | src/diagnostics/gz_diagnostic_path.cpp:110-153 | a normal body is a fixed point |
| DocumentPath.IdempotentExceptAfterScheme | src/diagnostics/gz_diagnostic_path.cpp:40-154 | normalising twice equals normalising once iff no non-file scheme is followed by two slashes |
| PathOutcome.SegmentsBetweenSlashes | src/diagnostics/gz_diagnostic_path.cpp:117-140 | the segments are what is between the slashes |
| PathOutcome.BodyIsPlace | src/diagnostics/gz_diagnostic_path.cpp:110-153 | the body of a path is the text of the place its segments lead to, one after the other: from the root, or from where one is, which may be left upwards |
| PathOutcome.DriveIsPlace | src/diagnostics/gz_diagnostic_path.cpp:113-139 | with a drive in front it is the drive and the place below it that the other segments lead to |
| PathOutcome.FileUriNamesPath | src/diagnostics/gz_diagnostic_path.cpp:44-51 | a file URI names the document of the path it encodes, in upper or lower case digits |
| PathOutcome.FileUriWithoutSlash | src/diagnostics/gz_diagnostic_path.cpp:47-50 | a file URI without a slash in front is rooted unless it has a colon |
| PathOutcome.MalformedEscapeStays | src/diagnostics/gz_diagnostic_path.cpp:13-34 | a percent sign not followed by two hexadecimal digits stays |
| PathOutcome.SchemeIsKept | src/diagnostics/gz_diagnostic_path.cpp:54-76 | a scheme other than file stays in front, and one slash behind it is dropped |
| PathOutcome.NoSchemeIsPath | src/diagnostics/gz_diagnostic_path.cpp:54-76 | a text without a scheme name before :// is all path |
| MethodCache.StepKeepsInv | addons/gzscript/zig/class_support.zig:60-70 | every atomic step of every thread keeps: one busy thread exactly in state 1, results only in state 2 |
| MethodCache.StepsAreOrderly | addons/gzscript/zig/class_support.zig:60-70 | the state goes 0, 1, 2; the value is written only by the winner in state 1 and read only in state 2 |
| MethodCache.SpinnersWaitForTheWinner | addons/gzscript/zig/class_support.zig:65-66 | a thread that spins waits for a busy one, and lets go after at most two moves of that one |
| MethodCache.ResolvedOnce | addons/gzscript/zig/class_support.zig:52-71 | in any interleaving of any number of threads the method is resolved at most once and all calls return that result |
| MethodCache.CallAlone | addons/gzscript/zig/class_support.zig:52-71 | a call that meets nobody resolves, stores and returns, or only looks at the state and returns what is stored |
| MethodCache.LatecomerSpins | addons/gzscript/zig/class_support.zig:60-66 | whoever comes while another resolves loses the exchange and spins |
| MethodCache.SpinnerReturns | addons/gzscript/zig/class_support.zig:62-70 | a spinner spins on while another resolves and returns what that one stored once it is published; whoever has returned may call again |

## Left out

- The engine: property, method and signal lists, resource formats, signals sent to Godot; callbacks from the engine are taken as not re-entrant.
- Processes, pipes, clocks, dynamic loading and file flushing: they are the nondeterministic answers `World`, `Answers`, `Launch` and `Turn`, or steps of `CacheProtocol`.
- SHA-256 is an injective function, and preparing a key reads its inputs in one step; JSON bodies are opaque strings, and bytes are characters.
- The fallback of preparing that hashes a whole source tree (`append_source_tree`), and the settings and tool versions that go into the identity, which are plain fields.
- The Windows branch of the path normaliser, which calls `is_drive_prefix`; that function is not part of this model, nor is it defined in the repository.
- The text of generated bindings, the order of members within one file, which methods get bindings (`automaticMethods`), and the sorting of the generated files.
- Compile-time reflection in `codec.zig`, `property.zig` and `adapter.zig`; a Zig property is stored and read back as it was written.
- Columns in UTF-16 units, URI conversion and the JSON shape of completion items in the language client; a query carries its position and a result is a string.
- The order of atomics is sequential in `MethodCache`, each access one step; the memory orders of the source are not modelled.
- Statistics counters, debug dumps, and the single-source snapshot of the diagnostics store; its mutex makes each call one step.
- Directories in `TreeSync`: a disk is a map from paths to contents, so a path that is both a file and a directory, and errors other than a missing file, do not occur.
- Notifications of changed property lists during migration, and memory: instances are entries of a map by address, and an address may be reused after a free.
- BuildManager.Compile: a synchronous compile publishes whatever the queue is doing, as in the source; the generation rules are those of queued builds only.
- BuildQueue.RetryNeedsFreshPlan: moving a plan out of a request is taken to leave empty strings in it, as swapping with an empty string does; godot-cpp is not part of this repository.
- Migration.Load: the symbol lookup, ABI version and descriptor validation that come before the layout check are not modelled; a library that fails them is one that is not loaded.
- Dependencies.EqualKeysMeanEqualInputs: excludes roots with a carriage return and line feed inside an imported path, since the key holds the root with such line ends replaced while the walk follows the path as written.
- BuildQueue.OnlyTheLatestIsPublished: that the compiler read only the inputs of the key is not part of one process's queue; CacheProtocol.PublishedFromItsInputs has it, under the assumption that no input returns during a build.
- LspSession.EveryRun: a version is an unbounded number; the source counts in 32 bits.
