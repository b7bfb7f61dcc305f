# Kogito test-scenario engine, modelled in Dafny

A model of the JUnit Platform test engine that runs Kogito scenario-simulation
(`.scesim`) files (`KogitoTestScenarioEngine`), and of its two test
descriptors (`KogitoTestScenarioDescriptor` for one scenario,
`KogitoTestScenarioSuiteTestDescriptor` for one file).

- **Naming** (`naming.dfy`): `getScesimFileName` strips everything up to the
  last `/` or `\` and one trailing scenario suffix. The JUnit 4 descriptions
  of a simulation and of a scenario are reduced to their names and their
  `#<index>: <description>` labels.
- **Locating files** (`resources.dfy`): the class path is split as
  `String.split` does. A lone `-dev.jar` entry is replaced by the
  `test-classes` directory beside it. Each search root is walked depth-first
  over a file-system value. Java streams are lazy, so a walk is a `PathStream`:
  the paths produced before the first exception, then that exception, if any.
  The walk is proved equal to a flat specification: the matching canonical
  paths up to the first file whose canonical path fails, which aborts the walk.
- **Descriptors** (`unique_ids.dfy`, `scenario_descriptors.dfy`,
  `suite_descriptors.dfy`): immutable values with a unique id (a sequence of
  type/value segments), a display name and a type.
- **Discovery** (`discovery.dfy`): the root `EngineDescriptor` is a class
  whose children list `AddChild` extends. `Discover` parses each located
  file in stream order and adds one suite per file. Each suite holds one leaf
  per scenario. The first exception, from the walk, from a parse or from a
  suite descriptor's constructor, is the result. `Discover` is proved against
  the function `Discovered`, and the lemmas state what `Discovered` produces.
- **Execution** (`execution.dfy`): the listener is a class holding the log of
  notifications it received. `Execute` is proved to append exactly
  `ExecutionEvents` of the root's suites. The lemmas state the order,
  bracketing and isolation of events and the outcome of each scenario.
- `strings.dfy` and `blocks.dfy` hold the Java string operations the engine
  relies on (`lastIndexOf`, `replace`, `String.valueOf(int)`) and facts
  about concatenated blocks.

Where the expected behaviour and the code differ, the model follows
the code:
- A scenario whose helper throws is reported finished twice: failed, then
  successful. The catch blocks fall through to the unconditional
  `finished(successful)`.
- A suite is always reported successful, because `state` is never
  reassigned.
- An I/O error on one file aborts the walk instead of skipping the file.
- An unparsable file aborts the whole discovery.
- Same-named files in two roots give suites with equal ids. No error is
  raised.
- A file named only `.scesim` has an empty short name. The suite descriptor
  builds its id first, and `UniqueId.append` refuses a blank segment value, so
  that file aborts discovery with that refusal. For the same file,
  `getDescriptionForSimulation` throws, because a JUnit 4 suite description may
  not have an empty name.

## Model

| member | source | states |
|---|---|---|
| Strings.LastIndexOf | drools/kogito-scenario-simulation/src/main/java/org/kogito/scenariosimulation/runner/KogitoTestScenarioEngine.java:149 | `lastIndexOf(char)`: the result is -1 or a position holding the character, and no later position holds it |
| Strings.LastIndexOfString | drools/kogito-scenario-simulation/src/main/java/org/kogito/scenariosimulation/runner/KogitoTestScenarioEngine.java:151 | `lastIndexOf(String)`: the result is -1 or an occurrence, and no later occurrence exists |
| Strings.LastIndexOfTrailing | drools/kogito-scenario-simulation/src/main/java/org/kogito/scenariosimulation/runner/KogitoTestScenarioEngine.java:151 | when the text ends with the suffix, its last occurrence is that trailing one |
| Strings.ReplaceChar | drools/kogito-scenario-simulation/src/main/java/org/kogito/scenariosimulation/runner/KogitoTestScenarioEngine.java:149 | `replace` of one character keeps the length |
| Strings.ReplaceCharReplaces | drools/kogito-scenario-simulation/src/main/java/org/kogito/scenariosimulation/runner/KogitoTestScenarioEngine.java:149 | every occurrence of the target becomes the replacement and every other character is kept, so no target remains when the two differ |
| Strings.DecimalString | drools/kogito-scenario-simulation/src/main/java/org/kogito/scenariosimulation/runner/KogitoTestScenarioDescriptor.java:32-33 | `String.valueOf(int)`: non-empty, starts with `-` exactly for negatives, otherwise digits; `0` is `"0"` and no other rendering has a leading zero |
| Strings.DecimalRoundTrip | drools/kogito-scenario-simulation/src/main/java/org/kogito/scenariosimulation/runner/KogitoTestScenarioDescriptor.java:32 | reading the decimal rendering back gives the number |
| Strings.DecimalStringInjective | drools/kogito-scenario-simulation/src/main/java/org/kogito/scenariosimulation/runner/KogitoTestScenarioDescriptor.java:32 | distinct numbers render differently |
| Naming.LastSeparatorIndex | drools/kogito-scenario-simulation/src/main/java/org/kogito/scenariosimulation/runner/KogitoTestScenarioEngine.java:149 | replacing `\` by `/` and taking the last `/` finds the last separator of either kind, or -1 |
| Naming.ShortName | drools/kogito-scenario-simulation/src/main/java/org/kogito/scenariosimulation/runner/KogitoTestScenarioEngine.java:149-151 | the short name of a path contains no separator and is no longer than the path |
| Naming.ScesimFileName | drools/kogito-scenario-simulation/src/main/java/org/kogito/scenariosimulation/runner/KogitoTestScenarioEngine.java:145-152 | null in, null out; otherwise the short name |
| Naming.ShortNameOfPath | drools/kogito-scenario-simulation/src/main/java/org/kogito/scenariosimulation/runner/KogitoTestScenarioEngine.java:149-151 | for a directory part followed by a separator-free base name, the result is the base name minus one trailing suffix when it has one, and the base name otherwise |
| Naming.ShortNameUnchanged | drools/kogito-scenario-simulation/src/main/java/org/kogito/scenariosimulation/runner/KogitoTestScenarioEngine.java:149-151 | a separator-free name without the suffix is returned unchanged |
| Naming.ShortNameUnixExample | drools/kogito-scenario-simulation/src/main/java/org/kogito/scenariosimulation/runner/KogitoTestScenarioEngine.java:149-151 | `/a/b/Loan.scesim` gives `Loan` |
| Naming.ShortNameWindowsExample | drools/kogito-scenario-simulation/src/main/java/org/kogito/scenariosimulation/runner/KogitoTestScenarioEngine.java:149-151 | `C:\a\b\Loan.scesim` gives `Loan` too |
| Naming.ScenarioLabelInjective | drools/kogito-scenario-simulation/src/main/java/org/kogito/scenariosimulation/runner/KogitoTestScenarioEngine.java:142 | the `#%d: %s` label determines both the index and the description |
| Naming.TestName | drools/kogito-scenario-simulation/src/main/java/org/kogito/scenariosimulation/runner/KogitoTestScenarioEngine.java:130 | the short name given by `getScesimFileName` (separator-free) when a path is present, else `AbstractScenarioRunner` |
| Naming.ScenarioLabel | drools/kogito-scenario-simulation/src/main/java/org/kogito/scenariosimulation/runner/KogitoTestScenarioEngine.java:142 | `#%d: %s`: `#`, the decimal index, `: `, then the description verbatim |
| Naming.DescriptionForScenario | drools/kogito-scenario-simulation/src/main/java/org/kogito/scenariosimulation/runner/KogitoTestScenarioEngine.java:139-143 | class name is the short name when a path is present, else `AbstractScenarioRunner`; method name is the label |
| Naming.ScenarioDescriptions | drools/kogito-scenario-simulation/src/main/java/org/kogito/scenariosimulation/runner/KogitoTestScenarioEngine.java:132-135 | one description per scenario, in list order, each built from that scenario's index and description |
| Naming.DescriptionForSimulation | drools/kogito-scenario-simulation/src/main/java/org/kogito/scenariosimulation/runner/KogitoTestScenarioEngine.java:129-137 | throws exactly when the suite name is empty; otherwise the suite is named like its children's class, with one child per scenario, in order, each labelled with its scenario |
| Naming.SuffixOnlyFileHasEmptyName | drools/kogito-scenario-simulation/src/main/java/org/kogito/scenariosimulation/runner/KogitoTestScenarioEngine.java:145-152 | a path whose base name is just the suffix has an empty, hence blank, short name |
| Naming.SuffixOnlyFileHasNoDescription | drools/kogito-scenario-simulation/src/main/java/org/kogito/scenariosimulation/runner/KogitoTestScenarioEngine.java:129-131 | for such a path, building the simulation description throws |
| UniqueIds.Append | drools/kogito-scenario-simulation/src/main/java/org/kogito/scenariosimulation/runner/KogitoTestScenarioSuiteTestDescriptor.java:26 | the parent's segments followed by exactly one new segment |
| UniqueIds.AppendChecked | drools/kogito-scenario-simulation/src/main/java/org/kogito/scenariosimulation/runner/KogitoTestScenarioSuiteTestDescriptor.java:26 | `UniqueId.append` fails exactly when the segment type or value is blank, with the type refusal first and then the value refusal, and otherwise gives `Append`'s id |
| UniqueIds.SegmentTypeNotBlank | drools/kogito-scenario-simulation/src/main/java/org/kogito/scenariosimulation/runner/KogitoTestScenarioSuiteTestDescriptor.java:26 | the segment type `testscenario` is never refused |
| ScenarioDescriptors.ScenarioDescriptor.Type | drools/kogito-scenario-simulation/src/main/java/org/kogito/scenariosimulation/runner/KogitoTestScenarioDescriptor.java:41-44 | a leaf is always a test |
| ScenarioDescriptors.NewScenarioDescriptor | drools/kogito-scenario-simulation/src/main/java/org/kogito/scenariosimulation/runner/KogitoTestScenarioDescriptor.java:31-39 | The leaf's id is the parent id extended, by an append that never fails, with the segment `("testscenario", fileName + index)`, its display name is `index + fileName` and never blank, and its getters return the constructor arguments. |
| ScenarioDescriptors.UniqueIdsDistinctByIndex | drools/kogito-scenario-simulation/src/main/java/org/kogito/scenariosimulation/runner/KogitoTestScenarioDescriptor.java:32 | same parent and file name, distinct indices: distinct ids |
| ScenarioDescriptors.UniqueIdCollisionAcrossFileNames | drools/kogito-scenario-simulation/src/main/java/org/kogito/scenariosimulation/runner/KogitoTestScenarioDescriptor.java:32 | `("A1", 1)` and `("A", 11)` get the same id |
| SuiteDescriptors.SuiteDescriptor.Type | drools/kogito-scenario-simulation/src/main/java/org/kogito/scenariosimulation/runner/KogitoTestScenarioSuiteTestDescriptor.java:31-34 | a suite is always a container |
| SuiteDescriptors.NewSuiteDescriptor | drools/kogito-scenario-simulation/src/main/java/org/kogito/scenariosimulation/runner/KogitoTestScenarioSuiteTestDescriptor.java:25-29 | The constructor throws the id append's blank-value refusal exactly when the file name is blank, and otherwise gives the parent id extended with `("testscenario", fileName)`, the file name as display name and no children. |
| SuiteDescriptors.SuiteIdsEqualIffSameName | drools/kogito-scenario-simulation/src/main/java/org/kogito/scenariosimulation/runner/KogitoTestScenarioSuiteTestDescriptor.java:25-29 | under one parent, two suites that are built have equal ids exactly when their file names are equal |
| SuiteDescriptors.SuiteIdNeverLeafId | drools/kogito-scenario-simulation/src/main/java/org/kogito/scenariosimulation/runner/KogitoTestScenarioSuiteTestDescriptor.java:26 | a suite that is built and a leaf from the same parent and file name have ids of equal depth that are never equal |
| Resources.RawSplit | drools/kogito-scenario-simulation/src/main/java/org/kogito/scenariosimulation/runner/KogitoTestScenarioEngine.java:62 | at least one piece, none holding the separator |
| Resources.RawSplitCount | drools/kogito-scenario-simulation/src/main/java/org/kogito/scenariosimulation/runner/KogitoTestScenarioEngine.java:62 | exactly one piece more than the separators in the text |
| Resources.JoinRawSplit | drools/kogito-scenario-simulation/src/main/java/org/kogito/scenariosimulation/runner/KogitoTestScenarioEngine.java:62 | joining the pieces with the separator gives the text back |
| Resources.RawSplitJoin | drools/kogito-scenario-simulation/src/main/java/org/kogito/scenariosimulation/runner/KogitoTestScenarioEngine.java:62 | splitting a join of separator-free pieces gives the pieces back |
| Resources.DropTrailingEmpty | drools/kogito-scenario-simulation/src/main/java/org/kogito/scenariosimulation/runner/KogitoTestScenarioEngine.java:62 | a prefix of the pieces that drops only empty ones and does not end with an empty one |
| Resources.Split | drools/kogito-scenario-simulation/src/main/java/org/kogito/scenariosimulation/runner/KogitoTestScenarioEngine.java:62 | `String.split`: the text itself when it has no separator; otherwise the raw pieces minus the trailing empty ones |
| Resources.SearchRoots | drools/kogito-scenario-simulation/src/main/java/org/kogito/scenariosimulation/runner/KogitoTestScenarioEngine.java:62-76 | a lone `-dev.jar` entry with a `/` becomes the single root `<dir>/test-classes`, where `<dir>` is the entry up to its last `/`; without a `/` it throws with index -1; any other entry list is searched as given |
| Resources.DevJarSearchesTestClasses | drools/kogito-scenario-simulation/src/main/java/org/kogito/scenariosimulation/runner/KogitoTestScenarioEngine.java:65-76 | a lone `<dir>/<name>-dev.jar` entry is searched as `<dir>/test-classes` only |
| Resources.DevJarWithoutSlashThrows | drools/kogito-scenario-simulation/src/main/java/org/kogito/scenariosimulation/runner/KogitoTestScenarioEngine.java:68 | a lone `-dev.jar` entry without `/` makes `substring` throw with index -1 |
| Resources.OtherClassPathsSearchedAsGiven | drools/kogito-scenario-simulation/src/main/java/org/kogito/scenariosimulation/runner/KogitoTestScenarioEngine.java:62-81 | any other class path is searched entry by entry, in order |
| Resources.FirstFailure | drools/kogito-scenario-simulation/src/main/java/org/kogito/scenariosimulation/runner/KogitoTestScenarioEngine.java:94-100 | the first file whose canonical path fails; every file before it resolves |
| Resources.MatchingPaths | drools/kogito-scenario-simulation/src/main/java/org/kogito/scenariosimulation/runner/KogitoTestScenarioEngine.java:95-98 | every path yielded matches the extension and is the canonical path of a visited file |
| Resources.MatchingPathsComplete | drools/kogito-scenario-simulation/src/main/java/org/kogito/scenariosimulation/runner/KogitoTestScenarioEngine.java:95-98 | every visited file whose canonical path matches is yielded |
| Resources.MatchingPathsConcat | drools/kogito-scenario-simulation/src/main/java/org/kogito/scenariosimulation/runner/KogitoTestScenarioEngine.java:90 | matching paths of concatenated file lists concatenate |
| Resources.FirstFailureConcat | drools/kogito-scenario-simulation/src/main/java/org/kogito/scenariosimulation/runner/KogitoTestScenarioEngine.java:90 | the first failure of a concatenation is in the first part if it has one |
| Resources.ExpectedConcat | drools/kogito-scenario-simulation/src/main/java/org/kogito/scenariosimulation/runner/KogitoTestScenarioEngine.java:90 | the specification composes like `flatMap`: the second part is reached only if the first ends normally |
| Resources.FromNodeMeetsSpec | drools/kogito-scenario-simulation/src/main/java/org/kogito/scenariosimulation/runner/KogitoTestScenarioEngine.java:89-106 | walking a node yields exactly the specification of the files under it |
| Resources.FromListingMeetsSpec | drools/kogito-scenario-simulation/src/main/java/org/kogito/scenariosimulation/runner/KogitoTestScenarioEngine.java:90-105 | walking a listing from a position yields the specification of the files of the remaining entries |
| Resources.FromRootsMeetsSpec | drools/kogito-scenario-simulation/src/main/java/org/kogito/scenariosimulation/runner/KogitoTestScenarioEngine.java:81-87 | walking all roots yields the specification of all their files; non-directory roots contribute nothing |
| Resources.WalkOutcome | drools/kogito-scenario-simulation/src/main/java/org/kogito/scenariosimulation/runner/KogitoTestScenarioEngine.java:81-106 | no non-matching path is yielded; the walk stops exactly when some file fails, and then with the access error; with no failure it yields all matching paths |
| Resources.FromNode | drools/kogito-scenario-simulation/src/main/java/org/kogito/scenariosimulation/runner/KogitoTestScenarioEngine.java:89-106 | one entry of a listing: every path yielded matches the extension, and the walk only ever stops with the access error |
| Resources.FromListing | drools/kogito-scenario-simulation/src/main/java/org/kogito/scenariosimulation/runner/KogitoTestScenarioEngine.java:90-105 | a listing from a position: every path yielded matches, and it stops only with the access error |
| Resources.FromRoot | drools/kogito-scenario-simulation/src/main/java/org/kogito/scenariosimulation/runner/KogitoTestScenarioEngine.java:84-87 | a root that is not a directory yields nothing; otherwise every path yielded matches, and it stops only with the access error |
| Resources.FromRoots | drools/kogito-scenario-simulation/src/main/java/org/kogito/scenariosimulation/runner/KogitoTestScenarioEngine.java:81 | the `flatMap` over the roots: every path yielded matches, it stops only with the access error, and it ends normally exactly when every root's walk does |
| Resources.ResourcesByExtension | drools/kogito-scenario-simulation/src/main/java/org/kogito/scenariosimulation/runner/KogitoTestScenarioEngine.java:61-82 | fails exactly when root selection throws, and then with index -1; otherwise a stream of matching paths that stops only with the access error |
| Resources.ResourcesByExtensionMeetsSpec | drools/kogito-scenario-simulation/src/main/java/org/kogito/scenariosimulation/runner/KogitoTestScenarioEngine.java:61-106 | once root selection succeeds, the stream is exactly the specification over the selected roots' files: the matching paths before the first file whose canonical path fails, then the access error |
| Discovery.EngineDescriptor.constructor | drools/kogito-scenario-simulation/src/main/java/org/kogito/scenariosimulation/runner/KogitoTestScenarioEngine.java:110 | a root with the given id and name and no children |
| Discovery.EngineDescriptor.AddChild | drools/kogito-scenario-simulation/src/main/java/org/kogito/scenariosimulation/runner/KogitoTestScenarioEngine.java:118 | appends the suite to the root's children |
| Discovery.ParseFile | drools/kogito-scenario-simulation/src/main/java/org/kogito/scenariosimulation/runner/KogitoTestScenarioEngine.java:219-229 | succeeds exactly when the file exists, is non-empty and unmarshals; the DTO then holds the unmarshalled model and the given path; otherwise a ScenarioException whose message ends with the path |
| Discovery.SuiteOfOutcome | drools/kogito-scenario-simulation/src/main/java/org/kogito/scenariosimulation/runner/KogitoTestScenarioEngine.java:114-118 | one file's outcome: the parse exception, else the suite constructor's exception for a blank short name, else the suite built from the parsed file |
| Discovery.BuildSuitesStep | drools/kogito-scenario-simulation/src/main/java/org/kogito/scenariosimulation/runner/KogitoTestScenarioEngine.java:114-124 | handling one more file either fails with that file's exception or appends that file's suite |
| Discovery.BuildSuitesPrefixFailure | drools/kogito-scenario-simulation/src/main/java/org/kogito/scenariosimulation/runner/KogitoTestScenarioEngine.java:114-124 | the first failing file aborts the whole sequence |
| Discovery.BuildSuitesFirstFailure | drools/kogito-scenario-simulation/src/main/java/org/kogito/scenariosimulation/runner/KogitoTestScenarioEngine.java:114-124 | when every earlier file succeeds, the first failing file's exception is the outcome |
| Discovery.PrefixBuilds | drools/kogito-scenario-simulation/src/main/java/org/kogito/scenariosimulation/runner/KogitoTestScenarioEngine.java:114-124 | when every file of a prefix succeeds, so does the prefix |
| Discovery.BuildSuitesSuccess | drools/kogito-scenario-simulation/src/main/java/org/kogito/scenariosimulation/runner/KogitoTestScenarioEngine.java:114-124 | when every file succeeds, there is one suite per path, in order, built from that file |
| Discovery.DiscoveredSuites | drools/kogito-scenario-simulation/src/main/java/org/kogito/scenariosimulation/runner/KogitoTestScenarioEngine.java:108-127 | successful discovery means the walk ended normally, with one suite per located file, in stream order, each file parsed and its suite built |
| Discovery.DiscoverySucceedsWhenNothingFails | drools/kogito-scenario-simulation/src/main/java/org/kogito/scenariosimulation/runner/KogitoTestScenarioEngine.java:108-127 | the converse: when root selection succeeds, the walk ends normally and every located file gets its suite, discovery succeeds with one suite per file |
| Discovery.SuiteForShape | drools/kogito-scenario-simulation/src/main/java/org/kogito/scenariosimulation/runner/KogitoTestScenarioEngine.java:115-123 | the suite constructor throws exactly when the short name is blank; otherwise the suite's id and name come from the short name, with one leaf per scenario, in order, with index, scenario and DTO verbatim; leaf ids extend the engine id, never equal to the suite's |
| Discovery.FirstFailingFileAbortsDiscovery | drools/kogito-scenario-simulation/src/main/java/org/kogito/scenariosimulation/runner/KogitoTestScenarioEngine.java:114-124 | when every earlier file succeeds, the first failing file's exception is the result of discovery |
| Discovery.ParseFailureAbortsDiscovery | drools/kogito-scenario-simulation/src/main/java/org/kogito/scenariosimulation/runner/KogitoTestScenarioEngine.java:114-124 | the first unparsable file's ScenarioException, naming that file, is the result of discovery |
| Discovery.BlankShortNameAbortsDiscovery | drools/kogito-scenario-simulation/src/main/java/org/kogito/scenariosimulation/runner/KogitoTestScenarioEngine.java:114-118 | a parsable file with a blank short name, after files that succeed, makes discovery fail with the blank-segment-value refusal |
| Discovery.WalkFailureAbortsDiscovery | drools/kogito-scenario-simulation/src/main/java/org/kogito/scenariosimulation/runner/KogitoTestScenarioEngine.java:99-114 | a file whose canonical path fails makes discovery fail with the access error when the files before it succeed |
| Discovery.SameNameSameSuiteId | drools/kogito-scenario-simulation/src/main/java/org/kogito/scenariosimulation/runner/KogitoTestScenarioEngine.java:115-117 | same-named files in two roots either both fail to get a suite or get suites with equal ids |
| Discovery.BuildSuite | drools/kogito-scenario-simulation/src/main/java/org/kogito/scenariosimulation/runner/KogitoTestScenarioEngine.java:115-123 | builds exactly the suite the specification gives for one parsed file, or returns the constructor's exception |
| Discovery.DiscoverFile | drools/kogito-scenario-simulation/src/main/java/org/kogito/scenariosimulation/runner/KogitoTestScenarioEngine.java:114-123 | parses one file and builds its suite, or returns the first exception, as the specification gives |
| Discovery.DiscoverPaths | drools/kogito-scenario-simulation/src/main/java/org/kogito/scenariosimulation/runner/KogitoTestScenarioEngine.java:114-124 | adds the suites of the located files to the empty root, in order, or returns the first exception |
| Discovery.Discover | drools/kogito-scenario-simulation/src/main/java/org/kogito/scenariosimulation/runner/KogitoTestScenarioEngine.java:108-127 | the root has the engine's id and name and exactly the discovered suites, or the first exception is the result |
| Execution.EngineExecutionListener.ExecutionStarted | drools/kogito-scenario-simulation/src/main/java/org/kogito/scenariosimulation/runner/KogitoTestScenarioEngine.java:164 | appends one `started` notification |
| Execution.EngineExecutionListener.ExecutionFinished | drools/kogito-scenario-simulation/src/main/java/org/kogito/scenariosimulation/runner/KogitoTestScenarioEngine.java:208 | appends one `finished` notification |
| Execution.RunScenario | drools/kogito-scenario-simulation/src/main/java/org/kogito/scenariosimulation/runner/KogitoTestScenarioEngine.java:163-211 | appends exactly one scenario's events: started, failed if the helper throws, then successful |
| Execution.RunSuite | drools/kogito-scenario-simulation/src/main/java/org/kogito/scenariosimulation/runner/KogitoTestScenarioEngine.java:160-215 | appends started, each scenario's events in order, and finished successful |
| Execution.Execute | drools/kogito-scenario-simulation/src/main/java/org/kogito/scenariosimulation/runner/KogitoTestScenarioEngine.java:155-217 | appends exactly the events of every suite of the root, in order |
| Execution.ScenarioProtocol | drools/kogito-scenario-simulation/src/main/java/org/kogito/scenariosimulation/runner/KogitoTestScenarioEngine.java:164-208 | started first, then only finished events of that scenario, the last successful; a failed event exactly when the helper throws, carrying what it threw |
| Execution.SuiteBracketsScenarios | drools/kogito-scenario-simulation/src/main/java/org/kogito/scenariosimulation/runner/KogitoTestScenarioEngine.java:160-215 | a suite's started comes first and its finished (successful) last, with each scenario's events in order strictly between |
| Execution.ScenariosInOrder | drools/kogito-scenario-simulation/src/main/java/org/kogito/scenariosimulation/runner/KogitoTestScenarioEngine.java:160-215 | within a suite, an earlier scenario's events all come before a later scenario's |
| Execution.ScenarioEventsInLog | drools/kogito-scenario-simulation/src/main/java/org/kogito/scenariosimulation/runner/KogitoTestScenarioEngine.java:160-215 | in the whole log, each scenario's events appear intact, whatever other scenarios did, inside its suite's bracket, and suites follow one another |
| Execution.SecondOfThreeThrows | drools/kogito-scenario-simulation/src/main/java/org/kogito/scenariosimulation/runner/KogitoTestScenarioEngine.java:177-214 | three scenarios, the second throws: the exact nine-event log, with two finished events for the second |

## Left out

- The class path and path separator are the `Host` fields they would be read from. File listings, canonical paths and file contents are also `Host` fields. `System.getProperty`, `File` and `Scanner` are not part of this model.
- The `Scanner` read with the `\Z` delimiter is modelled as the whole file text. Empty text counts as a parse issue, because `next()` finds no token. A file that ends in a line terminator is not told apart.
- The XML reader is an `Unmarshaller` parameter: the model, or nothing when it throws an `Exception`. `ScenarioSimulationXMLPersistence` is not part of this model.
- `KogitoDMNScenarioRunnerHelper.run` is a `ScenarioRunnerHelper` parameter giving each scenario's outcome. The helper instance is shared by all scenarios, so this assumes it keeps no state between calls. `ExpressionEvaluatorFactory.create` and the getters before the `try` are assumed not to throw.
- The two catch blocks do the same thing, so `HelperOutcome` has one case for any Throwable.
- `FILE_EXTENSION` and `ConstantsHolder.SCESIM_EXTENSION` are not shown, so they are parameters (`ext`, `suffix`).
- Split: `String.split` takes a regular expression. The model treats the path separator as a literal character, which agrees for the real separators `:` and `;` but not for a separator that is a regular-expression metacharacter.
- Matches: the pattern `.*\.<ext>$` is read as "ends with `.` and the extension". This assumes the extension has no regular-expression metacharacters and ignores how `.` treats line terminators.
- The root's and a suite's children live in the library base class, as an insertion-ordered set keyed on unique id. The model keeps a plain list, so duplicate ids are kept, not collapsed.
- Discovery.Discover: the source adds the suite to the root before adding its leaves. It does so through a shared reference, so the final tree is the same. The model builds the suite value first and then adds it.
- `directory.listFiles()` is called twice in the source. The model lists a directory once.
- The `/classes` path computed beside `/test-classes` is never used and is not modelled.
- Descriptor indices are unbounded integers. The 32-bit range of Java's `int` is not imposed.
- `String.format` rendering `%d` in the default locale is modelled with ASCII digits. A null description, rendered as `null`, is not modelled.
- Blankness follows the test platform's rule: every character is at most U+0020. The exception types and messages for a blank unique-id segment and an empty JUnit 4 suite name are those the two libraries document. The display-name check of the descriptor base class is not modelled, because the id segment check refuses a blank suite name first and a leaf's display name is never blank. The libraries themselves are not part of this model.
- Errors: `parseFile` catches only `Exception`. A `java.lang.Error` thrown by the scanner or the XML reader, such as a stack overflow on deeply nested XML, would leave it unwrapped and without the path. The model assumes both throw only `Exception`s, so every parse failure is a `ScenarioException` naming the file.
- Symbolic links: `FsNode` is a finite tree. `isDirectory()` follows links, so a link to an ancestor directory makes `getResourcesFromDirectory` recurse until the stack overflows, which aborts discovery. The model cannot express such a cycle.
- `getId` returns a constant engine id. Engine registration is not modelled.
- `ClassSource`, the JUnit 4 `Description` objects beyond their names, logging, and the commented-out code are not modelled.
