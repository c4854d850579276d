# Spreadsheet viewer and Unity agent command framework, in Dafny

This project models two programs from one repository and proves properties of the models.

**The spreadsheet viewer** (`xlsx_viewer/main.go`) is a command-line tool:
- `XlsxArgs` turns the command line into one operation (`--size`, `--rows`, `--cols`, `--search-col`, `--search-row`) and its parameters, with their defaults and the exit code of a parameter error.
- `XlsxSheet` drops the empty rows of the first sheet. It reports the sheet's size, slices rows and columns with clipping and warnings, and searches a row or a column in fuzzy, exact or regex mode, stopping at a limit.

The code takes plain numeric ranges only: `--rows a b` and `--cols a b`. The model follows it, with no column letters and no comma lists.

**The Unity editor agent framework** (C#) reads batch command files that an agent drops into a pending directory. It runs each command through a registry of handlers and writes a result file. The model covers its self-contained logic:
- Property paths and JSON trees:
  - `PropertyPath` is the Unity property-path tokenizer.
  - `JsonTree` builds the JSON tree a serialized object becomes.
  - `SerializedProperties` filters fields and drives the builder.
  - `JsonValues` holds the JSON values they share.
- Commands:
  - `Commands` holds the parameter readers, the error factories and the command-result serialiser.
  - `Registry` is the case-insensitive handler registry, plus the plugin load summary.
- Logs: `Logs` is the bounded log cache and its queries, and `LogQuery` is the `log.query` handler in its two versions.
- Batches:
  - `BatchParser` is the batch-file validator.
  - `BatchExecutor` covers the three batch executors, including timeouts, skips and error mapping.
  - `PendingQueue` is the pending-file queue.
  - `AgentSkillsPlugin` is the frame-stepped plugin, and `BatchSession` is its batch session.
  - `AgentCommandsPlugin` is the older synchronous plugin.
  - `ResultWriter` covers result retention, the path-containment check and error archiving.
- `AutoCompile` is the auto-compile controller's state machine and its config validator.
- Scene objects and prefab edits:
  - `Scene` is the game-object tree, a value tree whose objects are addressed by child-index paths.
  - `PathFinder` covers both path finders and `GetPath`.
  - `Hierarchy` is the hierarchy traverser.
  - `GameObjectProperties` is the GameObject property modifier.
  - `K3Modifier`, `K3Finder` and `K3SetProperties` are the K3 component modifier, finder and set-properties handler.
  - `PrefabMoveOrCopy` and `PrefabDelete` are the prefab edit handlers.
  - `Screenshot` is the screenshot handler.

The file system, the clock, the Unity editor, the regex engine and the spreadsheet library are all parameters of the model, never code inside it. Each of them is an input value or a function given to the operation that uses it. Where the source changes state in place, the model is a class whose methods are proved against specification functions. These are the log cache, the plugins' queues, the auto-compile controller and the property modifiers.

Several source files contain copies of the same logic:
- `SerializedObjectHelper.cs` has private copies of `ExtractBaseFieldName` (lines 169-194), `ParsePropertyPath` (lines 206-289) and `InsertPropertyValue` (lines 400-440).
- There are three `BatchCommandExecutor.cs` files and two `LogQueryCommandHandler.cs` files.

These copies behave the same as the originals, so one member models each of them. Where two copies differ, the model takes a parameter for the difference: the executor variant, or the query's default match mode.

## Model

| member | source | states |
|---|---|---|
| XlsxArgs.PositiveAt | xlsx_viewer/main.go:177-189 | a range number is taken only when it is present, does not start with "--" and Atoi reads it as a positive integer |
| XlsxArgs.StepAt | xlsx_viewer/main.go:152-306 | one pass of the argument loop either stops with an exit or moves the cursor strictly forward, never past the end |
| XlsxArgs.WithDefaults | xlsx_viewer/main.go:309-327 | the defaults keep path, operation and every parameter already given, and add maxCols for rows, maxRows for cols, mode and limit for searches |
| XlsxArgs.ParseRange | xlsx_viewer/main.go:168-219 | the `--rows`/`--cols` branch equals its step function: 1-3 by default, 1-n with one number, a-b with two |
| XlsxArgs.ParseSearch | xlsx_viewer/main.go:220-261 | the `--search-col`/`--search-row` branch equals its step function: a missing or non-positive index or a missing keyword exits 2 |
| XlsxArgs.ParsePositive | xlsx_viewer/main.go:262-281 | the `--max-cols`/`--max-rows` branches equal their step function: a missing value or one below 1 exits 2 |
| XlsxArgs.ParseOne | xlsx_viewer/main.go:153-306 | one pass of the loop body equals StepAt, covering help, path, every flag, a second operation flag (exit 2) and the unknown-argument exit |
| XlsxArgs.ParseArgs | xlsx_viewer/main.go:144-330 | the cursor loop followed by the defaults returns exactly ParseSpec(args) |
| XlsxArgs.StepKeepsInvariant | xlsx_viewer/main.go:152-306 | each pass keeps every parameter valid and, once an operation is chosen, that operation's own parameters present |
| XlsxArgs.DefaultsComplete | xlsx_viewer/main.go:309-327 | after the defaults every parameter main reads for the chosen operation is present with the type it asserts |
| XlsxArgs.ParsedIsComplete | xlsx_viewer/main.go:152-327 | from any state that keeps the loop invariant, a successful parse is complete |
| XlsxArgs.ParseSpecComplete | xlsx_viewer/main.go:144-330 | for all arguments, a successful parse carries every parameter main's type assertions need (main.go:656-683 never panics) |
| XlsxArgs.SecondOperationFails | xlsx_viewer/main.go:164-166 | an operation flag after an operation was chosen exits with the parameter-error code 2 and the one-operation message |
| XlsxArgs.TwoOperationsFail | xlsx_viewer/main.go:163-245 | `--path p` followed by two operation flags is a parameter error |
| XlsxArgs.RangeNoNumber | xlsx_viewer/main.go:168-174 | `--rows` or `--cols` with nothing after it covers 1-3 |
| XlsxArgs.RangeOneNumber | xlsx_viewer/main.go:177-182 | `--rows n` or `--cols n` with a positive n covers 1-n |
| XlsxArgs.RangeTwoNumbers | xlsx_viewer/main.go:184-190 | `--rows a b` or `--cols a b` with positive a and b covers a-b |
| XlsxArgs.NumberIsNotFlag | xlsx_viewer/main.go:177-178 | a string Atoi accepts never starts with "--", so the prefix test never hides a number |
| XlsxArgs.SearchDefaults | xlsx_viewer/main.go:320-327 | a search with no `--mode` or `--limit` is a fuzzy search limited to 10 matches |
| XlsxArgs.CheckRequired | xlsx_viewer/main.go:619-625 | main goes on exactly when both a path and an operation were given, and exits with code 2 otherwise |
| XlsxSheet.GetSheetData | xlsx_viewer/main.go:350-383 | no sheet gives an empty sheet, a reader error is passed on, otherwise exactly the first sheet's non-empty rows in order |
| XlsxSheet.GetSheetSize | xlsx_viewer/main.go:386-393 | the size is the row count and the first row's length, and 0 columns for an empty sheet |
| XlsxSheet.SizeOfFilteredSheet | xlsx_viewer/main.go:374-393 | on a sheet with its empty rows dropped, the column count is 0 exactly when there are no rows |
| XlsxSheet.GetRowsData | xlsx_viewer/main.go:396-429 | a start beyond the sheet gives no rows and the out-of-range warning; otherwise the end is clipped with a warning, and row k of the result is sheet row start+k cut to maxCols cells |
| XlsxSheet.CellAt | xlsx_viewer/main.go:473-478 | a cell past a row's end reads as nil; any other reads the row's own cell |
| XlsxSheet.GetColsData | xlsx_viewer/main.go:432-486 | a start beyond the column count gives no columns and a warning; otherwise the end is clipped, column k is numbered start+k and holds exactly min(maxRows, rows) values, nil for missing cells |
| XlsxSheet.Items | xlsx_viewer/main.go:599-602 | each cell of a row is paired with its 1-based column number |
| XlsxSheet.FirstMatches | xlsx_viewer/main.go:519-548 | the scan returns the first hits in order, and stops as soon as the count reaches the limit, so never more than max(1, limit) of them |
| XlsxSheet.SearchColumn | xlsx_viewer/main.go:489-551 | an index beyond the columns gives no data and a warning; a regex that does not compile is an error; otherwise the first max(1, limit) rows whose cell matches, in sheet order |
| XlsxSheet.SearchRow | xlsx_viewer/main.go:554-612 | an index beyond the rows gives no data and a warning; a regex that does not compile is an error; otherwise the first matching cells with their columns, in order |
| XlsxSheet.RowHitsAreCells | xlsx_viewer/main.go:583-602 | every hit of a row search names a real column of that row and carries that column's cell, which matches |
| XlsxSheet.ExactImpliesFuzzy | xlsx_viewer/main.go:531-535 | an exact match (case-insensitive equality) is also a fuzzy match (case-insensitive containment) |
| XlsxSheet.ColumnResultsMatch | xlsx_viewer/main.go:519-545 | every row a column search returns has a matching cell in the searched column |
| PropertyPath.CreateField | UnitySkills/AgentCommands/Utils/Serialization/PropertyPathToken.cs:27-35 | a Field token keeps the name and has array index -1 |
| PropertyPath.CreateArraySize | UnitySkills/AgentCommands/Utils/Serialization/PropertyPathToken.cs:40-48 | an ArraySize token keeps the name and has array index -1 |
| PropertyPath.CreateArrayIndex | UnitySkills/AgentCommands/Utils/Serialization/PropertyPathToken.cs:53-61 | an ArrayIndex token keeps the given name and index |
| PropertyPath.TokenToString | UnitySkills/AgentCommands/Utils/Serialization/PropertyPathToken.cs:63-76 | the rendering is "Field(n)", "ArraySize(n)" or "ArrayIndex(n[i])" by kind |
| PropertyPath.ToStringShowsKind | UnitySkills/AgentCommands/Utils/Serialization/PropertyPathToken.cs:63-76 | two tokens that render the same have the same kind |
| PropertyPath.ParseSegment | UnitySkills/AgentCommands/Utils/Serialization/PropertyPathParser.cs:37-101 | one segment adds at most one token and may only rewrite the last one; every token before it is kept |
| PropertyPath.ParsePropertyPath | UnitySkills/AgentCommands/Utils/Serialization/PropertyPathParser.cs:22-105 | the loop equals the fold of the segments; an empty path gives no tokens; never more tokens than '.'-separated segments |
| PropertyPath.TokenCountBound | UnitySkills/AgentCommands/Utils/Serialization/PropertyPathParser.cs:33-102 | the token count never exceeds the number of segments |
| PropertyPath.PlainFieldPath | UnitySkills/AgentCommands/Utils/Serialization/PropertyPathParser.cs:100-101 | a dot-free, bracket-free name other than "size" and "Array" is one Field token |
| PropertyPath.ArraySizePath | UnitySkills/AgentCommands/Utils/Serialization/PropertyPathParser.cs:43-56 | "f.Array.size" gives exactly [ArraySize(f)] |
| PropertyPath.ArrayDataPath | UnitySkills/AgentCommands/Utils/Serialization/PropertyPathParser.cs:59-78 | "f.Array.data[n]" gives exactly [ArrayIndex(f, n)] |
| PropertyPath.NumericBracket | UnitySkills/AgentCommands/Utils/Serialization/PropertyPathParser.cs:88-97 | a segment "name[i]" with a non-empty name and a parsable index appends ArrayIndex(name, i) |
| PropertyPath.BracketPath | UnitySkills/AgentCommands/Utils/Serialization/PropertyPathParser.cs:88-97 | the path "f[n]" gives exactly [ArrayIndex(f, n)] |
| PropertyPath.NonNumericBracket | UnitySkills/AgentCommands/Utils/Serialization/PropertyPathParser.cs:93-101 | a bracket whose contents are not a number falls back to a Field token for the whole segment |
| PropertyPath.SkippedSegments | UnitySkills/AgentCommands/Utils/Serialization/PropertyPathParser.cs:37-84 | empty segments, "Array", and "size" or "data[..]" with no Field token before them leave the tokens unchanged |
| JsonTree.Put | UnityAgentSkills/Utils/Serialization/SerializedJsonTreeBuilder.cs:224-231 | writing a child into its slot changes that slot alone: every other field is kept, and an array element write keeps the array's length |
| JsonTree.Padded | UnityAgentSkills/Utils/Serialization/SerializedJsonTreeBuilder.cs:277-289 | after padding, the list has an element at requiredIndex, starts with the old elements unchanged, and only nulls were added |
| JsonTree.EnsureArrayCapacity | UnityAgentSkills/Utils/Serialization/SerializedJsonTreeBuilder.cs:277-289 | the while loop leaves a non-array alone and pads an array exactly as Padded does |
| JsonTree.GetOrCreateObjectNode | UnityAgentSkills/Utils/Serialization/SerializedJsonTreeBuilder.cs:204-233 | a non-object parent gives null; a null field throws; otherwise it descends into field f, which now holds an object (the existing one, or a fresh one in place of a non-object) |
| JsonTree.GetOrCreateArrayNode | UnityAgentSkills/Utils/Serialization/SerializedJsonTreeBuilder.cs:241-270 | a non-object parent gives null; a null field throws; otherwise it descends into field f, which now holds an array (the existing one, or a fresh one in place of a non-array) |
| JsonTree.TraversePath | UnityAgentSkills/Utils/Serialization/SerializedJsonTreeBuilder.cs:66-138 | an ArraySize token or a non-object parent stops; a descent goes through the token's field and keeps every other field; a Field token behaves as GetOrCreateObjectNode |
| JsonTree.RequestedSize | UnityAgentSkills/Utils/Serialization/SerializedJsonTreeBuilder.cs:176-184 | the requested size is the int itself, a string read by int.TryParse (0 when it fails), and 0 for any other kind |
| JsonTree.SetFinalValue | UnityAgentSkills/Utils/Serialization/SerializedJsonTreeBuilder.cs:146-196 | a non-object node is left unchanged; otherwise only the token's field may change, and a Field leaf sets parent[name] to the value |
| JsonTree.Walk | UnityAgentSkills/Utils/Serialization/SerializedJsonTreeBuilder.cs:32-56 | walking the tokens from an object keeps it an object, keeps its keys and changes no field but the first token's |
| JsonTree.Inserted | UnityAgentSkills/Utils/Serialization/SerializedJsonTreeBuilder.cs:18-57 | a null root or an empty token list leaves the tree unchanged; an object root keeps every field but the first token's |
| JsonTree.InsertPropertyValue | UnityAgentSkills/Utils/Serialization/SerializedJsonTreeBuilder.cs:18-57 | the loop over all tokens but the last, then the leaf, leaves exactly the tree Inserted describes |
| JsonTree.WalkDown | UnityAgentSkills/Utils/Serialization/SerializedJsonTreeBuilder.cs:32-56 | the for loop over tokens 0..n-2 followed by the leaf leaves exactly the tree Walk describes, stopping early when a traversal fails |
| JsonTree.Advance | UnityAgentSkills/Utils/Serialization/SerializedJsonTreeBuilder.cs:37-52 | one iteration reads the lookahead token when it exists, traverses one step, and either stops with the outcome of the whole walk or descends with the rest of the walk unchanged |
| JsonTree.ArrayIndexLeaf | UnityAgentSkills/Utils/Serialization/SerializedJsonTreeBuilder.cs:158-169 | an ArrayIndex leaf pads the array with nulls to index+1, sets that element, and keeps every other old element |
| JsonTree.NegativeIndexLeaf | UnityAgentSkills/Utils/Serialization/SerializedJsonTreeBuilder.cs:158-169 | a negative index throws ArgumentOutOfRange after the array field was created or kept |
| JsonTree.ArraySizeLeaf | UnityAgentSkills/Utils/Serialization/SerializedJsonTreeBuilder.cs:171-194 | an ArraySize leaf grows the array to at least the requested size with nulls, keeps the old elements and never shrinks it |
| JsonTree.NullSizeThrows | UnityAgentSkills/Utils/Serialization/SerializedJsonTreeBuilder.cs:177-183 | a null size value is read for its type and throws, leaving the node unchanged |
| JsonTree.ArraySizeMidPath | UnityAgentSkills/Utils/Serialization/SerializedJsonTreeBuilder.cs:130-133 | an ArraySize token before the last token stops the insertion with the tree unchanged |
| JsonTree.Lookup | UnityAgentSkills/Utils/Serialization/SerializedJsonTreeBuilder.cs:18-57 | reading back along an empty path gives the node itself (the partner of InsertPropertyValue) |
| JsonTree.WalkThenLookup | UnityAgentSkills/Utils/Serialization/SerializedJsonTreeBuilder.cs:32-56 | with the next token as lookahead, a value inserted along a clear path does not throw and is read back along that path |
| JsonTree.InsertThenLookup | UnityAgentSkills/Utils/Serialization/SerializedJsonTreeBuilder.cs:18-57 | the corrected insertion makes the value readable along every clear token path |
| JsonTree.TraverseByContainer | UnityAgentSkills/Utils/Serialization/SerializedJsonTreeBuilder.cs:105-125 | the traversal reads its lookahead token only for the container it calls for (object for a Field, array for an ArrayIndex, none otherwise) |
| JsonTree.WalkLookaheadsAgree | UnityAgentSkills/Utils/Serialization/SerializedJsonTreeBuilder.cs:35-53 | when, at every step, the tokens one and two ahead call for the same container, the walks with either lookahead leave the same tree and the same exception |
| JsonTree.AsWrittenAgreesWithCorrected | UnityAgentSkills/Utils/Serialization/SerializedJsonTreeBuilder.cs:41-44 | the as-written insertion equals the corrected one on every such path, so the lookahead defect is confined to paths where the two tokens call for different containers |
| JsonTree.LosingPathDiffers | UnityAgentSkills/Utils/Serialization/SerializedJsonTreeBuilder.cs:41-44 | the path of LookaheadLosesValue is such a path: one token ahead calls for an object, two tokens ahead for nothing |
| JsonTree.LookaheadLosesValue | UnityAgentSkills/Utils/Serialization/SerializedJsonTreeBuilder.cs:41-44 | as written, inserting along [ArrayIndex(a,0), Field(b)] into an empty object leaves {"a": [null]}: the value is lost, while the corrected insertion keeps it |
| SerializedProperties.ExtractBaseFieldName | UnityAgentSkills/Utils/Serialization/SerializedFieldFilter.cs:68-93 | the result is always a prefix of the input; it is cut exactly at the first '.' when that is past index 0, else at the first '[' past index 0, and is the whole input otherwise |
| SerializedProperties.BaseFieldExamples | UnityAgentSkills/Utils/Serialization/SerializedFieldFilter.cs:80-92 | "a.b.c" gives "a" and "a[0]" gives "a"; ".a" and "[0]" are returned whole |
| SerializedProperties.InsertProperty | UnitySkills/AgentCommands/Utils/SerializedObjectHelper.cs:154-155 | a path whose substring is out of range throws ArgumentOutOfRange and leaves the tree unchanged; otherwise an object stays an object, keeps its keys, and changes no field except the one its first path token names |
| SerializedProperties.InsertAll | UnitySkills/AgentCommands/Utils/SerializedObjectHelper.cs:135-157 | inserting no properties changes nothing; inserting into an object keeps it an object with at least its keys, and any field that no property's first path token names keeps its value; each path is inserted as written, choosing its container by the token two ahead |
| SerializedProperties.FaultStops | UnitySkills/AgentCommands/Utils/SerializedObjectHelper.cs:154-157 | once an insertion has thrown, the properties after it change nothing: the exception leaves the loop |
| SerializedProperties.GetSerializedProperties | UnitySkills/AgentCommands/Utils/SerializedObjectHelper.cs:94-162 | the iterator loop inserts, in order into a fresh object and with the as-written insertion, exactly the properties that are not m_Script and, unless includePrivate, whose base field is not private |
| SerializedProperties.ScriptIgnored | UnitySkills/AgentCommands/Utils/SerializedObjectHelper.cs:138-141 | an m_Script property anywhere among the properties has no effect on the collected tree |
| Commands.CreateInvalidRegexError | UnitySkills/AgentCommands/Core/CommandErrorFactory.cs:56-64 | the error has code INVALID_REGEX, the fixed invalid-regex message and the given detail |
| Commands.CreateUnknownCommandError | UnitySkills/AgentCommands/Core/CommandErrorFactory.cs:72-80 | the code is UNKNOWN_TYPE and the message is the fixed prefix, ": ", then the command type with null read as "" |
| Commands.CreateInvalidFieldsError | UnitySkills/AgentCommands/Core/CommandErrorFactory.cs:87-95 | the error has code INVALID_FIELDS, the fixed message and the given detail |
| Commands.CreatePrefabNotFoundError | UnitySkills/AgentCommands/Core/CommandErrorFactory.cs:102-110 | a missing prefab is a RUNTIME_ERROR whose detail is "Prefab not found at path: " followed by the path (null read as "") |
| Commands.CreateGameObjectNotFoundError | UnitySkills/AgentCommands/Core/CommandErrorFactory.cs:117-125 | a missing game object is a RUNTIME_ERROR whose detail is "GameObject not found at path: " followed by the path |
| Commands.CreateRuntimeError | UnitySkills/AgentCommands/Core/CommandErrorFactory.cs:132-140 | the error has code RUNTIME_ERROR, the fixed message and the given detail |
| Commands.CreateTimeoutError | UnitySkills/AgentCommands/Core/CommandErrorFactory.cs:148-156 | the code is TIMEOUT and the detail shows both the elapsed and the allowed milliseconds |
| Commands.CreateSkippedError | UnitySkills/AgentCommands/Core/CommandErrorFactory.cs:163-171 | the code is SKIPPED and the detail shows the batch limit in milliseconds |
| Commands.ErrorJson | UnitySkills/AgentCommands/Core/AgentCommandModels.cs:164-171 | the error object always has code and message, and has detail exactly when the error has a non-empty one |
| Commands.ToJsonData | UnitySkills/AgentCommands/Core/AgentCommandModels.cs:149-180 | id, type, status and startedAt are always present with null read as ""; finishedAt exactly for success and error; error exactly for error; result exactly for success, an empty value when null; no other key |
| Commands.ProcessingShape | UnitySkills/AgentCommands/Core/AgentCommandModels.cs:152-177 | a processing result carries exactly the four always-present fields |
| Commands.IntValue | UnitySkills/AgentCommands/Core/CommandParams.cs:47-51 | an int is taken as is, a long through the 32-bit wrap, a double truncated toward zero, a string through int.TryParse |
| Commands.GetInt | UnitySkills/AgentCommands/Core/CommandParams.cs:40-54 | a missing key throws INVALID_FIELDS "Missing int param", a null value throws NullReference, an unusable one throws "Invalid int param"; it returns exactly when the value converts |
| Commands.GetIntOr | UnitySkills/AgentCommands/Core/CommandParams.cs:62-73 | a missing key or an unusable value gives the default; only a null value throws |
| Commands.GetIntAgrees | UnitySkills/AgentCommands/Core/CommandParams.cs:40-73 | the two overloads agree wherever the throwing one returns, and the default one gives its default where the other rejects a present value |
| Commands.GetBool | UnitySkills/AgentCommands/Core/CommandParams.cs:81-90 | a bool is returned as is, a string through bool.TryParse, anything else gives the default; a null value throws |
| Commands.GetString | UnitySkills/AgentCommands/Core/CommandParams.cs:98-106 | a string is returned as is and any other value through its ToString; a missing key gives the default; a null value throws |
| Text.Atoi | xlsx_viewer/main.go:178 | strconv.Atoi accepts an optional sign and decimal digits within the 64-bit range, and reads plain digits as their value |
| Text.TryParseInt | UnitySkills/AgentCommands/Core/CommandParams.cs:51 | int.TryParse accepts a value only within the 32-bit range, and reads plain digits within it as their value |
| Text.TryParseNatToString | UnitySkills/AgentCommands/Core/CommandParams.cs:51 | int.TryParse reads back the decimal rendering of every natural number within the 32-bit range |
| Text.TryParseBool | UnitySkills/AgentCommands/Core/CommandParams.cs:87 | bool.TryParse gives true exactly for "true" and false exactly for "false", in any letter case, once white space and '\0' are trimmed from both ends |
| Text.TrimWhitespaceAndNull | UnitySkills/AgentCommands/Core/CommandParams.cs:87 | the trim bool.TryParse applies first never lengthens its input |
| Text.TrimsAgreeWithoutNull | UnitySkills/AgentCommands/Core/CommandParams.cs:87 | on text without '\0', bool.TryParse's trim is the white-space trim that int.TryParse uses |
| Text.TrailingNullsIgnored | UnitySkills/AgentCommands/Core/CommandParams.cs:87 | any number of trailing '\0' after text that neither starts nor ends with a trimmed character are removed, so bool.TryParse reads the text as without them |
| Text.TrueWithNulls | UnitySkills/AgentCommands/Core/CommandParams.cs:87 | "true" followed by any number of '\0' parses as true |
| Text.WrapInt32 | UnitySkills/AgentCommands/Core/CommandParams.cs:49 | the (int)(long) cast keeps the low 32 bits: the result is in the int range, congruent to the input, and equal to it when it fits |
| Text.TruncateToInt32 | UnitySkills/AgentCommands/Core/CommandParams.cs:50 | the (int)(double) cast truncates toward zero within the int range and stays in the int range |
| Text.Lower | xlsx_viewer/main.go:527-528 | lower-casing keeps the length and lower-cases each ASCII letter alone |
| Registry.WithHandler | UnitySkills/AgentCommands/Core/CommandHandlerRegistry.cs:51 | after registering t, every spelling of t maps to the new handler, and every other entry is kept as it was |
| Registry.CommandHandlerRegistry.constructor | UnitySkills/AgentCommands/Core/CommandHandlerRegistry.cs:22-33 | the static constructor fills the table with exactly the six built-in command types, each under its lower-cased name and mapped to its own handler |
| Registry.CommandHandlerRegistry.Register | UnitySkills/AgentCommands/Core/CommandHandlerRegistry.cs:40-52 | an empty type or a null handler throws ArgumentException and changes nothing; otherwise the entry is added or overwritten |
| Registry.CommandHandlerRegistry.Execute | UnitySkills/AgentCommands/Core/CommandHandlerRegistry.cs:61-69 | a registered type runs its handler on the parameters; any other throws NotSupportedException "UNKNOWN_TYPE: " + type |
| Registry.UnknownTypeException | UnitySkills/AgentCommands/Core/CommandHandlerRegistry.cs:68 | the exception is a NotSupportedException whose message is "UNKNOWN_TYPE: " followed by the type |
| Registry.RegisteredIff | UnitySkills/AgentCommands/Core/CommandHandlerRegistry.cs:22-79 | after the static constructor and any registrations, IsRegistered(u) holds exactly when u is one of the six built-in types or some registration named it, in any letter case |
| Registry.LastRegistrationWins | UnitySkills/AgentCommands/Core/CommandHandlerRegistry.cs:22-52 | after the static constructor, the last registration of a type, in any spelling, decides its handler, built-in or not |
| Registry.BuiltinRegistrations | UnitySkills/AgentCommands/Core/CommandHandlerRegistry.cs:24-32 | the initializer performs one registration per built-in type, in its order, each with that type's handler |
| Registry.InitialHandlersMeaning | UnitySkills/AgentCommands/Core/CommandHandlerRegistry.cs:22-33 | after the static constructor a type is registered exactly when it is one of the six built-in types in some letter case, and each maps to its own handler |
| Registry.DistinctByLength | UnitySkills/AgentCommands/Core/CommandHandlerRegistry.cs:24-32 | the six built-in types differ pairwise even ignoring case, so no initializer entry overrides another |
| Registry.BuiltinKept | UnitySkills/AgentCommands/Core/CommandHandlerRegistry.cs:22-52 | a built-in type that no registration names keeps its built-in handler |
| Registry.RegisteredFrom | UnitySkills/AgentCommands/Core/CommandHandlerRegistry.cs:51 | after a sequence of registrations a type is in the table exactly when it was already there or some registration named it |
| Registry.LastRegistrationWinsFrom | UnitySkills/AgentCommands/Core/CommandHandlerRegistry.cs:51 | from any table, the last registration naming a type decides its handler |
| Registry.UnchangedWithout | UnitySkills/AgentCommands/Core/CommandHandlerRegistry.cs:51 | registrations that never name a type leave its entry as it was |
| Registry.GetStatusSummary | UnitySkills/AgentCommands/Core/PluginLoadResult.cs:70-84 | a critical failure wins over everything; then a non-functional framework gives WARNING; the summary starts "OK: " exactly otherwise, and then reports successful/(successful+failed) |
| Logs.MapLevel | UnitySkills/AgentCommands/Core/LogCache.cs:126-139 | Warning maps to "Warning"; Error, Exception and Assert map to "Error"; exactly Log maps to "Log" |
| Logs.NewEntry | UnitySkills/AgentCommands/Core/LogCache.cs:106-112 | the recorded entry carries the mapped level, and the text and stack given, with a null one recorded as "" |
| Logs.Appended | UnitySkills/AgentCommands/Core/LogCache.cs:106-117 | the cache never holds more than MaxCached (10000) entries; the new entry is last; below the bound it is plain appending, at the bound the oldest entry is dropped |
| Logs.AppendedKeepsRecent | UnitySkills/AgentCommands/Core/LogCache.cs:114-117 | after an append the cache is exactly the most recent entries of the old cache plus the new one, in arrival order |
| Logs.Recent | UnitySkills/AgentCommands/Core/LogCache.cs:150-180 | the result is a suffix of the filtered list; it is all of it when n is not positive or the list is short, otherwise exactly its last n entries |
| Logs.QueryMembers | UnitySkills/AgentCommands/Core/LogCache.cs:150-180 | every entry a query returns is in the cache and passes the level filter and the keyword filter of the mode asked for (Strict when none is given) |
| Logs.QueryComplete | UnitySkills/AgentCommands/Core/LogCache.cs:150-180 | when n does not cut the list, every cached entry that passes both filters is returned |
| Logs.FuzzyIgnoresCase | UnitySkills/AgentCommands/Core/LogCache.cs:217-226 | a Fuzzy match does not depend on the keyword's letter case, and every Strict match is also a Fuzzy match |
| Logs.CollectMatches | UnitySkills/AgentCommands/Core/LogCache.cs:156-171 | the loop collects exactly the entries passing the level filter and then the keyword filter, in cache order |
| Logs.LogCache.constructor | UnitySkills/AgentCommands/Core/LogCache.cs:50 | the cache starts empty |
| Logs.LogCache.HandleLog | UnitySkills/AgentCommands/Core/LogCache.cs:102-118 | one callback appends one entry and drops the oldest past MaxCached; the cache stays within its bound |
| Logs.LogCache.Query | UnitySkills/AgentCommands/Core/LogCache.cs:150-180 | the query returns the specification's result on the current cache, which the two lemmas above characterise |
| LogQuery.ReadArgs | UnitySkills/AgentCommands/Plugins/Log/Handlers/LogQueryCommandHandler.cs:26-37 | a bad n is the first error reported; on success the arguments are what the parameters hold, and a keyword without a match mode gets the handler's default mode; reading fails exactly when one of the five readers throws |
| LogQuery.ItemJson | UnitySkills/AgentCommands/Plugins/Log/Handlers/LogQueryCommandHandler.cs:59-66 | an item has exactly time, level and message, plus stack exactly when includeStack is set, each holding the entry's text |
| LogQuery.ItemsJson | UnitySkills/AgentCommands/Plugins/Log/Handlers/LogQueryCommandHandler.cs:57-69 | one item per returned entry, in the same order |
| LogQuery.InvalidRegexException | UnitySkills/AgentCommands/Plugins/Log/Handlers/LogQueryCommandHandler.cs:45-48 | a rejected pattern becomes an InvalidOperationException whose message is INVALID_REGEX, a colon, and the engine's own message |
| LogQuery.QueryNeverRejects | UnitySkills/AgentCommands/Plugins/Log/Handlers/LogQueryCommandHandler.cs:39-51 | once the handler's regex check has passed, the cache query does not throw |
| LogQuery.ResponseShape | UnitySkills/AgentCommands/Plugins/Log/Handlers/LogQueryCommandHandler.cs:53-74 | a response holds exactly items, totalCaptured and returned; totalCaptured is the cache size, returned the number of items, at most n when n is positive, and each item carries a stack exactly when asked |
| LogQuery.ResultJsonShape | UnitySkills/AgentCommands/Plugins/Log/Handlers/LogQueryCommandHandler.cs:57-73 | the result object renders one item per returned entry, counts them in returned, and gives an item a stack exactly when includeStack is set |
| LogQuery.InvalidRegexReported | UnitySkills/AgentCommands/Plugins/Log/Handlers/LogQueryCommandHandler.cs:39-48 | a Regex-mode keyword the engine rejects fails with INVALID_REGEX and the engine's message |
| LogQuery.MissingCountRejected | UnitySkills/AgentCommands/Plugins/Log/Handlers/LogQueryCommandHandler.cs:28 | a request without n is rejected with an INVALID_FIELDS error, whatever else it holds |
| LogQuery.ExplicitModeAgrees | UnitySkills/AgentCommands/Handlers/LogQueryCommandHandler.cs:24-75 | the older handler and the plugin handler give the same response whenever the request names a match mode |
| LogQuery.DefaultModes | UnitySkills/AgentCommands/Handlers/LogQueryCommandHandler.cs:34-37 | a keyword without a match mode is matched Fuzzy by the plugin handler and Strict by the older one |
| LogQuery.RenderItems | UnitySkills/AgentCommands/Plugins/Log/Handlers/LogQueryCommandHandler.cs:54-69 | the loop renders exactly the items of the specification |
| LogQuery.Execute | UnitySkills/AgentCommands/Plugins/Log/Handlers/LogQueryCommandHandler.cs:24-75 | the handler returns the specification's response on the current cache |
| BatchParser.InvalidFields | UnityAgentSkills/Core/BatchCommandParser.cs:114 | a validation failure is an ArgumentException whose message starts with the INVALID_FIELDS code |
| BatchParser.ValueText | UnityAgentSkills/Core/BatchCommandParser.cs:49 | ToString of a field gives a string's own text, and throws exactly when the value is null |
| BatchParser.OptionalText | UnityAgentSkills/Core/BatchCommandParser.cs:46-50 | an absent field reads as null; a present one throws exactly when it is null and otherwise gives its text |
| BatchParser.OptionalInt | UnityAgentSkills/Core/BatchCommandParser.cs:53-57 | a timeout is taken exactly when the field holds an int, with that value; asking IsInt of a null throws |
| BatchParser.ReadCommand | UnityAgentSkills/Core/BatchCommandParser.cs:65-92 | a null element throws, a non-object element is skipped, an object becomes a command with the fields it holds |
| BatchParser.ReadCommands | UnityAgentSkills/Core/BatchCommandParser.cs:60-94 | the read keeps at most as many commands as there are elements |
| BatchParser.ReadFailureSticks | UnityAgentSkills/Core/BatchCommandParser.cs:65-93 | once an element throws, the read of the whole array throws the same exception |
| BatchParser.ObjectsKept | UnityAgentSkills/Core/BatchCommandParser.cs:65-93 | with no null element the read succeeds and keeps exactly the object elements, one command each, in order |
| BatchParser.ParseCommands | UnityAgentSkills/Core/BatchCommandParser.cs:61-94 | the loop reads exactly the commands of the specification |
| BatchParser.ParseRoot | UnityAgentSkills/Core/BatchCommandParser.cs:40-102 | a root that is not an object is INVALID_JSON; a parsed batch carries the batch id, timeout and commands read from the root and the file time given |
| BatchParser.Parse | UnityAgentSkills/Core/BatchCommandParser.cs:21-103 | a missing file and undecodable JSON are INVALID_JSON with the file path or the reader's message; a decoded root is parsed as above |
| BatchParser.TrailingNewlineAccepted | UnityAgentSkills/Core/BatchCommandParser.cs:124 | the pattern as written, whose end anchor also matches before a final newline, admits "batch\n", which the intended check refuses |
| BatchParser.SafeBatchIdCharset | UnityAgentSkills/Core/BatchCommandParser.cs:123-128 | an id the corrected check admits matches the pattern and contains no newline, slash, backslash or dot |
| BatchParser.CommandError | UnityAgentSkills/Core/BatchCommandParser.cs:141-157 | a missing id, type or params is an ArgumentException with the INVALID_FIELDS code |
| BatchParser.CommandsError | UnityAgentSkills/Core/BatchCommandParser.cs:137-158 | no error exactly when every remaining command has an id, a type and params; otherwise the error of the first incomplete command |
| BatchParser.Validate | UnityAgentSkills/Core/BatchCommandParser.cs:110-159 | a batch passes exactly when it is present, its id matches the source's pattern (which also lets one trailing newline through), it has at least one command, and every command is complete; otherwise the first failing check's INVALID_FIELDS error |
| BatchParser.NewlineBatchValidated | UnityAgentSkills/Core/BatchCommandParser.cs:124 | a batch whose id is "batch\n" and whose commands are complete passes validation |
| BatchParser.ParseAndValidate | UnityAgentSkills/Core/BatchCommandParser.cs:167-172 | a missing file, undecodable JSON and a failed read are returned as Parse gives them; a parsed batch that fails Validate gives Validate's error; a parsed batch that passes Validate is returned; so a returned batch was parsed from the decoded file and passes Validate |
| BatchExecutor.SkippedResult | UnityAgentSkills/Core/BatchCommandExecutor.cs:195-206 | a skipped command keeps its id and type, has the error status and a SKIPPED error whose detail names the batch timeout in ms |
| BatchExecutor.InjectScreenshotContext | UnityAgentSkills/Core/BatchCommandExecutor.cs:222-260 | the screenshot params are an object holding the batch id and command id (null read as "") and the batch's screenshot count |
| BatchExecutor.MapException | UnityAgentSkills/Core/BatchCommandExecutor.cs:120-171 | a command over its own timeout is a timeout error; otherwise NotSupportedException is UNKNOWN_TYPE with its message, anything unmatched is RUNTIME_ERROR with the detail prefix, and every code is one of five |
| BatchExecutor.InvalidFieldsMapped | UnityAgentSkills/Core/BatchCommandExecutor.cs:137-142 | in the two newer copies an INVALID_FIELDS-prefixed ArgumentException becomes INVALID_FIELDS with the text after the code as the detail |
| BatchExecutor.InvalidFieldsLegacy | UnitySkills/AgentCommands/BatchCommandExecutor.cs:104-141 | the oldest copy has no INVALID_FIELDS rule, so the same exception becomes RUNTIME_ERROR there |
| BatchExecutor.TimeoutPrefixMapped | UnityAgentSkills/Core/BatchCommandExecutor.cs:131-135 | only the newest copy turns a handler's TIMEOUT-prefixed ArgumentException into a timeout error; the others report it as a runtime error |
| BatchExecutor.RunCommand | UnityAgentSkills/Core/BatchCommandExecutor.cs:88-173 | a command succeeds exactly when its handler returns within its timeout (the batch's when it has none), and then carries the handler's result and no error |
| BatchExecutor.SkippedFrom | UnityAgentSkills/Core/BatchCommandExecutor.cs:73-80 | every remaining command gets its SKIPPED result, in order |
| BatchExecutor.CountStatus | UnityAgentSkills/Core/BatchCommandExecutor.cs:34-35 | a status count never exceeds the number of results |
| BatchExecutor.ScreenshotCount | UnityAgentSkills/Core/BatchCommandExecutor.cs:41-49 | the screenshot count never exceeds the number of commands |
| BatchExecutor.CountScreenshots | UnityAgentSkills/Core/BatchCommandExecutor.cs:42-49 | the loop counts exactly the log.screenshot commands, in any letter case |
| BatchExecutor.AppendSkipped | UnityAgentSkills/Core/BatchCommandExecutor.cs:66-86 | the batch-timeout branch appends the SKIPPED results of the current and every later command, and the counts stay those of the results |
| BatchExecutor.Execute | UnityAgentSkills/Core/BatchCommandExecutor.cs:19-187 | the executor returns the specification's batch result for the given clock readings and handler outcomes |
| BatchExecutor.RunCommands | UnityAgentSkills/Core/BatchCommandExecutor.cs:52-180 | the loop produces the specification's results, and successCount and failedCount count the success and error results |
| BatchExecutor.ResultsFromStep | UnityAgentSkills/Core/BatchCommandExecutor.cs:88-175 | a command run before the batch limit appends its own result after the earlier ones |
| BatchExecutor.OneResultPerCommand | UnityAgentSkills/Core/BatchCommandExecutor.cs:52-180 | there is one result per command, in input order, each carrying its command's id and type |
| BatchExecutor.CountsPartition | UnityAgentSkills/Core/BatchCommandExecutor.cs:110-172 | each result is a success or an error, so the two counts add up to the number of results |
| BatchExecutor.BatchTotals | UnityAgentSkills/Core/BatchCommandExecutor.cs:182-186 | a finished batch is completed, has one result per command, and successCount + failedCount == totalCommands |
| BatchExecutor.SkippedAfterBatchTimeout | UnityAgentSkills/Core/BatchCommandExecutor.cs:64-86 | once the batch clock passes its limit at some command, that command and every later one are SKIPPED |
| BatchExecutor.ExecutedBeforeTimeout | UnityAgentSkills/Core/BatchCommandExecutor.cs:88-175 | before the batch limit is reached, each command's result is what running it gives |
| PendingQueue.FileName | UnityAgentSkills/AgentCommandsPlugin.cs:260 | the file name is the longest suffix of the path holding no directory separator |
| PendingQueue.StripExtension | UnityAgentSkills/AgentCommandsPlugin.cs:260 | the id is the file name up to its last '.', or the whole name when it has none |
| PendingQueue.ItemBeforeTotal | UnityAgentSkills/AgentCommandsPlugin.cs:284-289 | the queue order (file time, then id compared ordinally) relates any two items one way or the other |
| PendingQueue.ItemBeforeTransitive | UnityAgentSkills/AgentCommandsPlugin.cs:284-289 | the queue order is transitive |
| PendingQueue.Insert | UnityAgentSkills/AgentCommandsPlugin.cs:282-290 | placing one item into the queue adds exactly that item |
| PendingQueue.SortedQueue | UnityAgentSkills/AgentCommandsPlugin.cs:282-290 | SortQueue keeps exactly the same items |
| PendingQueue.InsertSorted | UnityAgentSkills/AgentCommandsPlugin.cs:282-290 | inserting into a sorted queue gives a sorted queue |
| PendingQueue.SortedQueueSorted | UnityAgentSkills/AgentCommandsPlugin.cs:282-290 | SortQueue leaves the queue in order and a permutation of what it was |
| PendingQueue.SortedPairwise | UnityAgentSkills/AgentCommandsPlugin.cs:284-289 | in a sorted queue any earlier item sorts before any later one |
| PendingQueue.Paths | UnityAgentSkills/AgentCommandsPlugin.cs:61 | the dedup set holds the path of every queued item, compared ignoring case |
| PendingQueue.InsertPaths | UnityAgentSkills/AgentCommandsPlugin.cs:272-275 | inserting an item adds its path to the dedup keys, and keeps the paths distinct when it was new |
| PendingQueue.SortedQueuePaths | UnityAgentSkills/AgentCommandsPlugin.cs:282-290 | sorting changes neither the dedup keys nor their distinctness |
| PendingQueue.EnqueueEffect | UnityAgentSkills/AgentCommandsPlugin.cs:251-277 | a new existing file with a non-empty id joins the queue once with attempt 0 and no wait, and the queue stays sorted; a known path, an empty path, a missing file or an empty id changes nothing |
| PendingQueue.DequeueEffect | UnityAgentSkills/AgentCommandsPlugin.cs:365-379 | an item is taken exactly when nothing is processing, the queue is not empty and the head's retry time has come; it is the head and leaves the queue and the dedup set |
| PendingQueue.RescheduleEffect | UnityAgentSkills/AgentCommandsPlugin.cs:734-748 | a rescheduled item goes back to the front with one more attempt, due after its delay, and processing ends |
| PendingQueue.EnqueueEachEffect | UnityAgentSkills/AgentCommandsPlugin.cs:239-242 | a rescan keeps the invariant and never drops a queued file; every listed existing file with an id ends up queued |
| PendingQueue.EnqueueAllEffect | UnityAgentSkills/AgentCommandsPlugin.cs:234-245 | a rescan of a missing directory changes nothing; otherwise every listed file is offered and the queue is sorted afterwards |
| PendingQueue.FirstSeparator | UnityAgentSkills/AgentCommandsPlugin.cs:707 | the position found is the first ": " at or after the start given, or there is none |
| PendingQueue.SplitCode | UnityAgentSkills/AgentCommandsPlugin.cs:707-710 | without ": " the whole message is the code and the detail is empty; otherwise code + ": " + detail is the message and the code holds no ": " |
| PendingQueue.SplitCodeRoundTrip | UnityAgentSkills/AgentCommandsPlugin.cs:707-710 | a message built as code + ": " + detail, with no colon in the code, splits back into that code and detail |
| PendingQueue.OnParseFailure | UnityAgentSkills/AgentCommandsPlugin.cs:698-713 | a parse failure is retried exactly when it is an ArgumentException and attempts remain; otherwise it is archived with the message and the split code and detail |
| PendingQueue.RetriesRunOut | UnityAgentSkills/AgentCommandsPlugin.cs:725-728 | from the last attempt on every failure is archived, and an INVALID_JSON or INVALID_FIELDS message is archived under its own code |
| AgentSkillsPlugin.InitialValid | UnityAgentSkills/AgentCommandsPlugin.cs:100-110 | the plugin starts with no session, not processing, a sorted queue and a dedup set matching it |
| AgentSkillsPlugin.AfterTickValid | UnityAgentSkills/AgentCommandsPlugin.cs:327-355 | advancing the active session keeps the invariant; a finished session is dropped and processing ends |
| AgentSkillsPlugin.HandleValid | UnityAgentSkills/AgentCommandsPlugin.cs:670-718 | handling a dequeued file keeps the invariant when the report path ends processing: a retry puts it back at the front, a parsed batch starts a session |
| AgentSkillsPlugin.UpdateValid | UnityAgentSkills/AgentCommandsPlugin.cs:324-385 | every editor update keeps the invariant: the dedup set matches the queue and processing is set exactly while a valid, unfinished session is active |
| AgentSkillsPlugin.OneBatchAtATime | UnityAgentSkills/AgentCommandsPlugin.cs:327-381 | a file is taken only when no session is active, and it is the head of the rescanned queue; while a session runs the queue is not touched |
| AgentSkillsPlugin.IdleProgress | UnityAgentSkills/AgentCommandsPlugin.cs:357-384 | with no active session, an update takes a file exactly when the rescanned queue has one whose retry time has come |
| AgentSkillsPlugin.Handle | UnityAgentSkills/AgentCommandsPlugin.cs:670-718 | a dequeued file is processed: a parsed batch starts a session and reports Started with its batch id; a failure is retried exactly when it is an ArgumentException with attempts left, going back through Rescheduled; otherwise its message is archived, and the processing flag then ends as the release choice says |
| AgentSkillsPlugin.UpdateWith | UnityAgentSkills/AgentCommandsPlugin.cs:324-385 | an active session is ticked and nothing else happens; otherwise a file is handled exactly when the rescanned queue yields one, and a session begins only by a Started handling |
| AgentSkillsPlugin.Update | UnityAgentSkills/AgentCommandsPlugin.cs:324-385 | corrected: after an archived error the processing flag is clear |
| AgentSkillsPlugin.UpdateAsWritten | UnityAgentSkills/AgentCommandsPlugin.cs:324-385 | as written: the same handling and state as Update except the processing flag, which stays set after an archived error |
| AgentSkillsPlugin.ArchiveStalls | UnityAgentSkills/AgentCommandsPlugin.cs:707-713 | as written, a reported parse failure leaves the processing flag set with no session, so the plugin is stalled |
| AgentSkillsPlugin.StalledForever | UnityAgentSkills/AgentCommandsPlugin.cs:365 | as written, a stalled plugin takes no file on any later update |
| AgentSkillsPlugin.ExhaustedRetryStalls | UnityAgentSkills/AgentCommandsPlugin.cs:725-728 | a file that still fails after its retries is reported, and as written the plugin then never takes another file |
| AgentSkillsPlugin.Plugin.constructor | UnityAgentSkills/AgentCommandsPlugin.cs:100-110 | the plugin's state is the one a first scan of the pending directory gives |
| AgentSkillsPlugin.Plugin.SortQueue | UnityAgentSkills/AgentCommandsPlugin.cs:282-290 | the queue is replaced by its sorted order and nothing else changes |
| AgentSkillsPlugin.Plugin.TryEnqueuePendingFile | UnityAgentSkills/AgentCommandsPlugin.cs:251-277 | the queue is updated as Enqueue specifies and nothing else changes |
| AgentSkillsPlugin.Plugin.EnqueueAllPendingFiles | UnityAgentSkills/AgentCommandsPlugin.cs:234-245 | every listed file is offered and the queue sorted, as EnqueueAll specifies |
| AgentSkillsPlugin.Plugin.OnEditorUpdate | UnityAgentSkills/AgentCommandsPlugin.cs:324-385 | one editor update moves the plugin to the state, and reports the handling, that Update specifies; corrected: the error-report path ends processing |
| AgentSkillsPlugin.Plugin.TickActive | UnityAgentSkills/AgentCommandsPlugin.cs:327-354 | the session branch advances the session one tick as AfterTick specifies |
| AgentSkillsPlugin.Plugin.RescanIfDue | UnityAgentSkills/AgentCommandsPlugin.cs:358-363 | the rescan runs when its time has come and sets the next rescan time, as Rescan specifies |
| AgentSkillsPlugin.Plugin.TakeHead | UnityAgentSkills/AgentCommandsPlugin.cs:367-379 | the head is taken when its retry time has come, as Dequeue specifies |
| AgentSkillsPlugin.Plugin.Reschedule | UnityAgentSkills/AgentCommandsPlugin.cs:734-748 | the item goes back to the front due after its next delay, as Rescheduled specifies |
| AgentSkillsPlugin.Plugin.ProcessPendingFile | UnityAgentSkills/AgentCommandsPlugin.cs:670-718 | a parse failure is retried or reported and a parsed batch starts a session, as Handle specifies; corrected: the report path ends processing |
| BatchSession.SkipSlot | UnityAgentSkills/AgentCommandsPlugin.cs:597-608 | a SKIPPED slot keeps its id and type, has the error status, the SKIPPED error and no result payload |
| BatchSession.MarkSkipped | UnityAgentSkills/AgentCommandsPlugin.cs:595-609 | marking keeps the number of slots; placeholders in the range become SKIPPED and every other slot is kept |
| BatchSession.MapException | UnityAgentSkills/AgentCommandsPlugin.cs:549-569 | a command over its timeout is a TIMEOUT error; otherwise NotSupportedException is UNKNOWN_TYPE with its message, an ArgumentException whose message starts with INVALID_FIELDS is INVALID_FIELDS with the rest of the message trimmed, any other ArgumentException and every other exception is RUNTIME_ERROR with the detail prefix before the message |
| BatchSession.InvalidFieldsMapped | UnityAgentSkills/AgentCommandsPlugin.cs:557-560 | an "INVALID_FIELDS: detail" ArgumentException within its timeout becomes an INVALID_FIELDS error carrying the trimmed detail |
| BatchSession.StartValid | UnityAgentSkills/AgentCommandsPlugin.cs:409-446 | a new session is valid, has run nothing, and holds one placeholder per command with the command's id and type |
| BatchSession.CountStatusUpdate | UnityAgentSkills/AgentCommandsPlugin.cs:476-479 | replacing one slot changes each status count by what left and what came in |
| BatchSession.CompleteValid | UnityAgentSkills/AgentCommandsPlugin.cs:576-578 | filling the current slot with a finished result keeps the invariant |
| BatchSession.SkippedKeepsSuccesses | UnityAgentSkills/AgentCommandsPlugin.cs:595-609 | the SKIPPED marking leaves the number of successes alone |
| BatchSession.SkippedCountsFailures | UnityAgentSkills/AgentCommandsPlugin.cs:595-609 | marking a tail of placeholders SKIPPED adds one failure per slot marked |
| BatchSession.FinishAsTimeoutValid | UnityAgentSkills/AgentCommandsPlugin.cs:589-615 | a batch timeout ends the session with every unfinished command SKIPPED |
| BatchSession.FinishAsTimeoutCounts | UnityAgentSkills/AgentCommandsPlugin.cs:589-615 | after a timeout the counters still count the successes and failures among the results |
| BatchSession.TimeoutSkipsRest | UnityAgentSkills/AgentCommandsPlugin.cs:455-459 | the batch timeout is checked first and ends the session whatever command was running |
| BatchSession.TickValid | UnityAgentSkills/AgentCommandsPlugin.cs:448-579 | every Tick keeps the invariant, moves the command index by at most one and leaves finished slots alone |
| BatchSession.SettleValid | UnityAgentSkills/AgentCommandsPlugin.cs:531-578 | recording any outcome of the current command keeps the invariant and moves the index by at most one |
| BatchSession.DoneHasNoPlaceholders | UnityAgentSkills/AgentCommandsPlugin.cs:581-587 | a finished session has no placeholder left, and successCount + failedCount is the command count |
| BatchSession.ScreenshotWaitCapped | UnityAgentSkills/AgentCommandsPlugin.cs:524 | a screenshot command waits at most the screenshot limit, whatever its own timeout |
| BatchSession.SkipRemaining | UnityAgentSkills/AgentCommandsPlugin.cs:595-609 | the loop marks exactly the placeholders from the current command on and counts them |
| BatchSession.Session.constructor | UnityAgentSkills/AgentCommandsPlugin.cs:409-446 | a new session is in the state Start gives: the batch timeout defaults to the configured one and every result is a placeholder |
| BatchSession.Session.FinishBatchAsTimeout | UnityAgentSkills/AgentCommandsPlugin.cs:589-615 | the session moves to the state FinishAsTimeout specifies |
| BatchSession.Session.Tick | UnityAgentSkills/AgentCommandsPlugin.cs:448-579 | one Tick moves the session to the state Step specifies |
| BatchSession.Session.PollOnce | UnityAgentSkills/AgentCommandsPlugin.cs:471-500 | the screenshot wait succeeds when the file is readable and times out once the capped limit passes, as PollScreenshot specifies |
| BatchSession.Session.Record | UnityAgentSkills/AgentCommandsPlugin.cs:531-578 | the rest of the Tick records the outcome as Settle specifies |
| AgentCommandsPlugin.InitialValid | UnitySkills/AgentCommands/AgentCommandsPlugin.cs:88-108 | the plugin starts idle, with its dedup set matching a sorted queue |
| AgentCommandsPlugin.UpdateKeepsIdle | UnitySkills/AgentCommands/AgentCommandsPlugin.cs:318-367 | every update keeps the queue invariant and ends idle, because processing is released in a finally block; a taken file is the head of the rescanned queue |
| AgentCommandsPlugin.Progress | UnitySkills/AgentCommands/AgentCommandsPlugin.cs:318-346 | an update takes a file exactly when the rescanned queue has one whose retry time has come |
| AgentCommandsPlugin.ExecutedBatchComplete | UnitySkills/AgentCommands/AgentCommandsPlugin.cs:439-450 | an executed batch reports a completed result with one result per command, each a success or an error, and counts that add up |
| AgentCommandsPlugin.Handle | UnitySkills/AgentCommands/AgentCommandsPlugin.cs:353-400 | processing always ends; a parsed batch is executed; a failure is retried exactly when it is an ArgumentException with attempts left, and otherwise its message is archived with the queue unchanged |
| AgentCommandsPlugin.Update | UnitySkills/AgentCommands/AgentCommandsPlugin.cs:318-347 | a file is handled exactly when the rescanned queue yields one, and processing has ended afterwards; otherwise the state is the rescanned one |
| AgentCommandsPlugin.Plugin.constructor | UnitySkills/AgentCommands/AgentCommandsPlugin.cs:88-108 | the plugin's state is the one a first scan of the pending directory gives |
| AgentCommandsPlugin.Plugin.SortQueue | UnitySkills/AgentCommands/AgentCommandsPlugin.cs:281-289 | the queue is replaced by its sorted order and nothing else changes |
| AgentCommandsPlugin.Plugin.TryEnqueuePendingFile | UnitySkills/AgentCommands/AgentCommandsPlugin.cs:250-276 | the queue is updated as Enqueue specifies and nothing else changes |
| AgentCommandsPlugin.Plugin.EnqueueAllPendingFiles | UnitySkills/AgentCommands/AgentCommandsPlugin.cs:233-244 | every listed file is offered and the queue sorted, as EnqueueAll specifies |
| AgentCommandsPlugin.Plugin.OnEditorUpdate | UnitySkills/AgentCommands/AgentCommandsPlugin.cs:318-347 | one editor update moves the plugin to the state, and reports the handling, that Update specifies |
| AgentCommandsPlugin.Plugin.Reschedule | UnitySkills/AgentCommands/AgentCommandsPlugin.cs:416-430 | the item goes back to the front due after its next delay, as Rescheduled specifies |
| AgentCommandsPlugin.Plugin.ProcessPendingFile | UnitySkills/AgentCommands/AgentCommandsPlugin.cs:353-400 | the file is retried, reported or executed, and processing ends, as Handle specifies |
| ResultWriter.ToText | UnityAgentSkills/Core/BatchResultWriter.cs:162 | ToString of a null node throws; of a string value it is its own text |
| ResultWriter.FinalFiles | UnityAgentSkills/Core/BatchResultWriter.cs:143-174 | the finals are exactly the listed files that are final results (status success, error or completed, not processing, and not a null status, whose ToString throws into the catch), in listing order |
| ResultWriter.NullStatusNotFinal | UnityAgentSkills/Core/BatchResultWriter.cs:162-173 | a result file whose status is null is skipped by the catch and never counts as final |
| ResultWriter.FileBeforeTotal | UnityAgentSkills/Core/BatchResultWriter.cs:178-185 | the retention order (write time, then file name compared ordinally) relates any two files one way or the other |
| ResultWriter.FileBeforeTransitive | UnityAgentSkills/Core/BatchResultWriter.cs:178-185 | the retention order is transitive |
| ResultWriter.InsertFile | UnityAgentSkills/Core/BatchResultWriter.cs:178-185 | placing one file into the list adds exactly that file |
| ResultWriter.SortFiles | UnityAgentSkills/Core/BatchResultWriter.cs:178-185 | the Sort keeps exactly the same files |
| ResultWriter.SortFilesSorted | UnityAgentSkills/Core/BatchResultWriter.cs:178-185 | the finals after Sort are in retention order |
| ResultWriter.WithSeparator | UnityAgentSkills/Core/BatchResultWriter.cs:322-326 | the directory compared against is the directory itself followed by a separator, one appended only when it does not already end in one |
| ResultWriter.EmptyNotUnder | UnityAgentSkills/Core/BatchResultWriter.cs:320 | an empty path or directory is never under anything |
| ResultWriter.ChildIsUnder | UnityAgentSkills/Core/BatchResultWriter.cs:318-329 | a name joined onto the directory is under it, whatever the letter case of either |
| ResultWriter.ScreenshotTarget | UnityAgentSkills/Core/BatchResultWriter.cs:277-297 | a screenshot is deleted only when its path is not empty and its full path lies inside the full results root |
| ResultWriter.ScreenshotTargets | UnityAgentSkills/Core/BatchResultWriter.cs:257-274 | at most one deletion per entry of the results array, in order, stopping at the first entry that throws |
| ResultWriter.ScreenshotImage | UnityAgentSkills/Core/BatchResultWriter.cs:259-272 | an entry yields an image path only from an object with an object "result"; a null "type" throws |
| ResultWriter.ScreenshotScan | UnityAgentSkills/Core/BatchResultWriter.cs:257-274 | the scan makes at most one deletion per entry |
| ResultWriter.ScreenshotTargetsInRoot | UnityAgentSkills/Core/BatchResultWriter.cs:257-297 | every deletion of the scan lies inside the results root |
| ResultWriter.ScreenshotTargetsStep | UnityAgentSkills/Core/BatchResultWriter.cs:257-274 | one more entry advances the scan by that entry alone |
| ResultWriter.ThrowStopsScan | UnityAgentSkills/Core/BatchResultWriter.cs:262-272 | an entry whose ToString throws ends the scan: the entries after it delete nothing |
| ResultWriter.NullTypeFirstDeletesNothing | UnityAgentSkills/Core/BatchResultWriter.cs:262 | a results array whose first entry has a null type deletes nothing, even when a successful screenshot follows |
| ResultWriter.ScreenshotArtifacts | UnityAgentSkills/Core/BatchResultWriter.cs:227-275 | every screenshot a results file leads to deleting lies inside the results root; the scan of its results array stops at the first entry that throws |
| ResultWriter.DeletionOf | UnityAgentSkills/Core/BatchResultWriter.cs:188-221 | one deletion removes the old result's own file |
| ResultWriter.DeletionOfSafe | UnityAgentSkills/Core/BatchResultWriter.cs:190-220 | a deletion's screenshots lie inside the results root, and only the UnityAgentSkills copy deletes any |
| ResultWriter.Deletions | UnityAgentSkills/Core/BatchResultWriter.cs:187-221 | one deletion per old result, each removing that result, in order |
| ResultWriter.DeletionsSafe | UnityAgentSkills/Core/BatchResultWriter.cs:187-221 | every deletion of the retention pass is safe |
| ResultWriter.SortedFinals | UnityAgentSkills/Core/BatchResultWriter.cs:176-185 | the sorted finals are the final results, a permutation of them, oldest first |
| ResultWriter.RetentionDeletesOldest | UnityAgentSkills/Core/BatchResultWriter.cs:139-222 | retention deletes nothing up to MaxResults final results; beyond that it deletes exactly the excess, each older than every result it keeps |
| ResultWriter.ScreenshotsStayInResults | UnityAgentSkills/Core/BatchResultWriter.cs:277-297 | the UnityAgentSkills copy deletes screenshots only inside the results root; the other copy deletes none |
| ResultWriter.CollectFinals | UnityAgentSkills/Core/BatchResultWriter.cs:146-174 | the loop collects exactly the final results of the listing, skipping a file whose status is null |
| ResultWriter.CleanupScreenshotArtifacts | UnityAgentSkills/Core/BatchResultWriter.cs:227-275 | the loop over the results array deletes exactly the screenshots the scan lists, and stops at the first entry that throws |
| ResultWriter.CleanupOldResults | UnityAgentSkills/Core/BatchResultWriter.cs:139-222 | the retention pass performs exactly the deletions Retention specifies |
| ResultWriter.DeleteOldest | UnityAgentSkills/Core/BatchResultWriter.cs:187-221 | the loop deletes exactly the oldest toDelete results, each with its archive and screenshots |
| ResultWriter.DeleteResult | UnityAgentSkills/Core/BatchResultWriter.cs:190-220 | one old result is deleted with its screenshots, its file and its archived batch, as DeletionOf specifies |
| ResultWriter.ArchiveTarget | UnityAgentSkills/Core/BatchResultWriter.cs:126-134 | a pending file is moved exactly when it exists, to the done directory under its own file name |
| ResultWriter.WriteErrorAndArchive | UnityAgentSkills/Core/BatchResultWriter.cs:44-78 | the error result has error status, an empty result list, zero counts, the given error and the batch id or ""; the pending file is archived exactly when a non-empty path is given and the file exists |
| ResultWriter.UnreadableBatchesShareResultFile | UnityAgentSkills/Core/BatchResultWriter.cs:86 | a batch reported with no batch id is written to the results file ".json", the same whatever the pending file was |
| ResultWriter.SiblingNotUnder | UnityAgentSkills/Core/BatchResultWriter.cs:318-329 | the directory itself, and a sibling whose name extends the directory's without a separator, are not under it |
| AutoCompile.GetFullPath | UnityAgentSkills/Core/PathUtils.cs:16-23 | a null or blank path resolves as "Assets"; any other path resolves as itself |
| AutoCompile.ValidPathCount | UnityAgentSkills/AutoCompile/Configuration/AutoCompileConfigProvider.cs:98-111 | the count of watchable paths never exceeds the number of paths |
| AutoCompile.ValidPathCountZero | UnityAgentSkills/AutoCompile/Configuration/AutoCompileConfigProvider.cs:98-117 | the count is zero exactly when no path is non-blank with an existing directory |
| AutoCompile.ValidationMeansValid | UnityAgentSkills/AutoCompile/Configuration/AutoCompileConfigProvider.cs:73-120 | validation accepts exactly the configurations that are present, have a debounce of 200 to 5000 ms, a non-empty path list and at least one existing directory; a null one is rejected first |
| AutoCompile.ErrorMessage | UnityAgentSkills/AutoCompile/Configuration/AutoCompileConfigProvider.cs:79-115 | every rejection reports a non-empty message |
| AutoCompile.ValidateConfig | UnityAgentSkills/AutoCompile/Configuration/AutoCompileConfigProvider.cs:73-120 | the method returns true exactly when the configuration is valid, with an empty message then and the rejection's message otherwise |
| AutoCompile.MessageEmptyIffValid | UnityAgentSkills/AutoCompile/Configuration/AutoCompileConfigProvider.cs:75-119 | the message is empty exactly when the configuration is valid |
| AutoCompile.LoadConfig | UnityAgentSkills/AutoCompile/Configuration/AutoCompileConfigProvider.cs:28-48 | no stored text, or text that cannot be read, gives the default configuration; otherwise the stored configuration |
| AutoCompile.DefaultConfigValid | UnityAgentSkills/AutoCompile/Configuration/AutoCompileConfig.cs:16-26 | the default configuration (disabled, 500 ms, watching "Assets") is valid exactly when the project's Assets directory exists |
| AutoCompile.StartedServices | UnityAgentSkills/AutoCompile/Core/AutoCompileController.cs:113-125 | one watching service per watch path whose directory exists, and no more services than paths |
| AutoCompile.WithRaising | UnityAgentSkills/AutoCompile/Core/AutoCompileController.cs:255-270 | switching the watchers on or off changes only whether each raises events |
| AutoCompile.InitialInv | UnityAgentSkills/AutoCompile/Core/AutoCompileController.cs:31-42 | the controller starts Stopped with no services, and its invariant holds |
| AutoCompile.WithStatusEvents | UnityAgentSkills/AutoCompile/Core/AutoCompileController.cs:276-282 | SetStatus announces exactly the changes of status, once each |
| AutoCompile.StartServiceIdempotent | UnityAgentSkills/AutoCompile/Core/AutoCompileController.cs:95-97 | StartService a second time changes nothing |
| AutoCompile.StartServiceRunningIff | UnityAgentSkills/AutoCompile/Core/AutoCompileController.cs:95-136 | from no services under a valid configuration, StartService creates one watching service per existing watch directory, and the status is Running exactly when there is one |
| AutoCompile.StopServiceStops | UnityAgentSkills/AutoCompile/Core/AutoCompileController.cs:141-152 | StopService leaves no services, and announces Stopped only if there were some |
| AutoCompile.InvalidConfigIgnored | UnityAgentSkills/AutoCompile/Core/AutoCompileController.cs:158-171 | a null or invalid new configuration changes nothing |
| AutoCompile.UpdateWhileCompilingKeepsOldWatchers | UnityAgentSkills/AutoCompile/Core/AutoCompileController.cs:173-187 | as written, a new configuration that arrives while compiling keeps the old watchers, because StartService returns when services exist |
| AutoCompile.UpdateConfigRewatches | UnityAgentSkills/AutoCompile/Core/AutoCompileController.cs:158-193 | corrected, a valid enabled configuration replaces the watchers of a live or stopped controller with exactly those of its own watch paths |
| AutoCompile.ValidConfigAdopted | UnityAgentSkills/AutoCompile/Core/AutoCompileController.cs:158-193 | corrected: a valid new configuration is adopted, and the controller ends Running or Stopped |
| AutoCompile.UpdateConfigWith | UnityAgentSkills/AutoCompile/Core/AutoCompileController.cs:158-193 | an absent or invalid configuration changes nothing; a valid one is adopted, a disabled one leaves the controller Stopped, the old watchers are dropped when the controller was stopped first and kept otherwise |
| AutoCompile.UpdateConfigAsWritten | UnityAgentSkills/AutoCompile/Core/AutoCompileController.cs:158-193 | as written: the same as the corrected update on any controller that is not Compiling; a compiling controller keeps its old watchers |
| AutoCompile.UpdateConfigOf | UnityAgentSkills/AutoCompile/Core/AutoCompileController.cs:158-193 | corrected: an absent or invalid configuration changes nothing; a valid one is adopted, and a disabled one stops a Running, Pending or Compiling controller with no watchers left |
| AutoCompile.ChangesStartDebounce | UnityAgentSkills/AutoCompile/Core/AutoCompileController.cs:217-228 | pending changes are drained, the status becomes Pending, and the debounce ends the configured interval from now, with no refresh |
| AutoCompile.DebounceElapsed | UnityAgentSkills/AutoCompile/Core/AutoCompileController.cs:230-243 | once the debounce runs out the controller returns to Running; if the editor has no focus it refreshes the assets once and goes to Compiling |
| AutoCompile.NoRefreshBeforeDebounce | UnityAgentSkills/AutoCompile/Core/AutoCompileController.cs:195-244 | before the debounce runs out, with no new change, an update refreshes nothing, and outside compilation changes nothing at all |
| AutoCompile.PlayModePausesAndResumes | UnityAgentSkills/AutoCompile/Core/AutoCompileController.cs:246-274 | leaving edit mode pauses a live controller and switches every watcher off; entering edit mode resumes a paused one and switches them on again |
| AutoCompile.PausedIsQuiet | UnityAgentSkills/AutoCompile/Core/AutoCompileController.cs:197-199 | a paused controller's watchers raise no events and its updates do nothing |
| AutoCompile.OperationsKeepInv | UnityAgentSkills/AutoCompile/Core/AutoCompileController.cs:48-274 | Initialize, Shutdown, OnUpdate and the play-mode handler keep the invariant tying the status to the services |
| AutoCompile.Controller.constructor | UnityAgentSkills/AutoCompile/Core/AutoCompileController.cs:31-42 | the controller starts in the initial state |
| AutoCompile.Controller.SetStatus | UnityAgentSkills/AutoCompile/Core/AutoCompileController.cs:276-282 | the status and the announcements change as WithStatus specifies |
| AutoCompile.Controller.Initialize | UnityAgentSkills/AutoCompile/Core/AutoCompileController.cs:48-75 | the controller moves to the state InitializeOf specifies |
| AutoCompile.Controller.Shutdown | UnityAgentSkills/AutoCompile/Core/AutoCompileController.cs:80-90 | the controller moves to the state ShutdownOf specifies |
| AutoCompile.Controller.StartService | UnityAgentSkills/AutoCompile/Core/AutoCompileController.cs:95-136 | the loop over the watch paths moves the controller to the state StartServiceOf specifies |
| AutoCompile.Controller.StopService | UnityAgentSkills/AutoCompile/Core/AutoCompileController.cs:141-152 | the controller moves to the state StopServiceOf specifies |
| AutoCompile.Controller.UpdateConfig | UnityAgentSkills/AutoCompile/Core/AutoCompileController.cs:158-193 | the corrected update moves the controller to the state UpdateConfigOf specifies |
| AutoCompile.Controller.OnUpdate | UnityAgentSkills/AutoCompile/Core/AutoCompileController.cs:195-244 | one update moves the controller to the state OnUpdateOf specifies |
| AutoCompile.Controller.DrainChangedFiles | UnityAgentSkills/AutoCompile/Core/AutoCompileController.cs:218-228 | the queue drain moves the controller to the state DrainChanges specifies |
| AutoCompile.Controller.EndDebounceIfDue | UnityAgentSkills/AutoCompile/Core/AutoCompileController.cs:231-243 | the end of the debounce moves the controller to the state EndDebounce specifies |
| AutoCompile.Controller.SetRaising | UnityAgentSkills/AutoCompile/Core/AutoCompileController.cs:255-270 | every watcher is switched on or off and nothing else changes |
| AutoCompile.Controller.OnPlayModeStateChanged | UnityAgentSkills/AutoCompile/Core/AutoCompileController.cs:246-274 | a play-mode change moves the controller to the state PlayModeOf specifies |
| AutoCompile.Controller.FileChanged | UnityAgentSkills/AutoCompile/Core/FileMonitorService.cs:58-71 | a change reported by a service is queued only while that service raises events |
| PathFinder.CountNamed | UnityAgentSkills/Utils/GameObjectPathFinder.cs:49-66 | the number of same-named children never exceeds the number of children |
| PathFinder.MatchFrom | UnityAgentSkills/Utils/GameObjectPathFinder.cs:51-75 | a child the inner loop picks lies in the range searched and has the segment's name |
| PathFinder.FirstNamed | UnitySkills/AgentCommands/Utils/GameObjectPathFinder.cs:48-56 | a child the inner loop picks lies in the range searched and has the segment's name |
| PathFinder.MatchFromMeaning | UnityAgentSkills/Utils/GameObjectPathFinder.cs:51-75 | the last-segment loop stops at a child exactly when it has the segment's name and exactly siblingIndex same-named children come before it |
| PathFinder.FirstNamedIsMatchZero | UnitySkills/AgentCommands/Utils/GameObjectPathFinder.cs:48-56 | the UnitySkills loop picks the same child as the other copy's loop with sibling index 0 |
| PathFinder.DescendMeaning | UnityAgentSkills/Utils/GameObjectPathFinder.cs:45-83 | the remaining segments lead to a location exactly when they are the names on the way there and every step is the child the loop picks |
| PathFinder.FindMeaning | UnityAgentSkills/Utils/GameObjectPathFinder.cs:18-84 | an object below the root is found exactly when the path is not the root's own name, starts with the root's name, and the remaining segments lead to it |
| PathFinder.FindEdgeCases | UnityAgentSkills/Utils/GameObjectPathFinder.cs:20-42 | a null root or an empty path finds nothing; the root's own name finds the root whatever the sibling index; a first segment other than the root's name finds nothing |
| PathFinder.FindValid | UnityAgentSkills/Utils/GameObjectPathFinder.cs:18-84 | what is found is an object of the tree |
| PathFinder.FindFirstAgrees | UnitySkills/AgentCommands/Utils/GameObjectPathFinder.cs:17-64 | the UnitySkills copy finds exactly what the UnityAgentSkills copy finds with sibling index 0 |
| PathFinder.SplitJoin | UnityAgentSkills/Utils/GameObjectPathFinder.cs:32 | splitting a '/'-joined list of names that contain no '/' gives the names back |
| PathFinder.ChildPath | UnityAgentSkills/Utils/GameObjectPathFinder.cs:98-104 | a child's path is its parent's path, '/', and its own name |
| PathFinder.FindPathOf | UnityAgentSkills/Utils/GameObjectPathFinder.cs:18-107 | GetPath and FindByPath round-trip: when no name on the way contains '/', every step above the object is the first child with its name, and the sibling index is the object's rank among its same-named siblings, finding its path from the top object gives the object back |
| PathFinder.FindFirstPathOf | UnitySkills/AgentCommands/Utils/GameObjectPathFinder.cs:17-87 | the same round trip for the UnitySkills copy |
| PathFinder.FindChild | UnityAgentSkills/Utils/GameObjectPathFinder.cs:47-80 | the inner loop picks exactly the child the specification's step picks |
| PathFinder.FindByPath | UnityAgentSkills/Utils/GameObjectPathFinder.cs:18-84 | the method returns what Find specifies, always an object of the tree |
| PathFinder.FindFirstChild | UnitySkills/AgentCommands/Utils/GameObjectPathFinder.cs:47-60 | the inner loop picks the first child with the segment's name |
| PathFinder.FindByPathFirst | UnitySkills/AgentCommands/Utils/GameObjectPathFinder.cs:17-64 | the method returns what FindFirst specifies, always an object of the tree |
| PathFinder.GetPath | UnityAgentSkills/Utils/GameObjectPathFinder.cs:91-107 | "" for a null object; otherwise the names from the top of the scene down to the object, joined with '/' |
| Hierarchy.NodeOf | UnitySkills/AgentCommands/Utils/HierarchyTraverser.cs:85-92 | a node carries its object's name, instance id and active flag, and the path, depth and children given |
| Hierarchy.Preorder | UnitySkills/AgentCommands/Utils/HierarchyTraverser.cs:116-123 | the flattened list of a node starts with the node itself |
| Hierarchy.TraverseShape | UnitySkills/AgentCommands/Utils/HierarchyTraverser.cs:37-99 | a traversal from a present root starts at depth 0 with the root's name and path; every child node is one level deeper than its parent, has its object's GetPath, is within the depth limit and, unless inactive objects are included, active; a filtered-out inactive root has no children |
| Hierarchy.PreorderSize | UnitySkills/AgentCommands/Utils/HierarchyTraverser.cs:116-123 | the flattened list has one entry per node of the tree |
| Hierarchy.FlattenedTraversal | UnitySkills/AgentCommands/Utils/HierarchyTraverser.cs:104-123 | Flatten of a traversal lists the root node first at depth 0, then every other node, each deeper, within the depth limit and active unless inactive objects are included |
| Hierarchy.FullTraversalCount | UnitySkills/AgentCommands/Utils/HierarchyTraverser.cs:37-99 | with inactive objects included and no depth limit the traversal has one node per game object below the root |
| Hierarchy.Traverse | UnitySkills/AgentCommands/Utils/HierarchyTraverser.cs:37-63 | the method builds the tree TraverseOf specifies |
| Hierarchy.TraverseChildren | UnitySkills/AgentCommands/Utils/HierarchyTraverser.cs:68-99 | each child that passes the filter gets a node with its GetPath, then its own children unless the depth limit is reached, as ChildNodes specifies |
| Hierarchy.Flatten | UnitySkills/AgentCommands/Utils/HierarchyTraverser.cs:104-114 | the method returns the pre-order list Flattened specifies, empty for a null root |
| Hierarchy.FlattenRecursive | UnitySkills/AgentCommands/Utils/HierarchyTraverser.cs:116-123 | the node and then each child's subtree are appended to the list, in pre-order |
| Scene.Count | UnityAgentSkills/Plugins/Prefab/Handlers/PrefabDeleteGameObjectHandler.cs:103-118 | a tree holds at least its own root |
| GameObjectProperties.ModifyMeaning | UnitySkills/AgentCommands/Utils/GameObjectPropertyModifier.cs:125-243 | a single property update succeeds exactly for a value of the accepted kind; it then sets that property to the value's new value and leaves the other five alone |
| GameObjectProperties.LayerOutOfRangeRejected | UnitySkills/AgentCommands/Utils/GameObjectPropertyModifier.cs:183-187 | a layer outside 0..31 is refused, whether given as an int or through a layer name |
| GameObjectProperties.ModifyEachSucceedsIff | UnitySkills/AgentCommands/Utils/GameObjectPropertyModifier.cs:63-113 | the loop over the keys completes exactly when every key is one of the six with an accepted value; otherwise it throws an ArgumentException |
| GameObjectProperties.ModifyEachChanges | UnitySkills/AgentCommands/Utils/GameObjectPropertyModifier.cs:98-107 | when every key is accepted the loop records the expected changes, in key order |
| GameObjectProperties.ModifyEachValues | UnitySkills/AgentCommands/Utils/GameObjectPropertyModifier.cs:63-113 | when every key is accepted and listed once, each property ends with the new value of its key, or keeps its value when not listed |
| GameObjectProperties.ModifyEachStops | UnitySkills/AgentCommands/Utils/GameObjectPropertyModifier.cs:65-68 | once a key throws, the later keys are never visited |
| GameObjectProperties.EmptyPropertiesRejected | UnitySkills/AgentCommands/Utils/GameObjectPropertyModifier.cs:51-54 | a null, non-object or empty properties value throws an ArgumentException and changes nothing |
| GameObjectProperties.ModifyPropertiesSucceedsIff | UnitySkills/AgentCommands/Utils/GameObjectPropertyModifier.cs:41-120 | the call returns exactly when the properties object is non-empty and every key is one of the six with an accepted value; otherwise it throws an ArgumentException |
| GameObjectProperties.ModifyPropertiesEffect | UnitySkills/AgentCommands/Utils/GameObjectPropertyModifier.cs:41-120 | a successful call sets each listed property to its new value, leaves the others, and returns the six final values |
| GameObjectProperties.ModifyPropertiesChanges | UnitySkills/AgentCommands/Utils/GameObjectPropertyModifier.cs:56-107 | the change list holds exactly the listed properties whose value changed, each with its value before and after |
| GameObjectProperties.Target.constructor | UnitySkills/AgentCommands/Utils/GameObjectPropertyModifier.cs:248-259 | the target holds the six property values given |
| GameObjectProperties.Target.ModifyName | UnitySkills/AgentCommands/Utils/GameObjectPropertyModifier.cs:125-134 | a string sets the name and is returned; any other value throws and changes nothing |
| GameObjectProperties.Target.ModifyTag | UnitySkills/AgentCommands/Utils/GameObjectPropertyModifier.cs:139-151 | a string sets the tag as the specification's Modify says; any other value throws and changes nothing |
| GameObjectProperties.Target.ModifyLayer | UnitySkills/AgentCommands/Utils/GameObjectPropertyModifier.cs:156-191 | an int or a known layer name within 0..31 sets the layer as Modify says; anything else throws and changes nothing |
| GameObjectProperties.Target.ModifyIsActive | UnitySkills/AgentCommands/Utils/GameObjectPropertyModifier.cs:196-205 | a boolean sets the active flag and is returned; any other value throws and changes nothing |
| GameObjectProperties.Target.ModifyIsStatic | UnitySkills/AgentCommands/Utils/GameObjectPropertyModifier.cs:210-219 | a boolean sets the static flag and is returned; any other value throws and changes nothing |
| GameObjectProperties.Target.ModifyHideFlags | UnitySkills/AgentCommands/Utils/GameObjectPropertyModifier.cs:224-243 | an int sets the hide flags and is returned; null and any other value throw their own messages and change nothing |
| GameObjectProperties.Target.ModifyProperty | UnitySkills/AgentCommands/Utils/GameObjectPropertyModifier.cs:76-96 | the switch runs the update for the key, as Modify specifies |
| GameObjectProperties.ModifyProperties | UnitySkills/AgentCommands/Utils/GameObjectPropertyModifier.cs:41-120 | a null target throws ArgumentNullException; otherwise the target and the result are those ModifyPropertiesOf specifies, with the target partly modified when a later key throws |
| K3Modifier.StatusName | UnityAgentSkills/Plugins/K3Prefab/Utils/K3ComponentPropertyModifier.cs:28 | a result's status is one of "success", "skipped" and "failed" |
| K3Modifier.Text | UnityAgentSkills/Plugins/K3Prefab/Utils/K3ComponentPropertyModifier.cs:176 | a null value writes as "" and a string as itself |
| K3Modifier.GetKnownNames | UnityAgentSkills/Plugins/K3Prefab/Utils/K3ComponentPropertyModifier.cs:105-160 | only the ten known names can be read; alpha, atlasName, picName, x and y always, and ID exactly while it is readable |
| K3Modifier.SetFrame | UnityAgentSkills/Plugins/K3Prefab/Utils/K3ComponentPropertyModifier.cs:165-231 | a write touches no property but its own and never ID, only writable names can be written, and a failed write changes nothing |
| K3Modifier.IdNotWritable | UnityAgentSkills/Plugins/K3Prefab/Utils/K3ComponentPropertyModifier.cs:169-225 | ID is never written |
| K3Modifier.SetThenGet | UnityAgentSkills/Plugins/K3Prefab/Utils/K3ComponentPropertyModifier.cs:165-231 | after a write, reading the property gives the value written, as the property's type holds it |
| K3Modifier.CompareReflexive | UnityAgentSkills/Plugins/K3Prefab/Utils/K3ComponentPropertyModifier.cs:236-261 | every value matches itself, null included |
| K3Modifier.CompareSymmetric | UnityAgentSkills/Plugins/K3Prefab/Utils/K3ComponentPropertyModifier.cs:236-261 | matching does not depend on the order of the two values |
| K3Modifier.CompareNull | UnityAgentSkills/Plugins/K3Prefab/Utils/K3ComponentPropertyModifier.cs:238-239 | null matches null only |
| K3Modifier.CompareAcrossTypes | UnityAgentSkills/Plugins/K3Prefab/Utils/K3ComponentPropertyModifier.cs:247-253 | numbers of different types match by value: an int matches the uint an ID reads as, a double matches a float holding the same real value, and a different number does not match |
| K3Modifier.ModifyOneMeaning | UnityAgentSkills/Plugins/K3Prefab/Utils/K3ComponentPropertyModifier.cs:53-96 | the optimistic lock: a modification succeeds exactly when the property is readable, its value matches the expected one and the write happens; it is skipped exactly when the value read does not match; anything but success changes nothing |
| K3Modifier.UnknownPropertyFails | UnityAgentSkills/Plugins/K3Prefab/Utils/K3ComponentPropertyModifier.cs:90-94 | a property no component has fails with the read's message wrapped in the error message, and changes nothing |
| K3Modifier.RewriteSameText | UnityAgentSkills/Plugins/K3Prefab/Utils/K3ComponentPropertyModifier.cs:175-181 | writing back the text just read, expecting it, succeeds and changes nothing |
| K3Modifier.ModifyAllShape | UnityAgentSkills/Plugins/K3Prefab/Utils/K3ComponentPropertyModifier.cs:51-97 | one result per modification, in order, naming its property and carrying its old and new values |
| K3Modifier.NoSuccessNoChange | UnityAgentSkills/Plugins/K3Prefab/Utils/K3ComponentPropertyModifier.cs:51-97 | a batch in which nothing succeeded leaves the component as it was |
| K3Modifier.K3Component.constructor | UnityAgentSkills/Plugins/K3Prefab/Utils/K3ComponentPropertyModifier.cs:38-49 | the component holds the fields given |
| K3Modifier.K3Component.SetPropertyValue | UnityAgentSkills/Plugins/K3Prefab/Utils/K3ComponentPropertyModifier.cs:165-231 | one write goes through the property's conversion and reports false when it cannot, as Set specifies |
| K3Modifier.ModifyProperties | UnityAgentSkills/Plugins/K3Prefab/Utils/K3ComponentPropertyModifier.cs:38-100 | no results for a missing component; otherwise the component ends as ModifyAll specifies, with one result per modification |
| K3Finder.OwnK3 | UnitySkills/AgentCommands/Plugins/K3Prefab/Utils/K3ComponentFinder.cs:32 | the K3 components of one object are exactly its components that are K3 components |
| K3Finder.K3RefsSound | UnitySkills/AgentCommands/Plugins/K3Prefab/Utils/K3ComponentFinder.cs:32 | every component GetComponentsInChildren lists is a K3 component of the prefab |
| K3Finder.K3RefsComplete | UnitySkills/AgentCommands/Plugins/K3Prefab/Utils/K3ComponentFinder.cs:32 | every K3 component of the prefab, inactive objects included, is listed |
| K3Finder.DetermineContainerType | UnitySkills/AgentCommands/Plugins/K3Prefab/Utils/K3ComponentFinder.cs:93-101 | the type is "Unknown" exactly when the object is neither a K3DialogEx nor a K3Panel |
| K3Finder.ContainerMeaning | UnitySkills/AgentCommands/Plugins/K3Prefab/Utils/K3ComponentFinder.cs:71-88 | the container is the object itself or an ancestor; below the prefab root it is a K3DialogEx or K3Panel and no object between it and the starting object is one; otherwise it is the root |
| K3Finder.FindContainerGameObject | UnitySkills/AgentCommands/Plugins/K3Prefab/Utils/K3ComponentFinder.cs:71-88 | the walk up the parents returns the container ContainerOf specifies |
| K3Finder.Matches | UnitySkills/AgentCommands/Plugins/K3Prefab/Utils/K3ComponentFinder.cs:25-66 | each match is a K3 component whose ID reads as the one asked for |
| K3Finder.MatchesInSound | UnitySkills/AgentCommands/Plugins/K3Prefab/Utils/K3ComponentFinder.cs:33-63 | the matches are numbered 0, 1, ... in order; each is a K3 component with the ID, its container is the one of its object and its container type is that container's |
| K3Finder.MatchesInComplete | UnitySkills/AgentCommands/Plugins/K3Prefab/Utils/K3ComponentFinder.cs:33-63 | every listed component with the ID is matched |
| K3Finder.MatchesExactly | UnitySkills/AgentCommands/Plugins/K3Prefab/Utils/K3ComponentFinder.cs:25-66 | a K3 component anywhere in the prefab is matched exactly when its ID is readable and equals the one asked for |
| K3Finder.FindComponentsByK3Id | UnitySkills/AgentCommands/Plugins/K3Prefab/Utils/K3ComponentFinder.cs:25-66 | the method returns the matches Matches specifies, in GetComponentsInChildren order |
| K3Finder.FilterByTypeMeaning | UnitySkills/AgentCommands/Plugins/K3Prefab/Utils/K3ComponentFinder.cs:110-128 | with a filter a match is kept exactly when its component's type name is listed, keeping its order and its number from the unfiltered list |
| K3Finder.FindComponentsByK3IdFiltered | UnitySkills/AgentCommands/Plugins/K3Prefab/Utils/K3ComponentFinder.cs:110-128 | the method returns the matches filtered as FilterByType specifies; no filter or an empty one keeps them all |
| K3Finder.FindComponentByK3IdAndIndex | UnitySkills/AgentCommands/Plugins/K3Prefab/Utils/K3ComponentFinder.cs:137-147 | a match is returned exactly when the index is in range, and it is the match with that number |
| K3SetProperties.ParseJsonValue | UnitySkills/AgentCommands/Plugins/K3Prefab/Handlers/K3PrefabSetComponentPropertiesHandler.cs:186-208 | null stays null, an int is an int, a string its text, and an array, object or untyped node becomes its rendered text |
| K3SetProperties.ParseAllMeaning | UnitySkills/AgentCommands/Plugins/K3Prefab/Handlers/K3PrefabSetComponentPropertiesHandler.cs:155-181 | parsing succeeds exactly when every element parses, and then gives one modification per element, in order, each with a non-empty property |
| K3SetProperties.MissingPropertyRejected | UnitySkills/AgentCommands/Plugins/K3Prefab/Handlers/K3PrefabSetComponentPropertiesHandler.cs:163-167 | an element without a usable property name is refused with its position in the message |
| K3SetProperties.ParseAllFirstError | UnitySkills/AgentCommands/Plugins/K3Prefab/Handlers/K3PrefabSetComponentPropertiesHandler.cs:159-178 | once an element throws, the parse throws what the first such element throws |
| K3SetProperties.ParseModifications | UnitySkills/AgentCommands/Plugins/K3Prefab/Handlers/K3PrefabSetComponentPropertiesHandler.cs:155-181 | the loop parses exactly what ParseAll specifies |
| K3SetProperties.ParseAllStops | UnitySkills/AgentCommands/Plugins/K3Prefab/Handlers/K3PrefabSetComponentPropertiesHandler.cs:159-178 | once a prefix throws, the rest is never read |
| K3SetProperties.ReadRequestMeaning | UnitySkills/AgentCommands/Plugins/K3Prefab/Handlers/K3PrefabSetComponentPropertiesHandler.cs:25-67 | a request that passes the checks names a prefab, a positive K3 ID and one modification per element of a non-empty array; a refused request is never reported as an unknown command |
| K3SetProperties.MissingK3IdRejected | UnitySkills/AgentCommands/Plugins/K3Prefab/Handlers/K3PrefabSetComponentPropertiesHandler.cs:34-47 | with a good prefab path, a missing k3Id is refused as "k3Id must be greater than 0" |
| K3SetProperties.ToJson | UnitySkills/AgentCommands/Plugins/K3Prefab/Handlers/K3PrefabSetComponentPropertiesHandler.cs:213-246 | null becomes an untyped node, a uint is cast to a 32-bit int, and a long becomes its text |
| K3SetProperties.CountStatus | UnitySkills/AgentCommands/Plugins/K3Prefab/Handlers/K3PrefabSetComponentPropertiesHandler.cs:142-145 | a status count never exceeds the number of results |
| K3SetProperties.CountsAddUp | UnitySkills/AgentCommands/Plugins/K3Prefab/Handlers/K3PrefabSetComponentPropertiesHandler.cs:142-145 | every result has one of the three statuses, so success + skipped + failed == total |
| K3SetProperties.AnySuccess | UnitySkills/AgentCommands/Plugins/K3Prefab/Handlers/K3PrefabSetComponentPropertiesHandler.cs:96 | some result succeeded exactly when the success count is positive |
| K3SetProperties.ExecuteMeaning | UnitySkills/AgentCommands/Plugins/K3Prefab/Handlers/K3PrefabSetComponentPropertiesHandler.cs:22-150 | a successful call modified the index-th match with the requested K3 ID: one result per modification, a summary whose counts add up, and a save exactly when some modification succeeded; without a save the component is as it was |
| K3SetProperties.PrefabNotFound | UnitySkills/AgentCommands/Plugins/K3Prefab/Handlers/K3PrefabSetComponentPropertiesHandler.cs:70-74 | a prefab the loader cannot find is reported as PREFAB_NOT_FOUND with its path once the parameters pass |
| K3SetProperties.Execute | UnitySkills/AgentCommands/Plugins/K3Prefab/Handlers/K3PrefabSetComponentPropertiesHandler.cs:22-150 | the handler returns the response or the exception ExecuteOf specifies |
| PrefabMoveOrCopy.PlacedIndex | UnityAgentSkills/Plugins/Prefab/Handlers/PrefabMoveOrCopyGameObjectHandler.cs:127-136 | the object ends at the requested index when the parent has a child there, and last otherwise |
| PrefabMoveOrCopy.PlaceMeaning | UnityAgentSkills/Plugins/Prefab/Handlers/PrefabMoveOrCopyGameObjectHandler.cs:200-208 | placing puts the object at its placed index and keeps the other children in their order around it |
| PrefabMoveOrCopy.IsChildOf | UnityAgentSkills/Plugins/Prefab/Handlers/PrefabMoveOrCopyGameObjectHandler.cs:255-273 | the walk up from target finds source exactly when both exist and source is target itself or one of its ancestors |
| PrefabMoveOrCopy.MoveCount | UnityAgentSkills/Plugins/Prefab/Handlers/PrefabMoveOrCopyGameObjectHandler.cs:124-128 | once the object is under the new parent, that parent has as many children as before, or one more when the object was not already its child |
| PrefabMoveOrCopy.RootNeverMoved | UnityAgentSkills/Plugins/Prefab/Handlers/PrefabMoveOrCopyGameObjectHandler.cs:80-85 | moving the prefab root always fails, because every target parent lies under it |
| PrefabMoveOrCopy.ExecuteMeaning | UnityAgentSkills/Plugins/Prefab/Handlers/PrefabMoveOrCopyGameObjectHandler.cs:27-102 | a successful move goes to a parent outside the moved subtree and keeps the object's name under the new parent's path, at the requested index when the parent had a child there; a successful copy goes under a different parent and is named with "(Clone)" |
| PrefabMoveOrCopy.Execute | UnityAgentSkills/Plugins/Prefab/Handlers/PrefabMoveOrCopyGameObjectHandler.cs:27-102 | the handler returns the response or the exception ExecuteOf specifies |
| PrefabMoveOrCopy.Operate | UnityAgentSkills/Plugins/Prefab/Handlers/PrefabMoveOrCopyGameObjectHandler.cs:78-100 | the checks on where the object would go, then the edit, give exactly EditOf |
| PrefabDelete.Remove | UnityAgentSkills/Plugins/Prefab/Handlers/PrefabDeleteGameObjectHandler.cs:73-74 | deleting a descendant keeps the root's name and instance id |
| PrefabDelete.RemoveFromParent | UnityAgentSkills/Plugins/Prefab/Handlers/PrefabDeleteGameObjectHandler.cs:73-74 | the deleted object's parent loses exactly that child, and its other children keep their order |
| PrefabDelete.CountAllPrefix | UnityAgentSkills/Plugins/Prefab/Handlers/PrefabDeleteGameObjectHandler.cs:110-116 | counting the first n subtrees sees only those subtrees |
| PrefabDelete.CountAllAppend | UnityAgentSkills/Plugins/Prefab/Handlers/PrefabDeleteGameObjectHandler.cs:110-116 | counting a concatenated child list counts each part |
| PrefabDelete.CountAllAround | UnityAgentSkills/Plugins/Prefab/Handlers/PrefabDeleteGameObjectHandler.cs:110-116 | a child list counts as the subtrees before the i-th, the i-th, and those after it |
| PrefabDelete.CountAllMonotone | UnityAgentSkills/Plugins/Prefab/Handlers/PrefabDeleteGameObjectHandler.cs:110-116 | the first n subtrees never hold more objects than the whole list |
| PrefabDelete.RemoveCount | UnityAgentSkills/Plugins/Prefab/Handlers/PrefabDeleteGameObjectHandler.cs:70-74 | deleting an object removes exactly the objects of its subtree, so totalDeletedCount is what the prefab loses |
| PrefabDelete.CountGameObjects | UnityAgentSkills/Plugins/Prefab/Handlers/PrefabDeleteGameObjectHandler.cs:103-118 | a missing object counts 0; otherwise every object of the subtree counts, the root only when includeSelf |
| PrefabDelete.RootNotDeleted | UnityAgentSkills/Plugins/Prefab/Handlers/PrefabDeleteGameObjectHandler.cs:62-66 | when the path finds the prefab root, the handler throws CANNOT_DELETE_ROOT |
| PrefabDelete.ExecuteMeaning | UnityAgentSkills/Plugins/Prefab/Handlers/PrefabDeleteGameObjectHandler.cs:27-95 | the deletion succeeds exactly when the object is found below the root; it reports the object's path, a deletedObjectCount of 1, a total equal to what the saved prefab lost, and the save's outcome on the tree without the object |
| PrefabDelete.Execute | UnityAgentSkills/Plugins/Prefab/Handlers/PrefabDeleteGameObjectHandler.cs:27-95 | the handler returns the response or the exception ExecuteOf specifies |
| Screenshot.PathCombine | UnityAgentSkills/Plugins/Log/Handlers/LogScreenshotCommandHandler.cs:73 | the combined path starts with the directory and ends with the file name |
| Screenshot.BaseName | UnityAgentSkills/Plugins/Log/Handlers/LogScreenshotCommandHandler.cs:72 | with at most one screenshot in the batch the file is named after the batch id alone, and otherwise after the batch id, '_' and the command id |
| Screenshot.InvalidFieldsException | UnityAgentSkills/Plugins/Log/Handlers/LogScreenshotCommandHandler.cs:55 | the exception is an ArgumentException whose message is the INVALID_FIELDS code, ": ", then the detail |
| Screenshot.CreateJob | UnityAgentSkills/Plugins/Log/Handlers/LogScreenshotCommandHandler.cs:51-75 | params that are not an object are INVALID_FIELDS; a job is created only when a non-empty batch id and command id were read, and its path is the results directory combined with their base name plus ".png" |
| Screenshot.InjectedContextNamesFile | UnityAgentSkills/Plugins/Log/Handlers/LogScreenshotCommandHandler.cs:59-74 | with the batch and command ids the batch executor injects, CreateJob succeeds and names the file after them |
| Screenshot.MissingContextRejected | UnityAgentSkills/Plugins/Log/Handlers/LogScreenshotCommandHandler.cs:64-69 | without the injected ids, CreateJob throws the missing-context InvalidOperationException |
| Screenshot.DistinctNamesPerCommand | UnityAgentSkills/Plugins/Log/Handlers/LogScreenshotCommandHandler.cs:72 | in a batch with several screenshots, different command ids give different file names |
| Screenshot.BeginCapture | UnityAgentSkills/Plugins/Log/Handlers/LogScreenshotCommandHandler.cs:80-104 | an empty path is INVALID_FIELDS; otherwise the capture fails exactly when the Game view cannot be focused |
| Screenshot.BuildSuccessResult | UnityAgentSkills/Plugins/Log/Handlers/LogScreenshotCommandHandler.cs:107-113 | the result has exactly the fields mode = "single" and imageAbsolutePath = the PNG path |
| Screenshot.StartCapture | UnityAgentSkills/Plugins/Log/Handlers/LogScreenshotCommandHandler.cs:38-46 | the capture starts exactly when CreateJob and BeginCapture both succeed, and then returns BuildSuccessResult of the job |

## Left out

- Reading the workbook is not modelled. Decoding the Excel file and the excelize library are outside the model; a sheet is the list of rows of cell strings that the library returns.
- The viewer's output is not modelled. Printing JSON, `os.Exit` and the help text are outside the model; an operation returns its data, its warnings and its exit code.
- The regular-expression engines of Go and .NET are oracles. A pattern either compiles or gives an error, and a compiled pattern either matches a text or not.
- File-system work is given as inputs and outputs. This covers directory listings, file times, existence checks, reads, writes, deletes, moves and `Path.GetFullPath`.
- The editor clock, the stopwatches and `DateTime.Now` are inputs to each step. Time is given as elapsed milliseconds or as editor seconds.
- Unity editor calls are inputs, never code inside the model:
  - loading, saving and unloading prefabs;
  - `Undo`;
  - `LayerMask.NameToLayer` and the tag check;
  - `EditorApplication.isCompiling`;
  - focusing the Game view and `ScreenCapture`;
  - `Instantiate`, whose copy is named "<name>(Clone)" with a new instance ID that is also an input.
- The `FileSystemWatcher` threads, event subscriptions, locks and `Dispose` are not modelled. A watcher is its directory plus whether it raises events, and its reports arrive through `FileChanged`.
- World transforms are not modelled, and floating-point values are exact reals. The K3 modifier compares values of two types by exact equality of their real values, so a float and a double that round differently (0.1f and 0.1) are taken to match, and NaN is not distinguished. The .NET conversions (`Convert.ToSingle`, `ToBoolean`, `ToUInt32`, `ToString`) are an oracle.
- Reflection over private fields is not modelled. The list of private serialized fields is an input to the field filter.
- `SerializedProperty` iteration is an input. The model is given the visible properties, in order, each with its path and its value.
- The order of JSON object keys is an input wherever the source iterates an object, as in `GameObjectPropertyModifier`.
- A LitJson indexer that is read on a missing key, or on a node that is not an object, is taken to throw.
- Scenes and prefabs are value trees. An object is addressed by its path of child indices, so the model does not capture aliasing between references to the same object.
- `HierarchyTraverser` builds its node list as a value.
- `GetComponent` matches only the exact component kind, not subclasses.
- Only the AgentCommands `CommandParams` is modelled. The UnityAgentSkills `CommandParams` file is not part of this model, so the handlers under UnityAgentSkills read their parameters with the AgentCommands readers.
- `Text.Lower`, `Text.TrimWhitespace` and `Text.TrimWhitespaceAndNull` cover ASCII only. `ToLowerInvariant`, `StringComparer.OrdinalIgnoreCase` and `char.IsWhiteSpace` also fold or skip non-ASCII characters. So does Go's Unicode-aware `strings.ToLower`, which `Text.Lower` also stands for in the fuzzy and exact searches of xlsx_viewer/main.go:531-535.
- The error messages of `AutoCompile` are English paraphrases of the source's messages. Validity and the error-message-is-empty rule are modelled exactly.
- AutoCompile.UpdateConfigOf: when the controller is Paused, the call keeps the source's behaviour. The new configuration is stored and the services are not restarted.
- `GameObjectPathFinder.FindByPath` has a `parts.Length == 0` check that can never fire, because `Split('/')` always returns at least one piece. This holds for both copies, UnitySkills/AgentCommands/Utils/GameObjectPathFinder.cs:32 and UnityAgentSkills/Utils/GameObjectPathFinder.cs:33. PathFinder.Find and PathFinder.FindFirst have no such branch.
- `GameObjectPropertyModifier.SavePrefab` is a single Unity call. It is left out with the other Unity calls.
- `ReadK3ComponentProperties` renders a component's properties for display. The rendering is not modelled; only the values read and written are.
- The deep-clone fallbacks of `InjectScreenshotContext` for parameters that are not JSON objects are not modelled. The model copies the object and adds the three context fields.
- The optional `onProcessingUpdate` callback of `BatchCommandExecutor.Execute` is not modelled. It publishes the processing snapshot before and during a batch, at UnityAgentSkills/Core/BatchCommandExecutor.cs:19, 39 and 179 and at UnitySkills/AgentCommands/Core/BatchCommandExecutor.cs:18, 38 and 157. The model returns only the final result.
- Path separators are normalised. Screenshot.PathCombine always joins with '/', where `Path.Combine` uses the platform separator and returns the second argument when it is rooted. ResultWriter.WithSeparator treats both '/' and '\\' as separators on every platform.
- SerializedProperties.GetSerializedProperties: a null object is not modelled. For a null object, UnitySkills/AgentCommands/Utils/SerializedObjectHelper.cs:96-99 returns a fresh `JsonData` with no type. The model is always given the object's list of visible properties.
- PrefabMoveOrCopy.ExecuteMeaning: describes the response of a move or copy, not the edited prefab tree. Placement among siblings is stated separately, by PrefabMoveOrCopy.PlaceMeaning.
- Plugin loading by reflection is not modelled; the registry is given the handlers that loaded. The same goes for the shutdown hooks and `EnsureDirectories`.
- AgentSkillsPlugin.Plugin.OnEditorUpdate: follows the corrected AgentSkillsPlugin.Update, which ends processing after an archived parse failure. The source (UnityAgentSkills/AgentCommandsPlugin.cs:707-713) leaves `_isProcessing` set. That behaviour is AgentSkillsPlugin.UpdateAsWritten, and AgentSkillsPlugin.ArchiveStalls and AgentSkillsPlugin.StalledForever prove what it leads to (see Findings).
- AgentSkillsPlugin.Plugin.ProcessPendingFile: ends processing on the error-report path, as AgentSkillsPlugin.Handle does with the release chosen; the source leaves the flag set there.
- AutoCompile.Controller.UpdateConfig: follows the corrected AutoCompile.UpdateConfigOf, which also stops the watchers of a Compiling controller. The source (UnityAgentSkills/AutoCompile/Core/AutoCompileController.cs:173) does not; that behaviour is AutoCompile.UpdateConfigAsWritten (see Findings).
- AutoCompile.ValidConfigAdopted: is stated about the corrected update. As written, a Compiling controller keeps its old watchers and stays Compiling.
- Text.TryParseInt: refuses trailing '\0' characters. `int.TryParse` accepts them after the digits, as `Number.TrailingZeros` allows, so "12\0" reads as 12 in the source and as no number here.
- Text.TruncateToInt32: saturates at the 32-bit bounds. C# leaves an out-of-range `(int)` conversion of a double unspecified; Mono on x86 and x64 gives int.MinValue.
- The `FailFatal` path of UnityAgentSkills/AgentCommandsPlugin.cs:333-347 is not modelled. A session's Tick is a total function here and never throws, so the catch that fails the session and ends processing cannot fire.
- The `catch { _isProcessing = false; throw; }` of UnityAgentSkills/AgentCommandsPlugin.cs:679-684 is not modelled by `AgentSkillsPlugin.Handle` or `Plugin.ProcessPendingFile`. It fires when `EnsureDirectories` or the write of an error archive throws. It resets the flag and rethrows the exception into the editor update loop, which is outside this model. Its comment says it exists so that processing never stays stuck, which is the intent the second Findings row takes as the corrected behaviour.
- Registry.CommandHandlerRegistry.Execute: a command type is always a string here. The ArgumentNullException that `TryGetValue` throws on a null type is not modelled.

## Findings

| source | as written | input that shows it | evidently intended | confidence | as-written member | corrected member |
|---|---|---|---|---|---|---|
| UnityAgentSkills/Utils/Serialization/SerializedJsonTreeBuilder.cs:41-44 | the container for token i is chosen by looking at token i+2, not at the next token i+1 | path "a.Array.data[0].b" inserted into an empty object: the tree becomes {"a": [null]} and the value is lost | the next token decides whether an object or an array is created, so the value is readable along its path | not executed | JsonTree.LookaheadLosesValue | JsonTree.InsertThenLookup |
| UnityAgentSkills/AgentCommandsPlugin.cs:707-713 | when a dequeued file cannot be read and its error is archived, `_isProcessing` is never reset | one pending file whose read throws an exception that is not retried (not an ArgumentException, or its retries are used up): after its error is archived, no later update dequeues anything | processing is released once the error result is written, as on every other path | not executed | AgentSkillsPlugin.ArchiveStalls | AgentSkillsPlugin.UpdateValid |
| UnityAgentSkills/Core/BatchCommandParser.cs:124 | the batch id is checked with `^[a-zA-Z0-9_-]+$`, and .NET's `$` also matches before a final "\n" | batchId "batch\n" passes validation, and its newline then goes into result and archive file names | only letters, digits, '_' and '-' are allowed, with nothing after them | not executed | BatchParser.TrailingNewlineAccepted | BatchParser.SafeBatchIdCharset |
| UnityAgentSkills/AutoCompile/Core/AutoCompileController.cs:173 | `wasRunning` counts Running and Pending but not Compiling, so a valid new configuration applied while compiling does not stop the old services, and StartService then returns early | watching "Assets" while Compiling, UpdateConfig with watch paths ["Scripts"] leaves only "Assets" watched | a valid new configuration replaces the watchers of any live controller | not executed | AutoCompile.UpdateWhileCompilingKeepsOldWatchers | AutoCompile.UpdateConfigRewatches |

The first row is not reachable through `GetSerializedProperties` as written. Its loop at UnitySkills/AgentCommands/Utils/SerializedObjectHelper.cs:133-157 advances with `prop.Next(false)`, which visits only top-level properties, so every path it passes is a single token and goes straight to `SetFinalValue`. The defect shows only for multi-token paths, such as a caller that enters child properties would produce.
