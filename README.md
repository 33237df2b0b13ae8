# A verified model of the wreath linter core

wreath lints Twine story archives. `Linter.lint` takes the story data (a
`tw-storydata` element, or markup to parse) and a list of tasks. It merges
its options over the stored ones, validates the task list, filters the
story's child nodes against the ignore rules, and turns the surviving
passage elements into passage records (stage one). It then rebuilds them
into a document fragment (stage two), builds the isolation chambers, and
runs every task through a nine-phase lifecycle. The runner runs tasks in
parallel over one shared fragment, or in isolation with a chamber per task.
Around this pipeline sit:

- the structural guards `isArrayLikeObject` and `isIIgnores`, and the constants;
- the two twins of each intermediate-representation stage;
- the `storyDataFactory` and `passageDataFactory` element builders;
- `linterFactory`;
- the `VariableUsageTask` accumulator;
- the NodeLike object model: `ElementLike`'s getters and setters, the `MChildNodeLike` mixin (`before`, `after`, `replaceWith`, `remove`), and `ClassListLike`.

The model follows the code as written, including where it disagrees with
its names, comments or tests. The lemmas state those disagreements, and
each of the following has a corrected definition beside the as-written one
(see "## Findings"):

- `isArrayLikeObject` holds for values that are not array-like;
- `isIIgnores` refuses every list holding a non-empty string, so the default ignore rules fail it;
- `ClassListLike.add` never appends, and `toggle` drops the last class for an absent one and duplicates a present one;
- the `id` and `className` setters drop the value they set;
- a second `(set:)` of a variable in one passage forgets the first;
- the parallel runner calls only `executeMicrotask`, so a task with `execute` alone, which `lint` accepts, makes it throw;
- stage two reads an option (`documentConstructor`) that `mergeOptions` never sets.

One more behaviour is stated without a correction, because the code does
not show which fix was meant: stage one is handed the filtered list and
refuses everything but an element, so `lint` throws before any task hook
runs (`Lint.LintNeverRunsTasks`).

How the model is built:

- **JavaScript values** are the `JsValues.JsValue` datatype. Guards, option shapes and task checks inspect it with `typeof`, truthiness and property reads. Option objects are `map<string, JsValue>`, copied by value where the source copies through `Map(...).toObject()`.
- **Documents the pipeline builds and reads** are values: `Dom.Node`, with the element kind as a tag.
- **The NodeLike object model** is an arena class, `NodeGraph.Graph`, with node ids as references. Links are stored the way the objects store them, so a mis-set sibling link can be represented. The mixin methods and setters change the arena in place.
- **Collaborators whose code is not part of this model** arrive in one `Externals.Env` record of functions:
  - the format and version detectors;
  - `semver.valid` and `satisfies`;
  - the parser factory and `parse`;
  - the AST node factory;
  - the tree recurser;
  - the HTML parser behind `innerHTML`, with the `querySelector('tw-storydata')` that follows it;
  - the caller's zero-argument functions (`documentGetter`, `documentFactory`, `documentConstructor`).
- **Task hooks** are recorded as an event trace of `Lifecycle.Event` values: a phase hook of task `i` given chamber `j`, or an `executeMicrotask` call with the node and the passage name. A thrown error stops a run with the trace so far.
- **Loops in the source** become methods with loop invariants: the chamber loop, the task checks, the runners' `forEach` loops, the stage-one extraction, the class-list updates and the sibling walks. Each method is proved equal to a reference function, and the properties are lemmas about that function.

## Model

| member | source | states |
|---|---|---|
| Constants.NodeTypeValuesAreNamesThenCodes | src/constants.ts:23-30 | `Object.values` of the numeric `NodeTypes` enum lists the six member names, then the six codes 1, 3, 8, 9, 10, 11 |
| Constants.DefaultIgnores | src/constants.ts:48-53 | the default ignore rules: element tags "script" and "style", no node types, the five tool names as passage names and as passage tags |
| Constants.EnumValuesAreLowerCase | src/constants.ts:5-46 | every value of the string enums is already lower case, so a lower-cased input can equal it |
| Constants.NodeTypeValuesHoldNoDecimalString | src/TypeGuards/isIIgnores.ts:12 | no string among the `NodeTypes` values is the decimal text of a number, so a node type given as the string "1" is not recognised |
| TypeGuards.IsArrayLikeObject | src/TypeGuards/isArrayLikeObject.ts:5-14 | the guard holds for a falsy value, a non-object, a `length` that JavaScript's `Number` conversion makes negative, NaN or fractional (so `"1"` and `[]` count as 0 or 1, while `"1,2"` and `"Infinity"` fail), and a value lacking one of `filter`, `forEach`, `map` and `reduce` |
| TypeGuards.ArrayLikeGuardIsNegated | src/TypeGuards/isArrayLikeObject.ts:5-14 | the guard holds exactly for the values that are NOT array-like, for every value |
| TypeGuards.ArraysFailArrayLikeGuard | src/TypeGuards/isArrayLikeObject.ts:5-14 | every genuine array fails the guard |
| TypeGuards.ArraysAreArrayLike | src/TypeGuards/isArrayLikeObject.ts:5-14 | the corrected guard, the array-like predicate itself, holds for every array and not for `null`, `undefined` or the string "ab" |
| TypeGuards.CoercedLengthsAreArrayLike | src/TypeGuards/isArrayLikeObject.ts:7-8 | an object with the four methods and `length` "1" or `[]` is array-like (and fails the guard); with `length` "1,2" or "Infinity" it is not |
| TypeGuards.IsIIgnores | src/TypeGuards/isIIgnores.ts:11-85 | a falsy value or a non-object is refused; the guard throws exactly when the value is an object whose `nodeTypes` is `null` |
| TypeGuards.AcceptedIgnoresHoldNoNames | src/TypeGuards/isIIgnores.ts:49-84 | an accepted value holds no non-empty string in `elementTags`, `passageNames` or `passageTags`: the item filters count the strings with content and demand zero of them |
| TypeGuards.DefaultIgnoresFailGuard | src/TypeGuards/isIIgnores.ts:49-50 | the default `constants.ignores` fails the guard, because its element tags are non-empty strings |
| TypeGuards.EmptyIgnoresPassGuard | src/TypeGuards/isIIgnores.ts:11-85 | four empty lists pass the guard |
| TypeGuards.IsIIgnoresCorrected | src/TypeGuards/isIIgnores.ts:11-85 | the guard with the rule its comments state, "all of the items are strings with content": refusals and the `null` throw as written, and an accepted value has three string lists of integral length whose items are all non-empty strings |
| TypeGuards.NameArrayPassesCorrected | src/TypeGuards/isIIgnores.ts:49-84 | an array of non-empty names passes the corrected string-list rule |
| TypeGuards.DefaultIgnoresPassCorrectedGuard | src/TypeGuards/isIIgnores.ts:49-84 | the default `constants.ignores` passes the corrected guard, while it fails the guard as written |
| MergeOptions.ResolveField | src/Linter/Linter.ts:310-416 | one field step: on success the options gain exactly that field's key and every other key keeps its value |
| MergeOptions.Merge | src/Linter/Linter.ts:305-446 | reference definition of `mergeOptions`: the detection mode first, then documentGetter, format, ignores, runInIsolation and version, each from the argument, else the stored options, else its default |
| MergeOptions.ResolveFieldFailsAsFieldError | src/Linter/Linter.ts:310-443 | a field step fails exactly when the field fails on its own against the stored options, with the same error, whatever earlier steps stored |
| MergeOptions.ResolveFieldStoresChosen | src/Linter/Linter.ts:310-443 | a successful field step stores the argument's value if the argument has the key, else the stored one, else the default |
| MergeOptions.TailUntouched | src/Linter/Linter.ts:305-443 | after one successful step over distinct fields, the remaining fields still hold their stored values |
| MergeOptions.ResolveFieldsFailsAsFirstError | src/Linter/Linter.ts:305-446 | resolving a list of distinct fields fails iff some field fails on its own, and then with the error of the earliest one |
| MergeOptions.MergeErrorIsEarliestFieldError | src/Linter/Linter.ts:305-446 | `mergeOptions` throws iff one of detectionMode, documentGetter, format, ignores, runInIsolation, version fails, and then with the error of the earliest in that order |
| MergeOptions.FieldKeyInjective | src/Linter/Linter.ts:305-446 | the six option keys are distinct |
| MergeOptions.ResolveFieldsFrame | src/Linter/Linter.ts:305-446 | resolving fields stores exactly their keys and copies every other key unchanged |
| MergeOptions.ResolveFieldsHead | src/Linter/Linter.ts:340-446 | the first of the later fields lands on its chosen value, leaves the detection mode and the other fields untouched |
| MergeOptions.HeadKeyFresh | src/Linter/Linter.ts:340-446 | among distinct fields other than the detection mode, the first one's key belongs to none of the others |
| MergeOptions.ResolveFieldsChosen | src/Linter/Linter.ts:340-446 | each field after the detection mode stores its chosen value, judged under the detection mode stored first |
| MergeOptions.MergeFirstStep | src/Linter/Linter.ts:305-338 | a successful merge is the detection-mode step followed by the other five steps in source order |
| MergeOptions.MergeKeys | src/Linter/Linter.ts:305-446 | a successful merge holds the stored keys plus the six option keys and nothing else |
| MergeOptions.MergeKeepsOtherKeys | src/Linter/Linter.ts:305-307 | a successful merge copies every stored key other than the six fields unchanged |
| MergeOptions.RestUntouched | src/Linter/Linter.ts:310-338 | the detection-mode step leaves the other five keys at their stored values |
| MergeOptions.MergeDetectionMode | src/Linter/Linter.ts:310-338 | the merged detection mode is the argument's (lower-cased), else the stored one (lower-cased), else "manual", and later steps leave it alone |
| MergeOptions.MergePrecedence | src/Linter/Linter.ts:305-446 | each field of a successful merge is the argument's value if present, else the stored one, else the default; format and version detection see the merged detection mode |
| MergeOptions.MergeLaterField | src/Linter/Linter.ts:340-446 | a field after the detection mode lands on its chosen value under the stored mode |
| MergeOptions.LaterFieldIndex | src/Linter/Linter.ts:340-446 | the five fields after the detection mode are distinct and cover every field but the mode |
| MergeOptions.FirstErrorCoversEveryField | src/Linter/Linter.ts:305-446 | if any field fails on its own, the earliest-error search finds an error |
| MergeOptions.MergeFailsOnAnyFieldError | src/Linter/Linter.ts:305-446 | a merge throws whenever any single field is invalid on its own |
| MergeOptions.MergeNeedsStoryDataToDetect | src/Linter/Linter.ts:376-382 | with format (or version) set by nobody, a merge whose argument has no non-empty string or element as story data throws |
| MergeOptions.MergedOptionsAreWellTyped | src/Linter/Linter.ts:310-416 | a successful merge stores a recognised lower-case detection mode, a function as document getter and a boolean isolation flag |
| MergeOptions.MergedFieldValid | src/Linter/Linter.ts:305-446 | in a successful merge every field raised no error of its own and holds its chosen value |
| MergeOptions.RemergeFailsOnUnguardedIgnores | src/Linter/Linter.ts:388-392 | options whose `ignores` fails `isIIgnores` cannot be merged again when passed as the argument |
| MergeOptions.DefaultIgnoresStored | src/Linter/Linter.ts:398-400 | with `ignores` set by nobody, the merged options hold `constants.ignores` |
| MergeOptions.ChosenDefault | src/Linter/Linter.ts:336-443 | a field that neither the argument nor the stored options set takes its default |
| MergeOptions.RemergeOverDefaultIgnoresFails | src/Linter/Linter.ts:394-400 | merging again over a result whose ignores were defaulted throws unless the new argument brings its own ignores |
| MergeOptions.StoredIgnoresRejected | src/Linter/Linter.ts:394-397 | stored ignores that fail the guard make every merge throw whose argument brings no ignores |
| NodeFilter.DomNodes | src/Linter/Linter.ts:459-460 | an element's child nodes are listed one value per node, in order |
| NodeFilter.ChildNodesOf | src/Linter/Linter.ts:452-463 | reference definition of the list to filter: none for a falsy value, the value itself when its `length` converts to a number >= 0, else an element's child nodes, else none |
| NodeFilter.Keep | src/Linter/Linter.ts:472-515 | reference definition of the filter callback: a node is kept unless its `nodeType`, its lower-cased element tag, or a `tw-passagedata`'s lower-cased name or one of its tags is listed |
| NodeFilter.Filtered | src/Linter/Linter.ts:448-516 | reference definition of `filterChildNodes` over the stored options |
| NodeFilter.FindIgnoredTag | src/Linter/Linter.ts:499-506 | the tag loop with its flag and `break` finds a tag exactly when some tag of the passage is in `passageTags` |
| NodeFilter.KeepNode | src/Linter/Linter.ts:472-515 | the filter callback keeps a node exactly as the specification predicate `Keep` says |
| NodeFilter.FilterItems | src/Linter/Linter.ts:472-475 | the filter over the items throws a `TypeError` when an item is `null` or `undefined` (its `nodeType` is read), else returns the kept items |
| NodeFilter.FilterChildNodes | src/Linter/Linter.ts:448-516 | `filterChildNodes`: a falsy story data throws; one whose `length` converts to a number >= 0 (a numeric string included) is itself the list; otherwise an element gives its child nodes and anything else throws; then the merge's error, then the filtered child nodes |
| NodeFilter.FilterChildNodesWith | src/Linter/Linter.ts:452-516 | the same filter, given the outcome of its merge |
| NodeFilter.FilterMerged | src/Linter/Linter.ts:465-515 | once the child nodes are read: the merge's error, else the node-type error, else the nodes kept under the merged `ignores` |
| NodeFilter.FilterIsSubsequence | src/Linter/Linter.ts:472 | the filter returns an order-preserving subsequence of the child nodes |
| NodeFilter.FilterMembership | src/Linter/Linter.ts:472-515 | a node is in the output iff it is among the child nodes and the callback keeps it |
| NodeFilter.EmptyIgnoresKeepEverything | src/Linter/Linter.ts:472-515 | with all four ignore lists empty, every child node is kept, in order |
| NodeFilter.DroppedIff | src/Linter/Linter.ts:474-511 | a node is dropped iff its `nodeType` is listed, or it is an element whose lower-cased tag is listed, or a `tw-passagedata` whose lower-cased name or one of whose space-separated tags is listed |
| NodeFilter.GuardedIgnoresOnlyFilterByNodeType | src/Linter/Linter.ts:472-515 | under ignore rules that pass `isIIgnores`, a passage with a non-empty name is dropped only for its `nodeType` |
| NodeFilter.DefaultIgnoresDropScripts | src/Linter/Linter.ts:479-482 | the default rules drop every `script` or `style` element, whatever the case of its tag |
| NodeFilter.DefaultIgnoresDropLinterPassages | src/Linter/Linter.ts:487-492 | the default rules drop every passage named after the linter, whatever its case |
| Text.ToLower | src/Linter/Linter.ts:480 | `toLowerCase` keeps the length and lower-cases the ASCII letters 'A'–'Z', leaving every other character alone |
| Text.LowerIdempotent | src/Linter/Linter.ts:318 | lower-casing twice is lower-casing once |
| Text.LowerIsLower | src/Linter/Linter.ts:318 | a lower-cased string holds no upper-case ASCII letter |
| Text.Split | src/Linter/Linter.ts:495-497 | `split(' ')` always yields at least one piece |
| Text.TokensAreTokens | src/Linter/Linter.ts:495-497 | every tag read from a `tags` attribute is non-empty and holds no space |
| Text.TokensOfJoin | src/NodeLike/ParentNodeLike/ElementLike/ClassListLike/ClassListLike.ts:91-95 | joining tokens with single spaces and reading them back gives the same tokens |
| Text.SplitJoin | src/NodeLike/ParentNodeLike/ElementLike/ClassListLike/ClassListLike.ts:91-95 | splitting on ' ' the join of a non-empty list of space-free pieces gives the pieces back |
| Text.TokensIdempotent | src/NodeLike/ParentNodeLike/ElementLike/ClassListLike/ClassListLike.ts:91-95 | reading a token list, writing it back and reading it again is stable |
| ClassListLike.IndexOfClass | src/NodeLike/ParentNodeLike/ElementLike/ClassListLike/ClassListLike.ts:45 | `indexOf` returns -1 iff the class is absent, else the index of its first occurrence |
| ClassListLike.ClassList.constructor | src/NodeLike/ParentNodeLike/ElementLike/ClassListLike/ClassListLike.ts:23-26 | the new list is the element's `className` split on spaces with the empty pieces dropped |
| ClassListLike.ClassList.Length | src/NodeLike/ParentNodeLike/ElementLike/ClassListLike/ClassListLike.ts:15-17 | `length` is the number of classes |
| ClassListLike.ClassList.Item | src/NodeLike/ParentNodeLike/ElementLike/ClassListLike/ClassListLike.ts:57-59 | `item(i)` is the i-th class, counted back from the end for a negative index, or '' out of range |
| ClassListLike.ClassList.Contains | src/NodeLike/ParentNodeLike/ElementLike/ClassListLike/ClassListLike.ts:82-84 | `contains` holds iff some class equals the argument |
| ClassListLike.ClassList.PushToParent | src/NodeLike/ParentNodeLike/ElementLike/ClassListLike/ClassListLike.ts:86-88 | the element's `class` attribute becomes the classes joined by single spaces; nothing else changes |
| ClassListLike.ClassList.Add | src/NodeLike/ParentNodeLike/ElementLike/ClassListLike/ClassListLike.ts:28-40 | as written, `add` never changes the list nor the element: every argument is looked up among the arguments themselves |
| ClassListLike.ClassList.Remove | src/NodeLike/ParentNodeLike/ElementLike/ClassListLike/ClassListLike.ts:42-55 | each argument in turn loses its first occurrence; the element is written back iff some class went |
| ClassListLike.ClassList.Toggle | src/NodeLike/ParentNodeLike/ElementLike/ClassListLike/ClassListLike.ts:61-72 | the list becomes `Toggled` of the old one, then is always written back |
| ClassListLike.ClassList.Replace | src/NodeLike/ParentNodeLike/ElementLike/ClassListLike/ClassListLike.ts:74-80 | the first `oldClass` is overwritten with `newClass` and written back; an absent `oldClass` changes nothing |
| ClassListLike.PullAfterPush | src/NodeLike/ParentNodeLike/ElementLike/ClassListLike/ClassListLike.ts:86-101 | when every class is non-empty and space-free, pulling after a push gives the same list back |
| ClassListLike.PulledListRoundTrip | src/NodeLike/ParentNodeLike/ElementLike/ClassListLike/ClassListLike.ts:90-101 | a freshly pulled list holds tokens only, and its `value` reads back as the same list |
| ClassListLike.ToggledStep | src/NodeLike/ParentNodeLike/ElementLike/ClassListLike/ClassListLike.ts:62-69 | the list after one more `toggle` argument is one `ToggleOne` step further |
| ClassListLike.RemoveFirstAt | src/NodeLike/ParentNodeLike/ElementLike/ClassListLike/ClassListLike.ts:45-48 | removing one class deletes exactly the position `indexOf` returned, if any |
| ClassListLike.RemovedClassesSnoc | src/NodeLike/ParentNodeLike/ElementLike/ClassListLike/ClassListLike.ts:44-50 | the list after one more `remove` argument loses that argument's first occurrence |
| ClassListLike.RemoveFirstMultiset | src/NodeLike/ParentNodeLike/ElementLike/ClassListLike/ClassListLike.ts:45-48 | deleting the first occurrence removes one copy of the class from the multiset of classes, none when absent |
| ClassListLike.RemovedClassesMultiset | src/NodeLike/ParentNodeLike/ElementLike/ClassListLike/ClassListLike.ts:42-55 | `remove` takes away one occurrence per argument, as far as there are any: the classes after it are the old multiset minus the arguments' |
| ClassListLike.RemoveOfDistinct | src/NodeLike/ParentNodeLike/ElementLike/ClassListLike/ClassListLike.ts:42-55 | on a list without repeats, a class survives `remove` iff it was there and was not named |
| ClassListLike.RemovedClassesShrink | src/NodeLike/ParentNodeLike/ElementLike/ClassListLike/ClassListLike.ts:42-55 | `remove` never adds a class |
| ClassListLike.ToggleAbsentDropsLast | src/NodeLike/ParentNodeLike/ElementLike/ClassListLike/ClassListLike.ts:63-65 | as written, toggling an absent class deletes the last class (`delete(-1)`) instead of adding it |
| ClassListLike.TogglePresentDuplicates | src/NodeLike/ParentNodeLike/ElementLike/ClassListLike/ClassListLike.ts:66-68 | as written, toggling a present class pushes a duplicate instead of removing it |
| ClassListLike.ReplacedAtFirst | src/NodeLike/ParentNodeLike/ElementLike/ClassListLike/ClassListLike.ts:74-80 | `replace` puts `newClass` where the first `oldClass` was and leaves every other position alone |
| ClassListLike.RemovedClasses | src/NodeLike/ParentNodeLike/ElementLike/ClassListLike/ClassListLike.ts:42-55 | reference definition of `remove`: each argument in turn deletes its first occurrence |
| ClassListLike.Toggled | src/NodeLike/ParentNodeLike/ElementLike/ClassListLike/ClassListLike.ts:61-72 | reference definition of `toggle` as written: one `ToggleOne` step per argument |
| ClassListLike.Replaced | src/NodeLike/ParentNodeLike/ElementLike/ClassListLike/ClassListLike.ts:74-80 | reference definition of `replace`: the first `oldClass` overwritten with `newClass`, or the list unchanged |
| ClassListLike.AddOne | src/NodeLike/ParentNodeLike/ElementLike/ClassListLike/ClassListLike.ts:28-40 | one `add` argument as evidently intended: the class is present afterwards, appended only when it was absent |
| ClassListLike.AddedCorrected | src/NodeLike/ParentNodeLike/ElementLike/ClassListLike/ClassListLike.ts:28-40 | the intended `add` keeps the old list as a prefix and leaves every argument in the list |
| ClassListLike.AddedCorrectedDistinct | src/NodeLike/ParentNodeLike/ElementLike/ClassListLike/ClassListLike.ts:28-40 | on a list without repeats, the intended `add` keeps it without repeats, and a class is in the result iff it was in the list or among the arguments |
| ClassListLike.ToggleCorrectedFlips | src/NodeLike/ParentNodeLike/ElementLike/ClassListLike/ClassListLike.ts:61-72 | the intended `toggle` of a class held at most once flips its membership, and toggling an absent class twice restores the list |
| ElementLike.NodeType | src/NodeLike/ParentNodeLike/ElementLike/ElementLike.ts:39-41 | `nodeType` is 1 exactly for an element |
| ElementLike.NodeTypeInjective | src/NodeLike/ParentNodeLike/ElementLike/ElementLike.ts:39-41 | the `nodeType` code tells the node kinds apart |
| ElementLike.NodeName | src/NodeLike/ParentNodeLike/ElementLike/ElementLike.ts:47-49 | reference definition: `nodeName` is the tag name as given |
| ElementLike.NodeValue | src/NodeLike/ParentNodeLike/ElementLike/ElementLike.ts:51-53 | reference definition: `nodeValue` of an element is `null` |
| ElementLike.TextContent | src/NodeLike/ParentNodeLike/ElementLike/ElementLike.ts:55-59 | reference definition of the `textContent` getter: an element concatenates its child nodes' texts, text-like nodes give their data, other kinds give '' |
| ElementLike.ChildTextConcat | src/NodeLike/ParentNodeLike/ElementLike/ElementLike.ts:55-59 | the text of a child list is the concatenation of the texts of its parts, in order |
| ElementLike.ChildTextParts | src/NodeLike/ParentNodeLike/ElementLike/ElementLike.ts:55-59 | a child list whose text is found has every child's text found |
| ElementLike.TextContentFuel | src/NodeLike/ParentNodeLike/ElementLike/ElementLike.ts:55-59 | more recursion depth never changes a text that has been found |
| ElementLike.ChildTextFuel | src/NodeLike/ParentNodeLike/ElementLike/ElementLike.ts:55-59 | likewise for a child list |
| ElementLike.CycleHasNoText | src/NodeLike/ParentNodeLike/ElementLike/ElementLike.ts:55-59 | an element that is its own child never yields a text: the getter would recurse forever |
| ElementLike.OneTextChild | src/NodeLike/ParentNodeLike/ElementLike/ElementLike.ts:55-59 | an element whose only child is a text node reads back that node's data |
| ElementLike.AttributeOrEmpty | src/NodeLike/ParentNodeLike/ElementLike/ElementLike.ts:103-124 | the `id` and `className` getters give the attribute's value, or '' when it is absent |
| ElementLike.SetAttributeAsWritten | src/NodeLike/ParentNodeLike/ElementLike/ElementLike.ts:112-129 | as written, the `id` and `className` setters leave the element unchanged: the updated copy of the immutable attribute map is dropped |
| ElementLike.SetterAsWrittenLosesValue | src/NodeLike/ParentNodeLike/ElementLike/ElementLike.ts:112-115 | calling the `id` setter as written on an element without an `id` leaves the getter reading '', so any non-empty value set is lost |
| ElementLike.SetAttributeCorrected | src/NodeLike/ParentNodeLike/ElementLike/ElementLike.ts:112-129 | the corrected setter stores the attribute and the getter reads it back; nothing else changes |
| ElementLike.AttributeRoundTrip | src/NodeLike/ParentNodeLike/ElementLike/ElementLike.ts:103-129 | storing an attribute reads back through the getter and leaves every other attribute as it was |
| ElementLike.ParentElement | src/NodeLike/ParentNodeLike/ElementLike/ElementLike.ts:143-149 | `parentElement` is the parent exactly when the parent is an element, else `null` |
| ElementLike.First | src/NodeLike/ParentNodeLike/ElementLike/ElementLike.ts:215-217 | `first()` is `undefined` (read as `null`) iff the list is empty, else its first item |
| ElementLike.Last | src/NodeLike/ParentNodeLike/ElementLike/ElementLike.ts:219-221 | `last()` is `undefined` iff the list is empty, else its last item |
| ElementLike.FirstChild | src/NodeLike/ParentNodeLike/ElementLike/ElementLike.ts:215-217 | reference definition: the first of the child nodes |
| ElementLike.LastChild | src/NodeLike/ParentNodeLike/ElementLike/ElementLike.ts:219-221 | reference definition: the last of the child nodes |
| ElementLike.FirstElementChild | src/NodeLike/ParentNodeLike/ElementLike/ElementLike.ts:227-229 | reference definition: the first of the element children |
| ElementLike.LastElementChild | src/NodeLike/ParentNodeLike/ElementLike/ElementLike.ts:231-233 | reference definition: the last of the element children |
| ElementLike.ChildElementCount | src/NodeLike/ParentNodeLike/ElementLike/ElementLike.ts:235-237 | reference definition: the number of element children |
| ElementLike.ChildGetters | src/NodeLike/ParentNodeLike/ElementLike/ElementLike.ts:211-237 | first and last child are both absent or both present and agree for a single child; no element children iff no first or last element child |
| ElementLike.ElementSibling | src/NodeLike/ParentNodeLike/ElementLike/ElementLike.ts:159-209 | without a parent the sibling getters give `null`; whatever they return is an element |
| ElementLike.Walk | src/NodeLike/ParentNodeLike/ElementLike/ElementLike.ts:168-180 | reference definition of the sibling walk: `null` at a missing node, the loop-guard error once the counter passes the length, else the first element met |
| ElementLike.WalkFindsElement | src/NodeLike/ParentNodeLike/ElementLike/ElementLike.ts:168-180 | the walk returns only elements |
| ElementLike.SiblingElement | src/NodeLike/ParentNodeLike/ElementLike/ElementLike.ts:159-209 | the getters' `while` loop returns what the walk specification says, including the loop-guard error |
| ElementLike.FirstElement | src/NodeLike/ParentNodeLike/ElementLike/ElementLike.ts:174-176 | the first element of a chain is in the chain and is an element; when there is none, no node of the chain is an element |
| ElementLike.WalkAlongChain | src/NodeLike/ParentNodeLike/ElementLike/ElementLike.ts:168-180 | along a sibling chain that fits in the counter's budget, the walk returns the first element of the chain and never throws |
| ElementLike.NextElementSiblingInList | src/NodeLike/ParentNodeLike/ElementLike/ElementLike.ts:185-209 | when the `nextSibling` links agree with the parent's child list, `nextElementSibling` is the first element after this node in that list, or `null` |
| ElementLike.PreviousElementSiblingInList | src/NodeLike/ParentNodeLike/ElementLike/ElementLike.ts:159-183 | likewise backwards along the `previousSibling` links |
| ElementLike.SelfLinkThrows | src/NodeLike/ParentNodeLike/ElementLike/ElementLike.ts:168-173 | a non-element node linked to itself makes the walk throw "Possible infinite loop detected" |
| ElementLike.WithoutMultiset | src/NodeLike/ParentNodeLike/ElementLike/ElementLike.ts:90-92 | one `removeChild` takes one occurrence of the node out of the element-children list |
| ElementLike.RemovedAllMultiset | src/NodeLike/ParentNodeLike/ElementLike/ElementLike.ts:90-92 | removing the snapshot's nodes one by one takes out one occurrence of each |
| ElementLike.RemovedAllEmpties | src/NodeLike/ParentNodeLike/ElementLike/ElementLike.ts:90-92 | when the element children are among the child nodes, removing every child node leaves no element child |
| ElementLike.RemoveNext | src/NodeLike/ParentNodeLike/ElementLike/ElementLike.ts:90-92 | one `removeChild` of the snapshot's next node drops it from both child lists |
| ElementLike.SetTextContent | src/NodeLike/ParentNodeLike/ElementLike/ElementLike.ts:89-97 | the `textContent` setter empties both child lists, appends one fresh text node of the owner document holding `content` with this element as parent, so the getter then reads `content`; it throws when the owner document is missing |
| ChildNodeLike.Guard | src/NodeLike/MChildNodeLike.ts:72-86 | the guards in their order: `this`, then the owner document (skipped by `remove`), then the parent; no error iff all pass, and a parent error only once the earlier ones pass |
| ChildNodeLike.Ids | src/NodeLike/MChildNodeLike.ts:88-96 | each content becomes one node: its own, or the next fresh text node |
| ChildNodeLike.InsertOne | src/NodeLike/MChildNodeLike.ts:89-95 | one turn of the `forEach`: a text node for a string, then `insertBefore` on the parent; one fresh id per string |
| ChildNodeLike.InsertEach | src/NodeLike/MChildNodeLike.ts:88-96 | the `forEach` makes exactly the planned calls, in order, and the arena is their effect |
| ChildNodeLike.LoopStep | src/NodeLike/MChildNodeLike.ts:88-96 | one turn of the loop keeps the calls and the arena in step with the plan |
| ChildNodeLike.PlanPrefix | src/NodeLike/MChildNodeLike.ts:88-96 | the calls for one more content follow those of the contents before it |
| ChildNodeLike.Before | src/NodeLike/MChildNodeLike.ts:71-97 | `before` throws the first failing guard's error with no calls, else inserts every content in front of `this` |
| ChildNodeLike.After | src/NodeLike/MChildNodeLike.ts:99-126 | `after` reads `nextSibling` once and inserts every content in front of it |
| ChildNodeLike.ReplaceWith | src/NodeLike/MChildNodeLike.ts:128-156 | `replaceWith` reads `nextSibling`, removes `this`, then inserts every content in front of the node that followed it |
| ChildNodeLike.Remove | src/NodeLike/MChildNodeLike.ts:158-170 | `remove` checks `this` and the parent (not the owner document) and makes one `removeChild(this)` |
| ChildNodeLike.SnocCalls | src/NodeLike/MChildNodeLike.ts:88-96 | appending one call extends the inserted nodes and created texts by that call's |
| ChildNodeLike.SnocStep | src/NodeLike/MChildNodeLike.ts:88-96 | the calls for one content insert its node and create a text only for a string |
| ChildNodeLike.PlanCalls | src/NodeLike/MChildNodeLike.ts:88-96 | `insertBefore` receives every content's node in argument order and `createTextNode` the strings in argument order |
| ChildNodeLike.PlanShape | src/NodeLike/MChildNodeLike.ts:88-96 | every call of the loop goes to the parent with the same reference node, and every text node is new and of the owner document |
| ChildNodeLike.ListAfterPlan | src/NodeLike/MChildNodeLike.ts:88-96 | on the parent's list, the loop's calls insert every content's node in turn |
| ChildNodeLike.ListAfterStep | src/NodeLike/MChildNodeLike.ts:89-95 | on the parent's list, one content's calls insert its node |
| ChildNodeLike.FreshForInit | src/NodeLike/MChildNodeLike.ts:88-96 | nodes new to a list stay new when the last one is set aside |
| ChildNodeLike.InsertAllBefore | src/NodeLike/MChildNodeLike.ts:88-96 | new distinct nodes inserted before the first node of `post` end up, in order, between `pre` and `post` |
| ChildNodeLike.InsertOneMoreBefore | src/NodeLike/MChildNodeLike.ts:88-96 | the induction step: the last new node goes after those already in front of the reference node |
| ChildNodeLike.InsertAllAtEnd | src/NodeLike/MChildNodeLike.ts:117-125 | with a `null` reference node, new nodes go at the end, in order |
| ChildNodeLike.PlanKeepsParent | src/NodeLike/MChildNodeLike.ts:88-96 | the new text nodes never take the parent's id, and the parent's list is the insertion of every content's node |
| ChildNodeLike.PlacesBefore | src/NodeLike/MChildNodeLike.ts:88-96 | for contents new to the list and distinct from each other (`FreshFor`), with a reference node the contents end up right in front of it, in order |
| ChildNodeLike.PlacesAtEnd | src/NodeLike/MChildNodeLike.ts:117-125 | for contents new to the list and distinct from each other (`FreshFor`), with no reference node the contents end up at the end of the list, in order |
| ChildNodeLike.IndexOfIs | src/NodeLike/MChildNodeLike.ts:95 | the first index of a node is where it first occurs |
| ChildNodeLike.InsertBeforeItselfStays | src/NodeLike/MChildNodeLike.ts:117-124 | `insertBefore(node, node)` of a child leaves the list as it was, as when `after` is handed its own next sibling |
| ChildNodeLike.MovingOntoItselfStays | src/NodeLike/MChildNodeLike.ts:117-155 | with [a, b, c], `a.after(b)` leaves [a, b, c] and `a.replaceWith(b)`'s insertion leaves [b, c] in place |
| ChildNodeLike.BeforePlacesContents | src/NodeLike/MChildNodeLike.ts:71-97 | `before`, for contents new to the list and distinct from each other (`FreshFor`): the contents end up right in front of `this`, in argument order |
| ChildNodeLike.AfterPlacesContents | src/NodeLike/MChildNodeLike.ts:99-126 | `after`, for contents new to the list and distinct from each other (`FreshFor`): when `nextSibling` is the node after `this` in the list, the contents end up right after `this`, in order |
| ChildNodeLike.RemoveTakesOut | src/NodeLike/MChildNodeLike.ts:158-170 | `remove`: `this` leaves its parent's list, the others keep their order |
| ChildNodeLike.ReplaceWithTakesPlace | src/NodeLike/MChildNodeLike.ts:128-156 | `replaceWith`, for contents new to the list and distinct from each other (`FreshFor`): `this` leaves the list and the contents take its place, in order |
| ChildNodeLike.ReplacedList | src/NodeLike/MChildNodeLike.ts:145-155 | the second half of `replaceWith`, on the list `this` has already left |
| ChildNodeLike.WithoutAfter | src/NodeLike/MChildNodeLike.ts:169 | `removeChild` of a node that follows `pre` leaves `pre` and `post` joined |
| NodeGraph.Without | src/NodeLike/MChildNodeLike.ts:146 | `removeChild` drops the first occurrence of the node and keeps every other |
| NodeGraph.IndexOf | src/NodeLike/MChildNodeLike.ts:95 | the first index of a node in a child list |
| NodeGraph.NextItem | src/NodeLike/MChildNodeLike.ts:95 | a node's next sibling in a list: the item after its first occurrence, or none |
| NodeGraph.Inserted | src/NodeLike/MChildNodeLike.ts:95 | `insertBefore` puts the node into the list, one longer when it was not there; a reference equal to the node is replaced by the node's next sibling, so the node keeps its place |
| NodeGraph.AddedToSet | src/NodeLike/ParentNodeLike/ElementLike/ElementLike.ts:95 | the ordered-set `add` appends a node not yet there and leaves the list alone otherwise |
| NodeGraph.ElementsAmong | src/NodeLike/MChildNodeLike.ts:95 | what `children` shows of a child list: exactly the elements among the nodes, in order |
| NodeGraph.InsertedElementIsChild | src/NodeLike/MChildNodeLike.ts:95 | an element inserted into a parent appears in both its `childNodes` and its `children` |
| NodeGraph.Apply | src/NodeLike/MChildNodeLike.ts:91-146 | reference definition of one call's effect: a new text node, an insertion into `childNodes` with `children` recomputed, or a removal from both |
| NodeGraph.Performed | src/NodeLike/MChildNodeLike.ts:88-156 | reference definition: the calls' effects in order |
| NodeGraph.Graph.constructor | src/NodeLike/ParentNodeLike/ElementLike/ElementLike.ts:94-96 | the arena starts with the given nodes and a fresh-id counter above all of them |
| NodeGraph.Graph.CreateTextNode | src/NodeLike/MChildNodeLike.ts:91 | `createTextNode` makes a new detached text node under a fresh id |
| NodeGraph.Graph.InsertBefore | src/NodeLike/MChildNodeLike.ts:95 | `insertBefore` changes the arena by exactly one insertion call: the parent's `childNodes` become `Inserted` of the old list and its `children` the elements among them |
| NodeGraph.Graph.RemoveChild | src/NodeLike/MChildNodeLike.ts:146 | `removeChild` changes the arena by exactly one removal call: the node leaves the parent's `childNodes` and `children` |
| NodeGraph.Graph.AddChildNode | src/NodeLike/ParentNodeLike/ElementLike/ElementLike.ts:95 | `__childNodes.add(textNode)` appends to the parent's child set |
| NodeGraph.Graph.SetParentNode | src/NodeLike/ParentNodeLike/ElementLike/ElementLike.ts:96 | `__setParentNode(this)` sets only the node's parent |
| NodeGraph.Graph.SetAttribute | src/NodeLike/ParentNodeLike/ElementLike/ClassListLike/ClassListLike.ts:87 | `setAttribute` sets one attribute of one element and nothing else |
| NodeGraph.PerformedKeepsNodes | src/NodeLike/MChildNodeLike.ts:88-96 | the calls of the mixin methods never delete a node from the arena |
| NodeGraph.PerformedConcat | src/NodeLike/MChildNodeLike.ts:145-155 | performing two call sequences one after the other is performing their concatenation |
| NodeGraph.ListAfterSnoc | src/NodeLike/MChildNodeLike.ts:88-96 | one more call on a child list |
| NodeGraph.PerformedChildList | src/NodeLike/MChildNodeLike.ts:88-96 | as long as no new node takes the parent's id, the parent's list after the calls is what the calls do to that list |
| NodeGraph.IndexOfAt | src/NodeLike/MChildNodeLike.ts:146 | the first occurrence is found where it is |
| NodeGraph.InsertedFresh | src/NodeLike/MChildNodeLike.ts:95 | a node not yet in the list goes right in front of the reference node |
| Dom.NodeTypeCode | src/Linter/Linter.ts:475 | `nodeType` is 1 exactly for an element |
| Dom.GetAttribute | src/Linter/Linter.ts:487 | `getAttribute` is `null` unless the node is an element that has the attribute |
| Dom.SetAttribute | src/modules/passageDataFactory.ts:19-20 | `setAttribute` sets one attribute and keeps the tag, the children and every other attribute |
| Dom.Append | src/modules/storyDataFactory.ts:30 | `append` adds the nodes after the existing children |
| Dom.CreateElement | src/modules/passageDataFactory.ts:18 | `createElement` makes an element with that tag, no attributes and no children |
| Dom.Children | src/IntermediateRepresentationGenerator/ArrayIntermediateRepresentationGenerator.ts:32 | `children` lists exactly the element children |
| Dom.QuerySelector | src/Linter/Linter.ts:240 | `querySelector(tag)` returns the first element in tree order (pre-order, depth first) whose lower-cased tag is `tag`, and `null` exactly when no node of the fragment matches |
| Dom.TreeOrder | src/Linter/Linter.ts:240 | the nodes of a forest in tree order (pre-order, depth first), no fewer than its roots |
| Dom.FirstMatch | src/Linter/Linter.ts:240 | the first node of a sequence with the tag: none iff no node matches, and otherwise a matching node with no match before it |
| Dom.QueryForestInTreeOrder | src/Linter/Linter.ts:240 | the recursive search over a forest finds the first match in tree order |
| Dom.QueryTreeInTreeOrder | src/Linter/Linter.ts:240 | the search within one node finds the first match of its subtree in tree order, the node itself first |
| Dom.QueryFindsLeadingElement | src/Linter/Linter.ts:240 | a leading element with the tag is the one found |
| JsValues.TypeOf | src/Linter/Linter.ts:201 | `typeof` is "string", "function" or "boolean" exactly for strings, functions and booleans |
| JsValues.IndexOf | src/Linter/Linter.ts:320 | `indexOf` with strict equality: -1 iff absent, else the first index |
| JsValues.ArrayFrom | src/Linter/Linter.ts:472 | `Array.from` of an array is its items, of a string one item per character, and of an array-like object `ToLength(Number(length))` items, read under the keys "0", "1", … |
| JsValues.Present | src/Linter/Linter.ts:271-279 | the values `forEach`, `filter` and `indexOf` visit: for anything but an object exactly `Array.from`'s, for an object no more than `Array.from` reads |
| JsValues.PresentAreOwnValues | src/Linter/Linter.ts:271-279 | every value `forEach` visits is the value of an own property |
| JsValues.PresentWithoutHoles | src/Linter/Linter.ts:271-279 | when every index below `length` is a property, `forEach` visits exactly what `Array.from` reads |
| JsValues.HoleSkipped | src/Linter/Linter.ts:271-279 | a missing index is skipped by `forEach`, where `Array.from` reads `undefined` |
| JsValues.ToLength | src/Linter/Linter.ts:472 | the length `Array.from` reads: clamped to 0..2^53-1, NaN and negatives giving 0, a fraction rounded down |
| JsValues.SingletonReadsAsItem | src/TypeGuards/isArrayLikeObject.ts:7-8 | `Number` of a one-item array is `Number` of its item |
| JsValues.NumericStringsCompare | src/TypeGuards/isArrayLikeObject.ts:7-8 | `"1" >= 0` and `"1" % 1 === 0` hold, and so they do for `[]`; `"1,2"` passes neither and `"Infinity"` only the first |
| NumericStrings.Negated | src/TypeGuards/isArrayLikeObject.ts:7 | unary minus keeps NaN, negates a finite number and flips an infinity's sign |
| NumericStrings.IntegerLiteral | src/TypeGuards/isArrayLikeObject.ts:7 | a `0x`/`0o`/`0b` literal's digits are a number iff they are non-empty and all digits of the radix, and then their value in it |
| NumericStrings.RadixPrefix | src/TypeGuards/isArrayLikeObject.ts:7 | a radix prefix announces 2, 8 or 16 and starts with '0' |
| NumericStrings.DigitsRead | src/TypeGuards/isArrayLikeObject.ts:7 | a non-empty run of decimal digits reads as the number it writes |
| NumericStrings.NatToStringReadsBack | src/TypeGuards/isArrayLikeObject.ts:7 | the decimal text of a whole number reads back as that number |
| NumericStrings.LeadingSpaceIgnored | src/TypeGuards/isArrayLikeObject.ts:7 | white space before the text does not change the number read |
| NumericStrings.TrailingSpaceIgnored | src/TypeGuards/isArrayLikeObject.ts:7 | white space after the text does not change the number read |
| NumericStrings.CommaIsNaN | src/TypeGuards/isArrayLikeObject.ts:7-8 | any string holding a comma reads as NaN, so an array of two or more items is never a valid length |
| NumericStrings.DecimalReadings | src/TypeGuards/isArrayLikeObject.ts:7-8 | "1" reads as 1 and " 2\n" as 2; "1,2" is NaN |
| NumericStrings.HexReading | src/TypeGuards/isArrayLikeObject.ts:7 | "0x1F" reads as 31 |
| NumericStrings.FractionReading | src/TypeGuards/isArrayLikeObject.ts:7-8 | "1.5" reads as 1.5 exactly |
| NumericStrings.InfinityReading | src/TypeGuards/isArrayLikeObject.ts:7 | "-Infinity" reads as negative infinity |
| JsValues.Strings | src/constants.ts:49-52 | `Object.values` of a string enum, as JS strings |
| ArrayIntermediateRepresentationGenerator.NodeTypeString | src/IntermediateRepresentationGenerator/ArrayIntermediateRepresentationGenerator.ts:36 | `nodeType.toString()` is the decimal text of the node's type code |
| ArrayIntermediateRepresentationGenerator.NameOf | src/IntermediateRepresentationGenerator/ArrayIntermediateRepresentationGenerator.ts:45-55 | the name is `name` when the version satisfies `^2`, else `tiddler` when it satisfies `^1`, else missing |
| ArrayIntermediateRepresentationGenerator.Generate | src/IntermediateRepresentationGenerator/ArrayIntermediateRepresentationGenerator.ts:23-75 | reference definition of stage one's `generate` |
| ArrayIntermediateRepresentationGenerator.GenerateRecords | src/IntermediateRepresentationGenerator/ArrayIntermediateRepresentationGenerator.ts:23-75 | `generate` step by step equals its specification `Generate` |
| ArrayIntermediateRepresentationGenerator.ExtractRecords | src/IntermediateRepresentationGenerator/ArrayIntermediateRepresentationGenerator.ts:31-74 | the `for` loop over `children`, pushing one record per turn, equals `RecordsFrom` from the first child |
| ArrayIntermediateRepresentationGenerator.ExtractStep | src/IntermediateRepresentationGenerator/ArrayIntermediateRepresentationGenerator.ts:33-72 | one turn of the loop: a failing child ends it with its error, any other pushes its record, if any |
| ArrayIntermediateRepresentationGenerator.PrefixedStep | src/IntermediateRepresentationGenerator/ArrayIntermediateRepresentationGenerator.ts:67-71 | pushing two record runs one after the other is pushing their concatenation |
| ArrayIntermediateRepresentationGenerator.NeverSkipped | src/IntermediateRepresentationGenerator/ArrayIntermediateRepresentationGenerator.ts:35-38 | no child is ever skipped: the decimal text of a type code never equals a value of the numeric enum |
| ArrayIntermediateRepresentationGenerator.RecordErrors | src/IntermediateRepresentationGenerator/ArrayIntermediateRepresentationGenerator.ts:40-60 | the checks of one turn in order: a parser that is not callable, then an empty parse output, then a missing or empty name |
| ArrayIntermediateRepresentationGenerator.RecordContents | src/IntermediateRepresentationGenerator/ArrayIntermediateRepresentationGenerator.ts:40-71 | a record holds the parse output (non-empty), the chosen non-empty name and the space-separated tags with empty pieces dropped |
| ArrayIntermediateRepresentationGenerator.RecordsFromSucceeds | src/IntermediateRepresentationGenerator/ArrayIntermediateRepresentationGenerator.ts:33-72 | with nothing skipped, the loop succeeds iff no child's record fails |
| ArrayIntermediateRepresentationGenerator.SucceedsWithoutFailure | src/IntermediateRepresentationGenerator/ArrayIntermediateRepresentationGenerator.ts:33-72 | with nothing skipped, a successful loop met no failing child |
| ArrayIntermediateRepresentationGenerator.RecordsFromStep | src/IntermediateRepresentationGenerator/ArrayIntermediateRepresentationGenerator.ts:33-72 | one turn over a child that is not skipped: its record, then the rest |
| ArrayIntermediateRepresentationGenerator.RecordsFromContents | src/IntermediateRepresentationGenerator/ArrayIntermediateRepresentationGenerator.ts:33-72 | with nothing skipped, a successful loop yields one record per child, in child order |
| ArrayIntermediateRepresentationGenerator.FirstFailing | src/IntermediateRepresentationGenerator/ArrayIntermediateRepresentationGenerator.ts:33-72 | the first child whose record fails, every earlier one succeeding, or the end of the list |
| ArrayIntermediateRepresentationGenerator.RecordsFromFails | src/IntermediateRepresentationGenerator/ArrayIntermediateRepresentationGenerator.ts:33-72 | with nothing skipped, a failing loop fails with the error of the first failing child |
| ArrayIntermediateRepresentationGenerator.NoChildSkipped | src/IntermediateRepresentationGenerator/ArrayIntermediateRepresentationGenerator.ts:35-38 | no element child of any story data is skipped |
| ArrayIntermediateRepresentationGenerator.GenerateInOrder | src/IntermediateRepresentationGenerator/ArrayIntermediateRepresentationGenerator.ts:23-75 | on an element, `generate` succeeds iff every element child's record is read, and then yields one record per element child, in order |
| ArrayIntermediateRepresentationGenerator.GenerateFailsAtFirstBadChild | src/IntermediateRepresentationGenerator/ArrayIntermediateRepresentationGenerator.ts:23-75 | a failing `generate` reports the error of the first element child that fails |
| ArrayIntermediateRepresentationGenerator.RefusesNonElements | src/IntermediateRepresentationGenerator/ArrayIntermediateRepresentationGenerator.ts:27-29 | anything but an element is refused before any child is read |
| ArrayIRGenerator.CheckContext | src/IRGenerator/ArrayIRGenerator.ts:68-100 | anything but an element is refused first; a context that passes has a recognised format |
| ArrayIRGenerator.Generate | src/IRGenerator/ArrayIRGenerator.ts:64-138 | reference definition of `generate`: the context checks, then `parserFactory(format)`, whose throw is `ParserNotBuilt`, then the loop over the children |
| ArrayIRGenerator.GenerateRecords | src/IRGenerator/ArrayIRGenerator.ts:64-138 | `generate` step by step (the checks, one `parserFactory(format)` call that may throw, the loop) equals its specification `Generate` |
| ArrayIRGenerator.RecordsNeverParserError | src/IRGenerator/ArrayIRGenerator.ts:106-135 | the loop fails only with a child's own error (empty parse or missing name), never with the parser factory's |
| ArrayIRGenerator.ParserBuiltAfterChecks | src/IRGenerator/ArrayIRGenerator.ts:68-104 | a failing context check decides the error before the factory is called; the factory's throw is reported exactly when every check passes and `parserFactory(format)` throws, whatever the children hold |
| ArrayIRGenerator.CheckOrder | src/IRGenerator/ArrayIRGenerator.ts:72-88 | the checks decide the error in their order: format missing or not a string, format unknown, version missing or not a string, version not semantic |
| ArrayIRGenerator.MajorVersionChoice | src/IRGenerator/ArrayIRGenerator.ts:90-100 | `^1` is tried first and `^2` only when it fails; a valid version in neither range is refused |
| ArrayIRGenerator.RecordRules | src/IRGenerator/ArrayIRGenerator.ts:106-134 | an empty parse is refused before the name is read; the name comes from `tiddler` under major version 1 and `name` otherwise; a record holds the parse output, the name and the tag tokens |
| ArrayIRGenerator.RecordsSucceed | src/IRGenerator/ArrayIRGenerator.ts:106-135 | the loop succeeds iff every child's record can be read |
| ArrayIRGenerator.RecordsInOrder | src/IRGenerator/ArrayIRGenerator.ts:106-135 | a successful loop yields one record per child, in child order |
| ArrayIRGenerator.RecordsFailAtFirst | src/IRGenerator/ArrayIRGenerator.ts:106-135 | a failing loop reports the error of its first failing child |
| ArrayIRGenerator.ReadsBackFactoryOutput | src/IRGenerator/ArrayIRGenerator.ts:113-134 | under major version 2, an element written by `passageDataFactory` reads back with the passage's name and tags |
| PassageDataFactory.NodesOf | src/modules/passageDataFactory.ts:21-23 | the `map` gives one node per syntax-tree node, each made by `nodeFactory` |
| PassageDataFactory.PassageElement | src/modules/passageDataFactory.ts:14-27 | the passage element is a `tw-passagedata` with the passage's name, its tags joined by spaces, and the mapped nodes as children |
| PassageDataFactory.BuildPassageData | src/modules/passageDataFactory.ts:14-27 | the factory step by step builds exactly that element |
| PassageDataFactory.TagsRoundTrip | src/modules/passageDataFactory.ts:20 | reading the written `tags` back (split on ' ', empties dropped) gives the original tags whenever each is non-empty and space-free |
| PassageDataFactory.SpacedTagSplits | src/modules/passageDataFactory.ts:20 | a tag holding a space comes back as two tags |
| StoryDataFactory.PassageElements | src/modules/storyDataFactory.ts:20-28 | the `map` gives one passage element per record |
| StoryDataFactory.StoryElement | src/modules/storyDataFactory.ts:14-32 | the story element is a `tw-storydata` without attributes whose children are the passage elements |
| StoryDataFactory.UnnamedCount | src/modules/storyDataFactory.ts:21-25 | the `UNKNOWN_n` counter never exceeds the number of records |
| StoryDataFactory.BuildStoryData | src/modules/storyDataFactory.ts:14-32 | the factory step by step builds the story element, its counter reaching the number of unnamed records |
| StoryDataFactory.ChildCarriesRecord | src/modules/storyDataFactory.ts:20-30 | child i carries record i's own name and tags, an empty name included: the `UNKNOWN_n` fallback never reaches the output |
| StoryDataFactory.ChildrenArePassages | src/modules/storyDataFactory.ts:30 | the story element's element children are exactly its passage elements |
| StoryDataFactory.ChildrenAppend | src/modules/storyDataFactory.ts:30 | appending an element adds it to the element children |
| DocumentFragmentIntermediateRepresentationGenerator.GenerateFragment | src/IntermediateRepresentationGenerator/DocumentFragmentIntermediateRepresentationGenerator.ts:24-43 | `generate` step by step equals its specification, the constructor call count included |
| DocumentFragmentIntermediateRepresentationGenerator.ConstructorCalledOnceIffFunction | src/IntermediateRepresentationGenerator/DocumentFragmentIntermediateRepresentationGenerator.ts:28-33 | `documentConstructor` is called once exactly when it is a function, and never more |
| DocumentFragmentIntermediateRepresentationGenerator.FragmentShape | src/IntermediateRepresentationGenerator/DocumentFragmentIntermediateRepresentationGenerator.ts:28-42 | without a constructor, or when its product is not document-like, `generate` throws; otherwise the fragment's one child is the story element with one child per passage |
| DocumentFragmentIntermediateRepresentationGenerator.StoryDataIsFound | src/IntermediateRepresentationGenerator/DocumentFragmentIntermediateRepresentationGenerator.ts:40-42 | `querySelector('tw-storydata')` on the returned fragment finds the story element |
| DocumentFragmentIntermediateRepresentationGenerator.MergedOptionsBuildNoDocument | src/IntermediateRepresentationGenerator/DocumentFragmentIntermediateRepresentationGenerator.ts:29-38 | `documentConstructor` is not one of the six merged keys, so over merged options whose stored options lack it the stage always throws, having called nothing |
| DocumentFragmentIntermediateRepresentationGenerator.ConstructorIsNotAField | src/IntermediateRepresentationGenerator/DocumentFragmentIntermediateRepresentationGenerator.ts:29 | `documentConstructor` is not an option key the merger sets |
| DocumentFragmentIntermediateRepresentationGenerator.Generate | src/IntermediateRepresentationGenerator/DocumentFragmentIntermediateRepresentationGenerator.ts:24-43 | reference definition of stage two as written, reading the document from `documentConstructor` |
| DocumentFragmentIntermediateRepresentationGenerator.GenerateCorrected | src/IntermediateRepresentationGenerator/DocumentFragmentIntermediateRepresentationGenerator.ts:24-43 | stage two reading `documentGetter` instead: at most one call, success only with the fragment holding the story element, and for options that are not `null` or `undefined`, success exactly when the getter's product is document-like |
| DocumentFragmentIntermediateRepresentationGenerator.CorrectedStageUsesMergedGetter | src/IntermediateRepresentationGenerator/DocumentFragmentIntermediateRepresentationGenerator.ts:29-37 | over any merged options the corrected stage calls the merged `documentGetter` once and succeeds exactly when its product is document-like |
| DocumentFragmentIRGenerator.Check | src/IRGenerator/DocumentFragmentIRGenerator.ts:53-75 | the checks pass exactly when the passages and the options pass and `documentFactory()` produces something document-like, which is then the document |
| DocumentFragmentIRGenerator.PassageValues | src/IRGenerator/DocumentFragmentIRGenerator.ts:49-51 | one JavaScript value per passage record |
| DocumentFragmentIRGenerator.Generate | src/IRGenerator/DocumentFragmentIRGenerator.ts:49-81 | reference definition of `generate` |
| DocumentFragmentIRGenerator.GenerateFragment | src/IRGenerator/DocumentFragmentIRGenerator.ts:49-81 | `generate` step by step equals its specification, the factory call count included |
| DocumentFragmentIRGenerator.RunChecks | src/IRGenerator/DocumentFragmentIRGenerator.ts:53-75 | the checks in their order, with the conditional `documentFactory()` call, give the specified document or error and call count |
| DocumentFragmentIRGenerator.CheckOrder | src/IRGenerator/DocumentFragmentIRGenerator.ts:53-75 | each check has its own error and the first failing one decides: guard, `length` of a nullish value, empty passages, options not an object, no `documentFactory` function, a product that is not document-like |
| DocumentFragmentIRGenerator.FactoryCalledOnceBeforeVerdict | src/IRGenerator/DocumentFragmentIRGenerator.ts:64-75 | the factory is called at most once, and exactly when its product decides the outcome |
| DocumentFragmentIRGenerator.EveryListIsRefused | src/IRGenerator/DocumentFragmentIRGenerator.ts:53-55 | as written, every list of passages, empty or not, is refused by the negated array-like guard, before the options are read and without calling the factory |
| DocumentFragmentIRGenerator.NonArraysPassFirstCheck | src/IRGenerator/DocumentFragmentIRGenerator.ts:53-58 | values that pass the first check are refused later: `undefined` by reading its `length`, '' and an object with length 0 as empty |
| Lifecycle.Then | src/Linter/Linter.ts:594-673 | running one stage then another keeps the first's error and trace when it throws, else appends the second's |
| Lifecycle.ChainStep | src/Linter/Linter.ts:594-673 | one more stage of a chain: a throwing stage ends the run with the trace so far, any other leaves the rest to run |
| Lifecycle.HookIsOwnMethod | src/Linter/Linter.ts:596 | whether a task has a hook is the property read followed by `typeof` |
| Lifecycle.HasHook | src/Linter/Linter.ts:596 | reference definition: `typeof task[name] === 'function'` |
| Lifecycle.PhaseRun | src/Linter/Linter.ts:594-597 | reference definition of one phase's `forEach` |
| Lifecycle.HookEvents | src/Linter/Linter.ts:695-713 | the hook calls of a phase, one per task, in task order, each with its chamber |
| Lifecycle.FirstMissing | src/Linter/Linter.ts:594-597 | the first task lacking the phase's hook, every earlier one having it, or the end |
| Lifecycle.PhaseFromShape | src/Linter/Linter.ts:594-597 | from task i on, a phase calls the hooks up to the first task lacking one, in order, and throws there |
| Lifecycle.PhaseRunShape | src/Linter/Linter.ts:594-613 | a phase calls the hooks of the tasks before the first lacking one, in task order, and throws a `TypeError` at that task; with none lacking it calls every task's hook |
| Lifecycle.PassageNameFor | src/Linter/Linter.ts:623-628 | the `passageName` delivered is a string exactly for a `tw-passagedata` element with a `name`, else `null` |
| Lifecycle.RecurserOf | src/Linter/Linter.ts:620-621 | the recurser is the task options' `recurser` when it is a function, else the built-in one |
| Lifecycle.WalkerOf | src/Linter/Linter.ts:620-652 | the recurser is handed the task options' recurser, the merged `format` and `version`, and the task options |
| Lifecycle.FanOutFrom | src/Linter/Linter.ts:636-643 | reference definition of the parallel callback from task i on |
| Lifecycle.Deliver | src/Linter/Linter.ts:630-644 | reference definition of whom a visited node goes to: every task, or the isolated task alone |
| Lifecycle.WalkFrom | src/Linter/Linter.ts:622-653 | reference definition of the walk over the filtered children from the i-th on |
| Lifecycle.MicrotaskEvents | src/Linter/Linter.ts:636-643 | one `executeMicrotask` call per task for a node, in task order |
| Lifecycle.FanOutFromShape | src/Linter/Linter.ts:636-643 | from task i on, the callback succeeds iff every task has `executeMicrotask`, and then calls each in order |
| Lifecycle.FanOutShape | src/Linter/Linter.ts:630-644 | in parallel mode a visited node reaches every task's `executeMicrotask`, in task order, and the callback throws iff some task lacks it |
| Lifecycle.FanOutCorrectedFrom | src/Linter/Linter.ts:636-643 | the parallel callback as evidently intended never throws and delivers the node, on the shared fragment, to exactly the tasks that have `executeMicrotask` and no `execute` |
| Lifecycle.ExecuteCallsFrom | src/Linter/Linter.ts:715-720 | the `execute` calls the corrected parallel stage owes: one on the shared fragment for exactly the tasks that have `execute` |
| Lifecycle.RunPhase | src/Linter/Linter.ts:594-597 | one phase's `forEach` equals its specification `PhaseRun` |
| Lifecycle.DeliverNode | src/Linter/Linter.ts:630-644 | the callback for one visited node equals its specification `Deliver` |
| Lifecycle.WalkOneChild | src/Linter/Linter.ts:647-652 | the recurser's walk of one child applies the callback to each visited node in order, stopping at the first that throws |
| Lifecycle.WalkChildren | src/Linter/Linter.ts:622-653 | the `forEach` over the filtered children equals its specification `WalkFrom` |
| TaskRunners.RunSetUp | src/Linter/Linter.ts:594-612 | the four set-up `forEach` statements equal their specification `PreRun` |
| TaskRunners.PreRun | src/Linter/Linter.ts:594-612 | reference definition of the four set-up phases |
| TaskRunners.PostRun | src/Linter/Linter.ts:655-673 | reference definition of the four completion phases |
| TaskRunners.MergedWalker | src/Linter/Linter.ts:584-652 | after a successful merge the walker carries that merge's `format` and `version` |
| TaskRunners.ParallelExecute | src/Linter/Linter.ts:614-653 | reference definition of the parallel execute stage |
| TaskRunners.ParallelRun | src/Linter/Linter.ts:578-676 | reference definition of `runTasksInParallel` |
| TaskRunners.ExecuteIsolated | src/Linter/Linter.ts:716-762 | reference definition of task ii's execute step in isolation |
| TaskRunners.IsolationRun | src/Linter/Linter.ts:678-786 | reference definition of `runTasksInIsolation` |
| TaskRunners.RunAll | src/Linter/Linter.ts:546-576 | reference definition of `runTasks` |
| TaskRunners.RunCompletion | src/Linter/Linter.ts:655-673 | the four completion `forEach` statements equal their specification `PostRun` |
| TaskRunners.Outcome | src/Linter/Linter.ts:675 | a runner returns the task array itself exactly when nothing threw, else the error thrown |
| TaskRunners.ExecuteInParallel | src/Linter/Linter.ts:614-653 | the parallel execute stage (find `tw-storydata`, filter its children, walk them) equals `ParallelExecute` |
| TaskRunners.RunTasksInParallel | src/Linter/Linter.ts:578-676 | `runTasksInParallel` produces the trace and outcome of its specification `ParallelRun` |
| TaskRunners.ExecuteTaskInIsolation | src/Linter/Linter.ts:716-762 | task ii's step: `execute` if it has one, else a walk of its own chamber, else the task-invalid error |
| TaskRunners.IsolatedFromStep | src/Linter/Linter.ts:715-763 | the isolation execute `forEach` from task ii is task ii's step, then the rest |
| TaskRunners.IsolatedLoopStep | src/Linter/Linter.ts:715-763 | one turn of that `forEach`: a throwing step ends it with the trace so far, any other goes on to the next task |
| TaskRunners.ExecuteInIsolation | src/Linter/Linter.ts:715-763 | the isolation execute `forEach` equals its specification `IsolatedFrom` |
| TaskRunners.RunTasksInIsolation | src/Linter/Linter.ts:678-786 | `runTasksInIsolation` produces the trace and outcome of its specification `IsolationRun` |
| TaskRunners.RunTasks | src/Linter/Linter.ts:546-576 | `runTasks` produces the trace and outcome of `RunAll`: isolation exactly when the merged `runInIsolation` is `true` |
| RunOutcomes.PhaseRunCompletes | src/Linter/Linter.ts:594-597 | a phase completes iff every task has its hook, and then calls every task's hook in order; otherwise it throws a hook error |
| RunOutcomes.SetUpShape | src/Linter/Linter.ts:594-612 | the set-up stage completes iff every task has all four set-up hooks, and then calls them phase by phase |
| RunOutcomes.CompletionShape | src/Linter/Linter.ts:655-673 | the completion stage completes iff every task has all four completion hooks, and then calls them phase by phase |
| RunOutcomes.ParallelRunWithSucceeds | src/Linter/Linter.ts:584-676 | a parallel run that does not throw had a successful merge and calls set-up, execute and completion in order |
| RunOutcomes.ParallelRunSucceeds | src/Linter/Linter.ts:578-676 | a parallel run that does not throw calls every task's four set-up hooks phase by phase, then the microtasks, then the four completion hooks |
| RunOutcomes.IsolationRunWithSucceeds | src/Linter/Linter.ts:684-786 | an isolation run that does not throw had a successful merge, calls the stages in order, and calls `execute` of every task that has one |
| RunOutcomes.IsolationRunSucceeds | src/Linter/Linter.ts:678-786 | an isolation run that does not throw calls the set-up hooks with each task's own chamber, then the execute stage in which every task with `execute` gets it, then the completion hooks |
| RunOutcomes.ParallelStoryDataWith | src/Linter/Linter.ts:614-617 | given the merge, the parallel runner throws its story-data error iff the merge and set-up succeed and the fragment has no `tw-storydata` |
| RunOutcomes.MiddleStageError | src/Linter/Linter.ts:594-673 | of three chained stages, only the middle one raises an error the other two never raise, and then the trace stops after it |
| RunOutcomes.ParallelExecuteStoryDataInvalid | src/Linter/Linter.ts:614-617 | the execute stage raises the story-data error exactly when the fragment has no `tw-storydata`, calling nothing |
| RunOutcomes.ParallelStoryDataInvalidWhen | src/Linter/Linter.ts:578-676 | the parallel runner throws its story-data error exactly when the merge and set-up succeed and the fragment holds no `tw-storydata`; by then every set-up hook was called |
| RunOutcomes.IsolationTaskInvalidWith | src/Linter/Linter.ts:715-763 | given the merge, the task-invalid error comes after every set-up hook and only when some task has neither `execute` nor `executeMicrotask` |
| RunOutcomes.IsolationTaskInvalidAfterSetUp | src/Linter/Linter.ts:678-786 | the isolation runner's task-invalid error is thrown only after every set-up hook was called, and only when some task has neither `execute` nor `executeMicrotask` |
| RunOutcomes.VisitDelivers | src/Linter/Linter.ts:636-643 | when every task has `executeMicrotask`, the callback over the visited nodes calls every task's microtask for each node in turn |
| RunOutcomes.WalkDelivers | src/Linter/Linter.ts:622-653 | when every task has `executeMicrotask`, the walk over the children delivers each child's nodes with that child's passage name |
| RunOutcomes.ParallelExecuteDelivers | src/Linter/Linter.ts:614-653 | when every task has `executeMicrotask`, the parallel execute stage does not throw and makes exactly the deliveries for the filtered children, in order |
| RunOutcomes.RunTasksDispatch | src/Linter/Linter.ts:546-576 | `runTasks` runs in isolation when the argument sets `runInIsolation` to `true`, and in parallel on the first chamber when nobody sets it |
| RunOutcomes.IsolationChoice | src/Linter/Linter.ts:402-416 | the merged `runInIsolation` is `true` when the argument sets it so and `false` when nobody sets it |
| RunOutcomes.RunTasksRejectsUnguardedIgnores | src/Linter/Linter.ts:563-575 | when the merged `ignores` fails the guard, each runner's own re-merge throws before any task is called |
| RunOutcomes.RunnersRefuseFailedMerge | src/Linter/Linter.ts:584-589 | both runners throw their merge error before calling any task when their own merge fails |
| RunOutcomes.RunTasksRejectsDefaultIgnores | src/Linter/Linter.ts:546-576 | with `ignores` set by nobody, the merged options carry the default ignores, which fail the guard, so `runTasks` throws before calling any task |
| RunnerProperties.FanOutEvents | src/Linter/Linter.ts:636-643 | the parallel callback makes only microtask calls into the shared fragment with the visited node and its passage name, and throws only for a missing `executeMicrotask` |
| RunnerProperties.VisitEvents | src/Linter/Linter.ts:630-644 | the callback over the visited nodes delivers only microtask calls with the child's passage name; only the parallel one can throw |
| RunnerProperties.WalkChildPassesVisits | src/Linter/Linter.ts:620-652 | every microtask call of a child's walk passes a node the recurser visited, given the walker, with the child's passage name |
| RunnerProperties.WalkEvents | src/Linter/Linter.ts:622-653 | a walk makes only microtask calls, into the shared fragment for all tasks or into task ii's chamber for task ii alone; only a parallel walk can throw, and only for a missing `executeMicrotask` |
| RunnerProperties.PhaseEvents | src/Linter/Linter.ts:594-597 | a phase calls only its own hook, each task with the chamber it is given, and throws only for a missing hook |
| RunnerProperties.ExecuteIsolatedEvents | src/Linter/Linter.ts:716-762 | task ii's execute step calls only into chamber ii on behalf of task ii, calls `execute` exactly when it has one, and fails as task-invalid exactly when it has neither hook |
| RunnerProperties.IsolatedEvents | src/Linter/Linter.ts:715-763 | in the isolation execute `forEach` each task's calls go into its own chamber, and a task gets `execute` exactly when it has one, microtasks otherwise |
| RunnerProperties.ExecuteIsolatedError | src/Linter/Linter.ts:716-762 | task ii's step fails as task-invalid exactly when the task has neither hook, and never with another stage's error |
| RunnerProperties.FirstHookless | src/Linter/Linter.ts:717-761 | the first task with neither `execute` nor `executeMicrotask`, every earlier one having one, or the end |
| RunnerProperties.IsolatedTaskInvalid | src/Linter/Linter.ts:715-763 | when the isolation `forEach` throws the task-invalid error, some task has neither hook |
| RunnerProperties.IsolatedInvalidStep | src/Linter/Linter.ts:715-763 | the task-invalid error from task i on is task i's own, or comes from the tasks after it |
| RunnerProperties.IsolatedExecuteCalled | src/Linter/Linter.ts:715-763 | when the isolation `forEach` completes, every task that has `execute` had it called with its own chamber |
| RunnerProperties.ThenOrdered | src/Linter/Linter.ts:594-673 | chaining an ordered run and a stretch of a later phase stays in phase order |
| RunnerProperties.ThenAssociative | src/Linter/Linter.ts:594-673 | chaining stages is associative |
| RunnerProperties.PhaseOrderedAlone | src/Linter/Linter.ts:594-597 | a phase's calls all belong to that phase |
| RunnerProperties.CompletionOrdered | src/Linter/Linter.ts:655-673 | the completion phases appended to a run that ends by the execute phase keep phase order |
| RunnerProperties.StagesOrdered | src/Linter/Linter.ts:594-673 | set-up, an execute stage, then completion: the calls come in phase order |
| RunnerProperties.SetUpOrdered | src/Linter/Linter.ts:594-612 | the four set-up phases come in order |
| RunnerProperties.ParallelExecuteEvents | src/Linter/Linter.ts:614-653 | the parallel execute stage makes only microtask calls into the shared fragment and raises only its own errors |
| RunnerProperties.ParallelExecuteWithin | src/Linter/Linter.ts:614-653 | the parallel execute stage's calls all belong to the execute phase and go to the shared fragment |
| RunnerProperties.ThenSharedCalls | src/Linter/Linter.ts:594-673 | chaining two runs that use only the shared fragment uses only the shared fragment |
| RunnerProperties.PhaseSharedCalls | src/Linter/Linter.ts:594-597 | a parallel phase hands every task the shared fragment |
| RunnerProperties.SetUpSharedCalls | src/Linter/Linter.ts:594-612 | the parallel set-up hands every task the shared fragment |
| RunnerProperties.CompletionSharedCalls | src/Linter/Linter.ts:655-673 | the parallel completion hands every task the shared fragment |
| RunnerProperties.ParallelRunWithOrdered | src/Linter/Linter.ts:584-676 | given its merge, the parallel runner calls the phases in order |
| RunnerProperties.ParallelRunWithShared | src/Linter/Linter.ts:584-676 | given its merge, the parallel runner uses only the shared fragment and never calls `execute` |
| RunnerProperties.ParallelRunEvents | src/Linter/Linter.ts:578-676 | `runTasksInParallel` calls the phases in order, gives every task the one shared fragment, and never calls a task's `execute` |
| RunnerProperties.ThenOwnChamberCalls | src/Linter/Linter.ts:695-783 | chaining two runs that keep each task in its own chamber keeps it so |
| RunnerProperties.PhaseOwnChamberCalls | src/Linter/Linter.ts:695-698 | an isolation phase hands task ii chamber ii |
| RunnerProperties.SetUpOwnChamberCalls | src/Linter/Linter.ts:695-713 | the isolation set-up hands task ii chamber ii |
| RunnerProperties.CompletionOwnChamberCalls | src/Linter/Linter.ts:765-783 | the isolation completion hands task ii chamber ii |
| RunnerProperties.IsolatedWithin | src/Linter/Linter.ts:715-763 | the isolation execute stage's calls all belong to the execute phase |
| RunnerProperties.IsolationRunWithOrdered | src/Linter/Linter.ts:684-786 | given its merge, the isolation runner calls the phases in order |
| RunnerProperties.IsolationRunWithOwnChambers | src/Linter/Linter.ts:684-786 | given its merge, the isolation runner keeps every task in its own chamber |
| RunnerProperties.IsolationRunEvents | src/Linter/Linter.ts:678-786 | `runTasksInIsolation` calls the phases in order, gives task ii chamber ii throughout, calls `execute` only for tasks that have it and delivers microtasks only to tasks that do not |
| Lint.StoryDataOf | src/Linter/Linter.ts:218-245 | the story data that passes is always element-like; a value that is not a string passes exactly when it is element-like, and then unchanged; the empty string, a getter that is not a function and a getter product that is not a document each throw |
| Lint.Lint | src/Linter/Linter.ts:208-302 | reference definition of `lint` |
| Lint.TasksError | src/Linter/Linter.ts:249-279 | reference definition of the task checks: array-likeness, emptiness, then each task `forEach` visits, holes skipped |
| Lint.LintTail | src/Linter/Linter.ts:289-302 | reference definition of stage two, the chambers and `runTasks` |
| Lint.TaskErrorFrom | src/Linter/Linter.ts:271-279 | the first bad task's error is the invalid-task or the no-execute-method error |
| Lint.Elements | src/Linter/Linter.ts:282-285 | `.filter(isIElementLike)` keeps only element-like values, all drawn from the filtered children |
| Lint.CloneNode | src/Linter/Linter.ts:298 | a shallow `cloneNode()` of the fragment has no children |
| Lint.Chambers | src/Linter/Linter.ts:296-299 | the chambers are the stage-two fragment followed by `clones` shallow clones of it, `clones + 1` in all |
| Lint.CheckTaskList | src/Linter/Linter.ts:249-279 | the task checks, step by step, reach the verdict of the reference definition `TasksError` |
| Lint.CheckTasks | src/Linter/Linter.ts:271-279 | the `forEach` check, step by step, stops at the first bad task with that task's error |
| Lint.BuildChambers | src/Linter/Linter.ts:296-299 | the chamber loop builds exactly the fragment followed by one clone per pass |
| Lint.CountBelowCounts | src/Linter/Linter.ts:297 | the loop `for (ii = 1; ii < len; ...)` runs once for each whole `k >= 1` below `len` |
| Lint.LintStory | src/Linter/Linter.ts:208-302 | `lint`, step by step, returns the result and hook calls of the reference definition `Lint` |
| Lint.LintCopy | src/Linter/Linter.ts:218-302 | once the options are merged, the step-by-step `lint` agrees with the reference definition |
| Lint.LintFromStageOne | src/Linter/Linter.ts:288-302 | from `generateIRStageOne` on, the step-by-step `lint` agrees with the reference definition |
| Lint.LintFromStageTwo | src/Linter/Linter.ts:289-302 | from `len` on, the step-by-step `lint` agrees with the reference definition |
| Lint.TaskChecksInOrder | src/Linter/Linter.ts:249-279 | tasks that are not array-like (their `length` read through JavaScript's `Number` conversion) throw the tasks-invalid error exactly; an array-like whose `length` is the number 0 throws the tasks-empty error exactly; otherwise the verdict is the first bad task's |
| Lint.CheckedLengthIsFinite | src/Linter/Linter.ts:249-299 | a checked task list's `length` converts to a finite number >= 0, so the chamber loop ends after that many passes |
| Lint.OneTaskListReads | src/Linter/Linter.ts:249-279 | an object with the four methods, `length` "1" and one item at "0" is array-like, and both `Array.from` and `forEach` read it as that one item |
| Lint.HoleSkippedByTaskChecks | src/Linter/Linter.ts:249-279 | `{length: 2, "0": task}` with the four methods and an `execute` task passes the checks, because `forEach` skips the hole at 1, which `Array.from` reads as `undefined` and the check would refuse |
| Lint.StringLengthTasksChecked | src/Linter/Linter.ts:249-279 | such a task list with a task that has `execute` passes the task checks |
| Lint.ExecuteOnlyTaskBreaksParallelCallback | src/Linter/Linter.ts:271-279 | a task with `execute` and no `executeMicrotask` passes the task checks, yet the parallel callback as written throws at it |
| Lint.CheckedTasksServedInParallel | src/Linter/Linter.ts:271-279 | with the correction, for tasks that pass the checks the callback never throws, a task gets `execute` exactly when it has one, and the visited node exactly when it has none |
| Lint.TaskListAccepted | src/Linter/Linter.ts:271-279 | the tasks pass exactly when every one is a truthy object with `execute` or `executeMicrotask`; a failure is some task's own error |
| Lint.ChamberCount | src/Linter/Linter.ts:289-299 | `tasks.length` chambers when the merged `runInIsolation` is `true`, one otherwise; the first is the fragment and every clone is empty |
| Lint.StageOneAlwaysRefuses | src/Linter/Linter.ts:288 | `generateIRStageOne` is handed the filtered list and refuses it as not an element, before any hook runs |
| Lint.LintNeverRunsTasks | src/Linter/Linter.ts:208-302 | as written, `lint` throws on every input before any task hook is called |
| Lint.MergedLintNeverRunsTasks | src/Linter/Linter.ts:220-302 | once the options are merged, `lint` still throws before any task hook is called |
| Lint.DefaultIgnoresStopTheFilter | src/Linter/Linter.ts:281-285 | with the default ignore rules stored by the first merge, valid story data and tasks, `lint` fails in the filter's own merge |
| Lint.RemergeOfDefaultIgnoresFails | src/Linter/Linter.ts:213-216 | merging a copy that holds the default ignore rules as its own argument fails |
| LinterFactory.OptionsObject.constructor | src/Linter/linterFactory.ts:37 | a fresh options object holds exactly the properties it is given |
| LinterFactory.ResolveOne | src/Linter/linterFactory.ts:38-50 | a truthy option is used as given; a falsy one throws "not provided" unless the mode is exactly 'auto', in which case the detector's truthy answer is used and a falsy answer throws "not detected" |
| LinterFactory.Resolve | src/Linter/linterFactory.ts:38-69 | a resolved format and version are both truthy, and the parser factory does not throw for the format; its throw is the factory's error only once both resolved |
| LinterFactory.Written | src/Linter/linterFactory.ts:70-73 | the options afterwards hold the old keys plus the four written ones, the resolved format and version, and every other key unchanged |
| LinterFactory.Factory | src/Linter/linterFactory.ts:30-75 | `linterFactory` resolves against the caller's object (or a fresh `{}`) and builds the parser; on success it writes the four values into that same object, and on any failure, a throwing parser factory included, it leaves the object untouched |
| LinterFactory.WriteBack | src/Linter/linterFactory.ts:70-73 | the four writes leave the options equal to the reference definition `Written` |
| LinterFactory.FormatErrorWins | src/Linter/linterFactory.ts:38-66 | a format error is the factory's error, and a version error is reported only when the format resolved |
| LinterFactory.GivenValuesWin | src/Linter/linterFactory.ts:38-69 | a truthy format and version are used as given whatever the mode, the outcome then depending only on whether the parser factory throws for that format; the mode 'AUTO' is not 'auto', so a missing format then throws "not provided" |
| LinterFactory.NoOptionsNoFormat | src/Linter/linterFactory.ts:37-45 | without options the factory always throws the no-format error |
| LinterFactory.AutoDetects | src/Linter/linterFactory.ts:38-69 | under 'auto' with neither value given, the factory succeeds exactly when both detectors answer truthily and the parser factory accepts the detected format, and then with the detectors' answers |
| LinterFactory.DetectionModeWrittenBack | src/Linter/linterFactory.ts:72-73 | a truthy detection mode is written back as given, a falsy one as 'manual'; the document getter is copied over |
| LinterFactory.ParserErrorComesLast | src/Linter/linterFactory.ts:38-73 | the parser factory's throw is the factory's error exactly when both the format and the version resolved and the factory throws for that format |
| VariableUsageTask.AttributeOf | src/Task/VariableUsageTask.ts:26-28 | `getAttribute` yields a value exactly when the attribute is present, and then its value |
| VariableUsageTask.SetVariableName | src/Task/VariableUsageTask.ts:30-35 | a `(set:)` names a non-empty variable, read from the first element child's `data-name` |
| VariableUsageTask.IsSetTarget | src/Task/VariableUsageTask.ts:73-82 | a `tw-variable` is skipped exactly when its parent element is a `tw-invocation`, its next element sibling is a `tw-string`, and that sibling's text is 'to' or '=' (tags compared lower-cased); an error can arise only once the parent is a `tw-invocation` |
| VariableUsageTask.Classify | src/Task/VariableUsageTask.ts:23-71 | a node contributes only when it is an element, at its own `data-line-number`/`data-column-number` location, and under a non-empty variable name |
| VariableUsageTask.Pushed | src/Task/VariableUsageTask.ts:40-43 | `push` keeps the list and adds the location at its end |
| VariableUsageTask.Record | src/Task/VariableUsageTask.ts:37-111 | reference definition of recording one event for a passage, as written |
| VariableUsageTask.RecordCorrected | src/Task/VariableUsageTask.ts:37-98 | reference definition of recording with the definition branch testing `defines` |
| VariableUsageTask.Execute | src/Task/VariableUsageTask.ts:15-114 | reference definition of one `executeMicrotask` call |
| VariableUsageTask.VariableUsageTask.constructor | src/Task/VariableUsageTask.ts:14-15 | a new task holds the accumulator it is given |
| VariableUsageTask.VariableUsageTask.ExecuteMicrotask | src/Task/VariableUsageTask.ts:15-114 | `executeMicrotask` updates the accumulator to the reference definition `Execute`, or throws that definition's error and leaves the accumulator as it was |
| VariableUsageTask.OtherNodesIgnored | src/Task/VariableUsageTask.ts:23-112 | nodes that are not elements, and elements that are neither a `(set:)` nor a `tw-variable`, change nothing |
| VariableUsageTask.SetNamesFirstElementChild | src/Task/VariableUsageTask.ts:29-35 | a `(set:)` defines the first element child's `data-name`, at its own location, and throws exactly when there is no such child or name |
| VariableUsageTask.VariableWithoutNameThrows | src/Task/VariableUsageTask.ts:66-71 | a `tw-variable` without a `data-name` throws, before the skip test |
| VariableUsageTask.SetTargetSkipped | src/Task/VariableUsageTask.ts:73-82 | the target of a `(set: $x to ...)` leaves the accumulator alone |
| VariableUsageTask.VariableIsUse | src/Task/VariableUsageTask.ts:66-83 | a named `tw-variable` that is not a set target is a use of that name at its location |
| VariableUsageTask.NewPassageRecord | src/Task/VariableUsageTask.ts:52-65 | the first event for a passage creates a record with one list of one location, and every other passage is kept |
| VariableUsageTask.RedefinitionReplaces | src/Task/VariableUsageTask.ts:38-51 | as written, a definition in a recorded passage replaces the variable's list with a one-entry list instead of pushing onto it |
| VariableUsageTask.SecondDefinitionForgetsFirst | src/Task/VariableUsageTask.ts:38-51 | as written, a second definition of `x` in a passage leaves `[second]` where the corrected step leaves `[first, second]` |
| VariableUsageTask.CorrectedRecordAppends | src/Task/VariableUsageTask.ts:37-98 | with the correction, a definition or use in a recorded passage appends to its variable's list or starts one, and nothing else changes |
| VariableUsageTask.UseAppends | src/Task/VariableUsageTask.ts:84-98 | a use in a recorded passage appends to the variable's list or starts one, and leaves the definitions alone |
| VariableUsageTask.InheritedPassageThrows | src/Task/VariableUsageTask.ts:38 | a passage named after a key every object inherits, not yet recorded, makes every event throw |
| VariableUsageTask.RecordIsLocal | src/Task/VariableUsageTask.ts:37-111 | recording touches only the passage's own record and, in it, only the event's variable |
| VariableUsageTask.RecordKeepsWellFormed | src/Task/VariableUsageTask.ts:37-111 | recording keeps every location list non-empty |
| VariableUsageTask.ExecuteKeepsWellFormed | src/Task/VariableUsageTask.ts:15-114 | the task keeps every location list non-empty |

## Left out

- `src/modules/documentFactory.ts` and `src/modules/documentConstructor.ts` read the host's global `document`. They are not part of this model; the functions they return are parameters.
- The detectors, `semver`, the parsers, the AST node factory, the tree recurser and the HTML parser are uninterpreted functions in `Externals.Env`. The recurser is a function of what it is handed (its own identity, the merged format and version, the task options) and of the child: the callback calls it makes, in order, each with its node, format, version and options. No semver range semantics are built in.
- The `innerHTML` and `outerHTML` getters and setters and `__flushToHtml` need the HTML parser and serialiser. The `innerHTML` write and `querySelector` that `lint` makes on a string story form one parameter, so which element receives the markup (`documentElement` or a new `html` element) is not modelled.
- A caller-supplied `mergeOptions` function in the options (`Linter.ts:214`) runs arbitrary code. Only the built-in merger is modelled.
- `linterFactory` ends with `new Linter(parser, opts)`, whose arity does not match the constructor. `LinterFactory.Factory` returns the resolved format and version instead of a linter, and the `Linter` constructor is not modelled. Whether `parserFactory(format)` throws is a parameter; the parser it returns is not kept.
- Error messages are an error datatype per stage, not strings.
- The isolation runner merges `{}` over the baseline for the filter once per run. The source merges once per task. The merge is pure, so every task sees the same result.
- `ElementLike.TextContent`: recursion is bounded by a `fuel` parameter. With too little fuel it returns an error where the source would recurse further; on an arena whose child lists form a cycle the source never returns.
- Node identity is an arena id. Two JavaScript references to one object are the same id; objects outside the arena are not represented.
- `ClassListLike`, `MChildNodeLike` and the element setters call `setAttribute`, `insertBefore`, `removeChild` and `createTextNode` on other nodes. Their code is not part of this model; they are given the meaning that section 4.2.3 and section 4.9 of the WHATWG DOM Standard give them on the parent's `childNodes` and `children` and on attribute maps, with the exceptions listed next.
- What a task's hooks do is not modelled. A hook call is an event in the trace; the only throw modelled for it is the TypeError when the hook is not a function.
- Immutable.js lists in `ClassListLike` are sequences. A negative index counts back from the end, as in Immutable.js.
- NodeGraph.Inserted: no `NotFoundError` when the reference node is not a child of the parent (the node is appended instead), no `HierarchyRequestError` (inserting an ancestor or a document), and the node is not taken from another parent first nor given its new `parentNode`.
- NodeGraph.Graph.InsertBefore: the same gaps as `Inserted`, on the arena.
- NodeGraph.Graph.RemoveChild: no `NotFoundError` for a node that is not a child (the call changes nothing), and the removed node's `parentNode` is not cleared.
- PlacesBefore: proved only for contents new to the parent's list and distinct from each other (`FreshFor`); moving a node that is already a child is not covered, except the node-onto-itself case (`InsertBeforeItselfStays`).
- PlacesAtEnd: proved only under `FreshFor`; appending a node that is already a child is not covered.
- BeforePlacesContents: proved only under `FreshFor`; `before` with an existing child among the contents is not covered.
- AfterPlacesContents: proved only under `FreshFor`; `after` of an existing sibling is not covered, except `a.after(b)` with `b` the next sibling (`MovingOntoItselfStays`).
- ReplaceWithTakesPlace: proved only under `FreshFor`; `replaceWith` with an existing sibling among the contents is not covered, except the next sibling itself (`MovingOntoItselfStays`).
- Text.ToLower: ASCII letters only. JavaScript's `toLowerCase` also maps other letters ('É' to 'é', the Kelvin sign U+212A to 'k', and 'İ' to two characters, which changes the length), so a tag, mode or format written with such a letter compares differently.
- ToNumber: numbers are exact reals, not rounded to doubles, and a plain object's own `valueOf` or `toString` is not consulted (its conversion is NaN).
- ArrayFrom: `Array.from` throwing `RangeError` for a length above 2^32 - 1 is not modelled.
- Present: an array-like object's own `forEach`, `filter` and `indexOf` are taken to behave as `Array.prototype`'s do (indexes 0 to `length - 1`, holes skipped), which `Lint.TasksError`, the runners, the `TypeGuards` guards and `NodeFilter` rely on; a property inherited from a prototype is not seen.
- TaskRunners.IsolationRun: the runners take the tasks `forEach` visits as a list, so with a hole in the task list the task after it is numbered one lower and its isolation chamber is the one of that lower index, where `forEach((task, ii) => …)` passes the original index.
- Clones: a `length` of positive infinity gives 0 passes, where the loop would not end; a checked task list never has one (`Lint.CheckedLengthIsFinite`).
- The corrected parallel stage is given as its callback (`Lifecycle.FanOutCorrectedFrom`) and its `execute` calls (`Lifecycle.ExecuteCallsFrom`); where the `execute` calls fall relative to the walk is not fixed, because the source does not say.
- Lint.LintNeverRunsTasks has no corrected counterpart: the code does not show whether stage one was meant to receive the story element or to accept a list.

## Findings

| source | as written | input that shows it | evidently intended | confidence | as-written member | corrected member |
|---|---|---|---|---|---|---|
| src/NodeLike/ParentNodeLike/ElementLike/ElementLike.ts:112-129 | the `id` and `className` setters call `set` on the immutable attribute map and drop the updated copy | `el.id = 'main'` on an element without an `id`, then `el.id` reads '' | the setter stores the attribute, and the getter reads it back | not executed | ElementLike.SetterAsWrittenLosesValue | ElementLike.AttributeRoundTrip |
| src/Task/VariableUsageTask.ts:39 | a `(set:)` in a passage already recorded tests `variableName in accumulator[passageName]`, the record, not its `defines`, and replaces the list with a one-entry list | `(set: $x to 1)` then `(set: $x to 2)` in one passage: `defines.x` keeps only the second location | push onto `defines[variableName]` as the use branch does for `usages` | not executed | VariableUsageTask.SecondDefinitionForgetsFirst | VariableUsageTask.CorrectedRecordAppends |
| src/TypeGuards/isArrayLikeObject.ts:5-14 | the guard is the negation of its name: it returns `true` when any array-like test fails | `isArrayLikeObject([])` is `false`, `isArrayLikeObject(null)` is `true` | `true` exactly for a truthy object with a whole `length` >= 0 and the four array methods | not executed | TypeGuards.ArraysFailArrayLikeGuard | TypeGuards.ArraysAreArrayLike |
| src/TypeGuards/isIIgnores.ts:49-84 | each string list must have zero items that are non-empty strings, the opposite of the comment "all of the items ... are strings with content" | the default `constants.ignores`, whose `elementTags` are "script" and "style", is refused | every item is a non-empty string | not executed | TypeGuards.DefaultIgnoresFailGuard | TypeGuards.DefaultIgnoresPassCorrectedGuard |
| src/NodeLike/ParentNodeLike/ElementLike/ClassListLike/ClassListLike.ts:28-40 | `add` looks each argument up among the arguments themselves, finds it, and never pushes | `add('b')` on the classes `a` leaves `a` | append each argument that is not yet a class | not executed | ClassListLike.ClassList.Add | ClassListLike.AddedCorrectedDistinct |
| src/NodeLike/ParentNodeLike/ElementLike/ClassListLike/ClassListLike.ts:61-72 | `toggle` tests `indexOf(...) === -1` the wrong way round: an absent class deletes index -1, the last class, and a present one is pushed again | `toggle('b')` on `a` leaves no class; `toggle('a')` on `a` leaves `a a` | add an absent class, remove a present one | not executed | ClassListLike.ToggleAbsentDropsLast | ClassListLike.ToggleCorrectedFlips |
| src/Linter/Linter.ts:636-643 | the parallel callback calls every task's `executeMicrotask`, while `lint` (Linter.ts:271-279) accepts a task with only `execute` | a task `{execute}` run in parallel: the first visited node throws a `TypeError` | serve each task as the isolation runner does: `execute` when it has one, microtasks otherwise | not executed | Lint.ExecuteOnlyTaskBreaksParallelCallback | Lint.CheckedTasksServedInParallel |
| src/IntermediateRepresentationGenerator/DocumentFragmentIntermediateRepresentationGenerator.ts:29-37 | stage two builds its document from the `documentConstructor` option, which `mergeOptions` never sets | any `lint` whose stored options lack `documentConstructor`: stage two always throws | read the merged `documentGetter` | not executed | DocumentFragmentIntermediateRepresentationGenerator.MergedOptionsBuildNoDocument | DocumentFragmentIntermediateRepresentationGenerator.CorrectedStageUsesMergedGetter |
