# Redundant labels and the degrade script, in Dafny

This project models two parts of the Kotlin repository.

**The REDUNDANT_LABEL_WARNING checker of the K2 front end** (`FirRedundantLabelChecker`).
- A declaration is checked only if it is a *root label container* (`isRootLabelContainer`).
- The check collects every label written on a labeled expression (`l@ ...`) in the
  declaration's syntax tree. It does this in one of two ways:
  - the light-tree check walks from *traversal roots* that the resolved (FIR) tree
    supplies, and skips a nested root;
  - the PSI check walks the whole subtree.
- It then walks the resolved tree and removes every label that a labeled `return`, a
  labeled `break`/`continue` or a `this@l` resolves to.
- It reports each label that is left, once, in insertion order.

How the checker is modelled:
- Syntax trees, resolved trees and source elements are values (`SyntaxNode`,
  `FirElement`, `SourceElement`).
- The mutable label sets are a `SourceSet` class over a duplicate-free `seq`, which is
  Kotlin's insertion-ordered `mutableSetOf`.
- The diagnostic reporter is a `Reporter` class holding the warnings reported so far.
- The visitors and `collectLabels` are recursive methods with loops over the children.
  Each is proved against a function that says what it collects (`LabelsBelow`,
  `PsiLabels`, `RootCandidates`, `ReferencedLabels`).
- Lemmas then relate those functions:
  - the report is "collected minus referenced", each label once;
  - the traversal roots are exactly the marked elements;
  - when the declaration's source is itself a traversal root and every root lies
    in its subtree, the two back ends collect the same labels (this leaves out an
    anonymous initializer or an error function, whose source is never marked as a
    root);
  - a label that a labeled return, jump or `this` reached by the walk resolves to is
    never reported;
  - every label passed to the action comes from a labeled return, jump or `this`.
- `LabelExamples` works two declarations of the diagnostic test data through both
  checks.

**The `degrade` Gradle init script** (`degrade.init.gradle.kts`).
- It scans each task's standard output for Kotlin/Native launcher runs:
  - the `Main class = …MainKt` or `Entry point method = …MainKt.` banner;
  - the `Transformed arguments = ` block up to the `]` line.
- It writes one shell script per task that re-runs those commands.
- It writes the aggregate scripts `rerun-all.sh` and `rerun-failed.sh`.

How the script is modelled:
- The parser reads the output lines as a `seq<string>` through an index, where the
  source pulls them from an iterator. It is proved equal to `Commands`, a reference
  definition of what the parse yields.
- The script writers append text line by line and are proved to produce the
  newline-terminated lines of `TaskScriptLines` / `AggregateScriptLines`.
- `ScriptRegistry` is a class holding the `allScripts` and `failedScripts` lists that
  `register` keeps.

Files:
- `wrappers.dfy`: `Option`.
- `linked_sets.dfy`: insertion-ordered sets as sequences (`LinkedSets`).
- `redundant_labels.dfy`: the checker (`RedundantLabels`).
- `label_examples.dfy`: the test-data declarations (`LabelExamples`).
- `degrade.dfy`: the init script (`Degrade`).

## Model

| member | source | states |
|---|---|---|
| RedundantLabels.IsRootLabelContainer | compiler/fir/checkers/src/org/jetbrains/kotlin/fir/analysis/checkers/syntax/FirRedundantLabelChecker.kt:155-170 | false for a fake source, for a callable whose effective visibility is Local, and for an anonymous function; a property, simple function, accessor, constructor or error function with a non-fake source qualifies exactly when its visibility is not Local; an anonymous initializer qualifies exactly when its containing class is a regular class with non-Local visibility; nothing else qualifies |
| RedundantLabels.FindChildByType | compiler/fir/checkers/src/org/jetbrains/kotlin/fir/analysis/checkers/syntax/FirRedundantLabelChecker.kt:113-115 | the result is the first non-null child of the requested type, and it is absent exactly when no child has that type |
| RedundantLabels.ChildSource | compiler/fir/checkers/src/org/jetbrains/kotlin/fir/analysis/checkers/syntax/FirRedundantLabelChecker.kt:116 | the source element built for a child node is that node with a real source kind, for the light tree here and at :124, and for PSI at :142 |
| RedundantLabels.LabelOf | compiler/fir/checkers/src/org/jetbrains/kotlin/fir/analysis/checkers/syntax/FirRedundantLabelChecker.kt:112-119 | at most one label; one exactly when the node is a LABELED_EXPRESSION with a LABEL_QUALIFIER child that has a LABEL child; the label is the real source of that LABEL node: the first LABEL child of the first LABEL_QUALIFIER child |
| RedundantLabels.RootMark | compiler/fir/checkers/src/org/jetbrains/kotlin/fir/analysis/checkers/syntax/FirRedundantLabelChecker.kt:82-87 | an element marks a root exactly when it is a block, property, simple function, accessor or constructor whose source is real; the root is that source |
| RedundantLabels.MarkTraversalRoot | compiler/fir/checkers/src/org/jetbrains/kotlin/fir/analysis/checkers/syntax/FirRedundantLabelChecker.kt:82-87 | the root set becomes the old set with the element's real source added |
| RedundantLabels.MarkTraversalRoots | compiler/fir/checkers/src/org/jetbrains/kotlin/fir/analysis/checkers/syntax/FirRedundantLabelChecker.kt:52-88 | after the marking visitor the root set is the old set extended, in visiting order, with the marked sources of the subtree |
| RedundantLabels.RootCandidatesAreMarkedRoots | compiler/fir/checkers/src/org/jetbrains/kotlin/fir/analysis/checkers/syntax/FirRedundantLabelChecker.kt:57-87 | a source is visited as a root exactly when some element of the tree is a block, property, simple function, accessor or constructor with that real source |
| RedundantLabels.TraversalRootsAreMarkedRoots | compiler/fir/checkers/src/org/jetbrains/kotlin/fir/analysis/checkers/syntax/FirRedundantLabelChecker.kt:49-88 | `allTraversalRoots` holds each marked root once, and nothing else |
| RedundantLabels.AddLabel | compiler/fir/checkers/src/org/jetbrains/kotlin/fir/analysis/checkers/syntax/FirRedundantLabelChecker.kt:112-119 | the labeled-expression step adds the node's label, if any, and nothing else |
| RedundantLabels.CollectLabels | compiler/fir/checkers/src/org/jetbrains/kotlin/fir/analysis/checkers/syntax/FirRedundantLabelChecker.kt:104-126 | the set becomes the old set extended with the labels below the source: nothing for a child node that is a traversal root, otherwise the node's own label followed by the labels below each non-null child |
| RedundantLabels.CollectFromRoots | compiler/fir/checkers/src/org/jetbrains/kotlin/fir/analysis/checkers/syntax/FirRedundantLabelChecker.kt:90-94 | every traversal root, in order, is walked as a starting root |
| RedundantLabels.LabelsBelowArePsiLabels | compiler/fir/checkers/src/org/jetbrains/kotlin/fir/analysis/checkers/syntax/FirRedundantLabelChecker.kt:104-126 | every label the light-tree walk finds is one the PSI walk finds |
| RedundantLabels.LightTreeIsPsiWithoutNestedRoots | compiler/fir/checkers/src/org/jetbrains/kotlin/fir/analysis/checkers/syntax/FirRedundantLabelChecker.kt:110 | without a traversal root below the start, the light-tree walk finds the same labels as the PSI walk in the same order: only the double-traversal guard makes them differ |
| RedundantLabels.PsiLabelIsBelowOrInNestedRoot | compiler/fir/checkers/src/org/jetbrains/kotlin/fir/analysis/checkers/syntax/FirRedundantLabelChecker.kt:110-125 | a PSI label below a node is found by the light-tree walk from it, unless it lies below a nested traversal root |
| RedundantLabels.LightTreeFindsPsiLabel | compiler/fir/checkers/src/org/jetbrains/kotlin/fir/analysis/checkers/syntax/FirRedundantLabelChecker.kt:92-94 | a skipped label is not lost: every PSI label below a root is found by the walk from some root |
| RedundantLabels.LabelsFromRootsMembers | compiler/fir/checkers/src/org/jetbrains/kotlin/fir/analysis/checkers/syntax/FirRedundantLabelChecker.kt:92-94 | the collected labels are exactly those found below some root |
| RedundantLabels.BackendsCollectTheSameLabels | compiler/fir/checkers/src/org/jetbrains/kotlin/fir/analysis/checkers/syntax/FirRedundantLabelChecker.kt:90-101 | when the declaration's source is a traversal root and every root lies in its subtree, the light-tree and PSI checks collect, and report, the same labels |
| RedundantLabels.BackendsAgreeWithSingleRoot | compiler/fir/checkers/src/org/jetbrains/kotlin/fir/analysis/checkers/syntax/FirRedundantLabelChecker.kt:137-152 | with the declaration's source as the only root, both checks report the same labels in the same order |
| RedundantLabels.CollectPsiLabels | compiler/fir/checkers/src/org/jetbrains/kotlin/fir/analysis/checkers/syntax/FirRedundantLabelChecker.kt:140-145 | the set becomes the old set extended with the label of every labeled expression of the subtree, in preorder |
| RedundantLabels.AddTargetLabel | compiler/fir/checkers/src/org/jetbrains/kotlin/fir/analysis/checkers/syntax/FirRedundantLabelChecker.kt:142 | the target label of a labeled expression, if it has one, is added |
| RedundantLabels.ReturnLabels | compiler/fir/checkers/src/org/jetbrains/kotlin/fir/analysis/checkers/syntax/FirRedundantLabelChecker.kt:178-187 | an unlabeled return marks nothing; a labeled return to an anonymous function marks that function's label; to an error function it marks the diagnostic's label only for a not-a-function-label error; at most one label, and a marked label is exactly one of those two, so a labeled return to an anonymous function without a label marks nothing |
| RedundantLabels.VisitReturn | compiler/fir/checkers/src/org/jetbrains/kotlin/fir/analysis/checkers/syntax/FirRedundantLabelChecker.kt:178-185 | removes from the set the sources of exactly the labels `ReturnLabels` marks |
| RedundantLabels.JumpLabels | compiler/fir/checkers/src/org/jetbrains/kotlin/fir/analysis/checkers/syntax/FirRedundantLabelChecker.kt:197-208 | an unlabeled break or continue marks nothing; an error-loop target marks the diagnostic's label only for jump-outside-loop and not-a-loop-label errors; any other target marks its own label; a marked label is exactly the loop's label or the diagnostic's label, so an unlabelled loop or a diagnostic without a label marks nothing |
| RedundantLabels.VisitLoopJump | compiler/fir/checkers/src/org/jetbrains/kotlin/fir/analysis/checkers/syntax/FirRedundantLabelChecker.kt:189-208 | removes the sources of exactly the labels `JumpLabels` marks |
| RedundantLabels.ThisLabels | compiler/fir/checkers/src/org/jetbrains/kotlin/fir/analysis/checkers/syntax/FirRedundantLabelChecker.kt:210-216 | `this@x` marks a label exactly when it is bound to an anonymous function with a label named `x`, and then marks that label |
| RedundantLabels.VisitThis | compiler/fir/checkers/src/org/jetbrains/kotlin/fir/analysis/checkers/syntax/FirRedundantLabelChecker.kt:210-216 | removes the sources of exactly the labels `ThisLabels` marks |
| RedundantLabels.MarkUsed | compiler/fir/checkers/src/org/jetbrains/kotlin/fir/analysis/checkers/syntax/FirRedundantLabelChecker.kt:97 | the action removes the label's source, if it has one |
| RedundantLabels.VisitHandler | compiler/fir/checkers/src/org/jetbrains/kotlin/fir/analysis/checkers/syntax/FirRedundantLabelChecker.kt:178-216 | the overridden visit of an element removes the labels its handler marks |
| RedundantLabels.VisitReferencedLabels | compiler/fir/checkers/src/org/jetbrains/kotlin/fir/analysis/checkers/syntax/FirRedundantLabelChecker.kt:172-218 | the set loses the sources of all labels referenced in the tree, in visiting order; loop jumps and `this` references do not visit their children |
| RedundantLabels.VisitChildren | compiler/fir/checkers/src/org/jetbrains/kotlin/fir/analysis/checkers/syntax/FirRedundantLabelChecker.kt:174-176 | visiting the children removes the labels referenced below each child, in order |
| RedundantLabels.ReferencedLabelsComeFromHandlers | compiler/fir/checkers/src/org/jetbrains/kotlin/fir/analysis/checkers/syntax/FirRedundantLabelChecker.kt:172-218 | every label passed to the action comes from a labeled return, a labeled break or continue, or a `this` reference in the tree |
| RedundantLabels.ReferencedLabelsAreVisitedHandlerLabels | compiler/fir/checkers/src/org/jetbrains/kotlin/fir/analysis/checkers/syntax/FirRedundantLabelChecker.kt:172-218 | a label is passed to the action exactly when the handler of some element the walk reaches passes it; the walk reaches every element except those below a break, a continue or a `this` reference |
| RedundantLabels.UsedLabelIsNotReported | compiler/fir/checkers/src/org/jetbrains/kotlin/fir/analysis/checkers/syntax/FirRedundantLabelChecker.kt:96-101 | the source of a label that a labeled return, a labeled break or continue, or a `this` reference reached by the walk resolves to is reported by neither check |
| RedundantLabels.Warnings | compiler/fir/checkers/src/org/jetbrains/kotlin/fir/analysis/checkers/syntax/FirRedundantLabelChecker.kt:99-101 | one REDUNDANT_LABEL_WARNING per label, in order |
| RedundantLabels.Reporter.ReportOn | compiler/fir/checkers/src/org/jetbrains/kotlin/fir/analysis/checkers/syntax/FirRedundantLabelChecker.kt:100 | reporting on a label appends exactly one REDUNDANT_LABEL_WARNING on that label's source, as at :151 for PSI, and changes nothing else |
| RedundantLabels.ReportAll | compiler/fir/checkers/src/org/jetbrains/kotlin/fir/analysis/checkers/syntax/FirRedundantLabelChecker.kt:99-101 | the reporter receives one warning per unused label, in the set's order |
| RedundantLabels.CheckLightTree | compiler/fir/checkers/src/org/jetbrains/kotlin/fir/analysis/checkers/syntax/FirRedundantLabelChecker.kt:40-102 | the reporter receives exactly the warnings for `LightTreeUnusedLabels`: nothing if the declaration is not a root label container, else the collected labels minus the referenced ones |
| RedundantLabels.CheckPsi | compiler/fir/checkers/src/org/jetbrains/kotlin/fir/analysis/checkers/syntax/FirRedundantLabelChecker.kt:128-153 | for a declaration whose source is the PSI source the check is given, the reporter receives exactly the warnings for `PsiUnusedLabels` |
| RedundantLabels.LightTreeReportIsCollectedMinusReferenced | compiler/fir/checkers/src/org/jetbrains/kotlin/fir/analysis/checkers/syntax/FirRedundantLabelChecker.kt:90-101 | the light-tree report has no duplicates, and a label is in it exactly when the declaration is a root label container, the label was collected, and no referenced label has it as source |
| RedundantLabels.PsiReportIsCollectedMinusReferenced | compiler/fir/checkers/src/org/jetbrains/kotlin/fir/analysis/checkers/syntax/FirRedundantLabelChecker.kt:137-152 | the same for the PSI report |
| RedundantLabels.WithoutReferencesEveryLabelIsReported | compiler/fir/checkers/src/org/jetbrains/kotlin/fir/analysis/checkers/syntax/FirRedundantLabelChecker.kt:90-101 | with no labeled return, labeled jump or `this` reference, every collected label is reported |
| RedundantLabels.SourceSet.Add | compiler/fir/checkers/src/org/jetbrains/kotlin/fir/analysis/checkers/syntax/FirRedundantLabelChecker.kt:85 | `add` appends an element only when it is absent, and the set keeps holding each element once |
| RedundantLabels.SourceSet.Remove | compiler/fir/checkers/src/org/jetbrains/kotlin/fir/analysis/checkers/syntax/FirRedundantLabelChecker.kt:97 | `-=` drops the element and keeps the order of the rest, and the set keeps holding each element once |
| LinkedSets.AddAllProperties | compiler/fir/checkers/src/org/jetbrains/kotlin/fir/analysis/checkers/syntax/FirRedundantLabelChecker.kt:90 | adding keeps the set duplicate-free; its members are the old ones plus the added ones, so the set only grows |
| LinkedSets.RemoveAllProperties | compiler/fir/checkers/src/org/jetbrains/kotlin/fir/analysis/checkers/syntax/FirRedundantLabelChecker.kt:97 | removing keeps the set duplicate-free; its members are the old ones minus the removed ones |
| LabelExamples.LambdaLabelIsRedundant | compiler/testData/diagnostics/tests/controlStructures/redundantLabel.fir.kt:5 | both checks report the label `l` of `fun testLambdaLabel() = l@ { 42 }`, once |
| LabelExamples.X4LambdaLabelIsRedundant | compiler/testData/diagnostics/tests/inference/lambdaArgumentWithLabel.fir.kt:22-26 | `return@run` does not use `lambda@`, and both checks report it |
| Degrade.TrimStart | kotlin-native/tools/degrade/degrade.init.gradle.kts:130 | `trimStart` never lengthens a line, and what it leaves is empty or starts with a character that is not whitespace |
| Degrade.TrimStartIsSuffix | kotlin-native/tools/degrade/degrade.init.gradle.kts:130 | `trimStart` drops a whitespace prefix and keeps the rest of the line |
| Degrade.SplitLines | kotlin-native/tools/degrade/degrade.init.gradle.kts:90 | `split('\n')` yields at least one piece, and no piece contains a newline |
| Degrade.JoinSplitLines | kotlin-native/tools/degrade/degrade.init.gradle.kts:90 | splitting a task's output at newlines loses nothing: joining the lines gives the output back |
| Degrade.SplitUnlines | kotlin-native/tools/degrade/degrade.init.gradle.kts:145-156 | a written script read back at newlines gives its lines and a final empty piece |
| Degrade.KindOf | kotlin-native/tools/degrade/degrade.init.gradle.kts:124-129 | a line is a banner, an arguments header or the `]` line exactly when it matches that recogniser |
| Degrade.RecognisersDisjoint | kotlin-native/tools/degrade/degrade.init.gradle.kts:124-129 | no line matches two of the recognisers |
| Degrade.RecognisedLines | kotlin-native/tools/degrade/degrade.init.gradle.kts:124-129 | the `Main class` banner matches only exactly; the entry-point banner needs the dot after the class name; the header is a prefix test and needs its trailing space; the `]` line is compared untrimmed |
| Degrade.ParseKotlinNativeCommands | kotlin-native/tools/degrade/degrade.init.gradle.kts:119-137 | the result of the line-by-line loop is `Commands` of the whole output |
| Degrade.ReadCommand | kotlin-native/tools/degrade/degrade.init.gradle.kts:127-133 | a banner yields the command whose arguments are read after it, and parsing resumes at the first unread line |
| Degrade.SkipPastHeader | kotlin-native/tools/degrade/degrade.init.gradle.kts:128 | reading resumes after the first arguments header, or at the end if there is none |
| Degrade.TakeArguments | kotlin-native/tools/degrade/degrade.init.gradle.kts:129-131 | the arguments are the trimmed lines up to the first `]`, which is consumed too |
| Degrade.NoCommandsIffNoBanner | kotlin-native/tools/degrade/degrade.init.gradle.kts:122-125 | the output holds a command exactly when it holds a banner line |
| Degrade.CommandsOfBlock | kotlin-native/tools/degrade/degrade.init.gradle.kts:122-133 | lines before the first banner are skipped; a banner, a header and a `]` give one command whose arguments are the trimmed lines strictly between header and `]`, and parsing resumes after the `]` |
| Degrade.CommandsOfBannerWithoutArguments | kotlin-native/tools/degrade/degrade.init.gradle.kts:127-131 | a banner with no later header yields one command with no arguments and ends parsing |
| Degrade.CommandsAtMostBanners | kotlin-native/tools/degrade/degrade.init.gradle.kts:120-136 | there are at most as many commands as banner lines: banners consumed inside an argument block start none |
| Degrade.CommandArgumentsAreTrimmedLines | kotlin-native/tools/degrade/degrade.init.gradle.kts:127-131 | every argument is the trimmed form of some output line |
| Degrade.ScriptName | kotlin-native/tools/degrade/degrade.init.gradle.kts:97 | the script name is the task path without its first character, each `:` replaced by `_`, then `.sh`; an empty path has no name |
| Degrade.ScriptNameHasNoColon | kotlin-native/tools/degrade/degrade.init.gradle.kts:97 | a script name carries no colon |
| Degrade.AppendLine | kotlin-native/tools/degrade/degrade.init.gradle.kts:100 | `appendLine` adds the line and one newline, so the text grows by exactly that line's `Unlines` |
| Degrade.AppendArguments | kotlin-native/tools/degrade/degrade.init.gradle.kts:104-110 | each argument is indented by four spaces and every one but the last is followed by ` \` and a newline; the last line is left open |
| Degrade.AppendCommand | kotlin-native/tools/degrade/degrade.init.gradle.kts:103-112 | one command is the launcher line, its argument lines and an empty line |
| Degrade.AppendCommands | kotlin-native/tools/degrade/degrade.init.gradle.kts:102-113 | the commands are written in order |
| Degrade.AppendShellHeader | kotlin-native/tools/degrade/degrade.init.gradle.kts:149-151 | every script starts with `#!/bin/sh`, `set -e` and an empty line |
| Degrade.WriteTaskScript | kotlin-native/tools/degrade/degrade.init.gradle.kts:99-114 | the task script is the header, the `kotlinNativeDist` line, an empty line and the commands |
| Degrade.WriteAggregateScript | kotlin-native/tools/degrade/degrade.init.gradle.kts:79-85 | an aggregate script is the header, the `cd "$(dirname "$0")"` line, an empty line and `./<name>` for each script, in order |
| Degrade.GenerateScriptForTask | kotlin-native/tools/degrade/degrade.init.gradle.kts:87-117 | no script exactly when no command is parsed; otherwise the script has the task's script name, and, unless `konanHome` holds a newline, its text reads back as the task script's lines |
| Degrade.CommandArgumentsHaveNoNewline | kotlin-native/tools/degrade/degrade.init.gradle.kts:90-91 | no parsed argument holds a newline |
| Degrade.ScriptRegistry.AfterExecute | kotlin-native/tools/degrade/degrade.init.gradle.kts:52-59 | a written script is added to `allScripts`, and to `failedScripts` when the task failed; no script changes neither list |
| Degrade.ScriptRegistry.BuildFinished | kotlin-native/tools/degrade/degrade.init.gradle.kts:61-69 | writes `rerun-all.sh` and `rerun-failed.sh` from the two lists, then empties both |

## Left out

- Gradle plumbing: the plugin application, the task-execution and build listeners'
  registration, the `taskToLog` map and the per-task output listeners, and the file
  system (`mkdirs`, `bufferedWriter`, `setExecutable`). A task's output is a string
  parameter, its failure a boolean, and a written script is a name and a text.
- `konanHome` comes from the project properties, which are not modelled. It is an
  `Option<string>` parameter; an absent property renders as `null`, as a Kotlin
  string template does.
- Degrade.GenerateScriptForTask: an empty task path makes `substring(1)` throw. It
  is modelled as the `BadTaskPath` result, not as an exception.
- Degrade.GenerateScriptForTask: the read-back property is stated only when
  `konanHome` has no newline. A newline in the property would split the
  `kotlinNativeDist` line.
- Strings are sequences of characters with no UTF-16 surrogate handling.
  `trimStart` uses the JVM's whitespace test on each character.
- The IntelliJ and FIR infrastructure is replaced by data:
  - `FlyweightCapableTreeStructure` with its `Ref`-based `getChildren`: a light-tree
    node carries its children, null entries included. A node whose child array is
    null is a node without children.
  - `buildChildSourceElement`: a real source element of the child node. The offset
    shift it applies is not modelled, so source elements are equal exactly when
    node and kind are.
  - The effective visibility, the containing class that `getContainingClassSymbol`
    finds through the session, and the targets of returns, jumps and `this`: these
    are fields of the resolved tree's element kinds.
- The PSI check uses the same label lookup as the light tree. `getTargetLabel` is
  taken to be the LABEL child of the LABEL_QUALIFIER child of the labeled expression.
- `visitReferencedLabels` takes an arbitrary action in the source. Both callers pass
  the same removal, so the model has that action built in.
- The diagnostic context and the diagnostic factory are outside the model. A report
  is a warning on the label's source element.
- TasksOutputsBackup.kt, scriptDefinition.kt, KtFirExtensionReceiverSymbol.kt and
  NativeConsoleApplicationTemplatePlugin.kt are not part of this model. They hold
  file-system calls, property bags, caching and wizard registration, and none of
  them contributes to the two analyses.
- The diagnostic test files are not modelled as code. Two of their declarations are
  worked as lemmas in `LabelExamples`, with the nodes the checker does not look at
  left out of the trees.
