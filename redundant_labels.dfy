/** The REDUNDANT_LABEL_WARNING checker of the K2 front end: a declaration that is a
    root label container is scanned for the labels written on labeled expressions
    (`l@ ...`), its resolved tree is scanned for the labels that labeled `return`,
    `break`, `continue` and `this@l` resolve to, and every written label that nothing
    resolves to is reported. Two syntax back ends exist: the light tree, walked from
    a set of traversal roots that the resolved tree supplies, and PSI, walked from
    the declaration's own element. */
module RedundantLabels {
  import opened Wrappers
  import opened LinkedSets

  // ---------------------------------------------------------------------------
  // Syntax trees (light tree and PSI) and source elements
  // ---------------------------------------------------------------------------

  /** The node types the checker looks at; every other type is `OtherToken`. */
  datatype TokenType = LabeledExpression | LabelQualifier | Label | OtherToken(name: string)

  /** A syntax node with its text range. A light-tree child array may hold null
      entries, which are `None` here; PSI nodes never have them. */
  datatype SyntaxNode = SyntaxNode(tokenType: TokenType, startOffset: nat, endOffset: nat,
                                   children: seq<Option<SyntaxNode>>)

  datatype SourceKind = RealSource | FakeSource

  /** A source element: a node of the syntax tree and the kind of the element. Two
      source elements are equal when node and kind are. */
  datatype SourceElement = SourceElement(node: SyntaxNode, kind: SourceKind)

  /** `buildChildSourceElement` and `toFirPsiSourceElement`: the real source element
      of a node. */
  function ChildSource(child: SyntaxNode): (r: SourceElement)
    ensures r.node == child && r.kind == RealSource
  {
    SourceElement(child, RealSource)
  }

  /** `findChildByType`: the first non-null child of type `t`. */
  function FindChildByType(children: seq<Option<SyntaxNode>>, t: TokenType): (r: Option<SyntaxNode>)
    ensures r.Some? ==> r.value.tokenType == t && r in children
    ensures r.None? <==> forall i :: 0 <= i < |children| && children[i].Some? ==> children[i].value.tokenType != t
    ensures r.Some? ==> exists i :: 0 <= i < |children| && children[i] == r
                                    && forall j :: 0 <= j < i && children[j].Some? ==> children[j].value.tokenType != t
  {
    if children == [] then None
    else if children[0].Some? && children[0].value.tokenType == t then children[0]
    else
      var r := FindChildByType(children[1..], t);
      assert forall i :: 0 < i < |children| ==> children[i] == children[1..][i - 1];
      r
  }

  /** The label written on `node`: for a labeled expression, the first LABEL child of
      its first LABEL_QUALIFIER child, if both exist; nothing for any other node. */
  function LabelOf(node: SyntaxNode): (r: seq<SourceElement>)
    ensures |r| <= 1
    ensures r != [] ==> node.tokenType == LabeledExpression
    ensures r != [] ==> r[0].kind == RealSource && r[0].node.tokenType == Label
    ensures r != [] <==> node.tokenType == LabeledExpression
                         && FindChildByType(node.children, LabelQualifier).Some?
                         && FindChildByType(FindChildByType(node.children, LabelQualifier).value.children, Label).Some?
    ensures r != [] ==> r == [ChildSource(FindChildByType(FindChildByType(node.children, LabelQualifier).value.children, Label).value)]
  {
    if node.tokenType != LabeledExpression then []
    else
      match FindChildByType(node.children, LabelQualifier)
      case None => []
      case Some(qualifier) =>
        (match FindChildByType(qualifier.children, Label)
         case None => []
         case Some(labelNode) => [ChildSource(labelNode)])
  }

  // ---------------------------------------------------------------------------
  // Resolved (FIR) trees
  // ---------------------------------------------------------------------------

  /** Effective visibility; the checker only tells `Local` apart from the others. */
  datatype EffectiveVisibility = Local | NonLocal(name: string)

  /** A label of the resolved tree: its name and its source, if any. */
  datatype FirLabel = FirLabel(name: string, source: Option<SourceElement>)

  /** The cone diagnostics the checker inspects; every other one is `OtherDiagnostic`. */
  datatype Diagnostic =
    | NotAFunctionLabelError(errorLabel: FirLabel)
    | JumpOutsideLoopError(jumpLabel: Option<FirLabel>)
    | NotALoopLabelError(jumpLabel: Option<FirLabel>)
    | OtherDiagnostic

  /** The function a `return` resolves to. */
  datatype ReturnTarget =
    | AnonymousFunctionTarget(functionLabel: Option<FirLabel>)
    | ErrorFunctionTarget(diagnostic: Diagnostic)
    | OtherFunctionTarget

  /** The loop a `break` or `continue` resolves to. */
  datatype LoopJumpTarget =
    | ErrorLoopTarget(diagnostic: Diagnostic)
    | LoopTarget(loopLabel: Option<FirLabel>)

  /** The symbol a `this` reference is bound to. */
  datatype ThisBoundSymbol = AnonymousFunctionSymbol(functionLabel: Option<FirLabel>) | OtherSymbol

  /** The class that contains an anonymous initializer, as the session finds it. */
  datatype ContainingClass = RegularClass(classVisibility: EffectiveVisibility) | OtherClassLike | NoContainingClass

  /** The element kinds the checker distinguishes. A callable carries its effective
      visibility, if it can be computed; break and continue are both `LoopJump`. */
  datatype FirKind =
    | Block
    | Property(visibility: Option<EffectiveVisibility>)
    | SimpleFunction(visibility: Option<EffectiveVisibility>)
    | PropertyAccessor(visibility: Option<EffectiveVisibility>)
    | Constructor(visibility: Option<EffectiveVisibility>)
    | AnonymousFunction(visibility: Option<EffectiveVisibility>, functionLabel: Option<FirLabel>)
    | ErrorFunction(visibility: Option<EffectiveVisibility>)
    | OtherCallable(visibility: Option<EffectiveVisibility>)
    | AnonymousInitializer(containingClass: ContainingClass)
    | ReturnExpression(isLabeled: bool, returnTarget: ReturnTarget)
    | LoopJump(isLabeled: bool, loopTarget: LoopJumpTarget)
    | ThisReference(labelName: Option<string>, boundSymbol: ThisBoundSymbol)
    | OtherElement

  /** An element of the resolved tree with its source and its children. */
  datatype FirElement = FirElement(kind: FirKind, source: Option<SourceElement>, children: seq<FirElement>)

  predicate IsCallable(k: FirKind) {
    k.Property? || k.SimpleFunction? || k.PropertyAccessor? || k.Constructor?
    || k.AnonymousFunction? || k.ErrorFunction? || k.OtherCallable?
  }

  /** `isRootLabelContainer`: whether a check of this declaration runs at all. */
  function IsRootLabelContainer(e: FirElement): (r: bool)
    ensures e.source.Some? && e.source.value.kind == FakeSource ==> !r
    ensures IsCallable(e.kind) && e.kind.visibility == Some(Local) ==> !r
    ensures e.kind.AnonymousFunction? ==> !r
    ensures !(e.source.Some? && e.source.value.kind == FakeSource)
            && (e.kind.Property? || e.kind.SimpleFunction? || e.kind.PropertyAccessor?
                || e.kind.Constructor? || e.kind.ErrorFunction?)
            ==> (r <==> e.kind.visibility != Some(Local))
    ensures e.kind.AnonymousInitializer? && !(e.source.Some? && e.source.value.kind == FakeSource)
            ==> (r <==> e.kind.containingClass.RegularClass? && e.kind.containingClass.classVisibility != Local)
    ensures r ==> e.kind.Property? || e.kind.SimpleFunction? || e.kind.PropertyAccessor?
                  || e.kind.Constructor? || e.kind.ErrorFunction? || e.kind.AnonymousInitializer?
  {
    if e.source.Some? && e.source.value.kind == FakeSource then false
    else if IsCallable(e.kind) && e.kind.visibility == Some(Local) then false
    else
      match e.kind
      case AnonymousFunction(_, _) => false
      case SimpleFunction(_) => true
      case PropertyAccessor(_) => true
      case Constructor(_) => true
      case ErrorFunction(_) => true
      case Property(_) => true
      case AnonymousInitializer(c) => c.RegularClass? && c.classVisibility != Local
      case _ => false
  }

  // ---------------------------------------------------------------------------
  // What the checker computes, as functions
  // ---------------------------------------------------------------------------

  /** The element kinds whose visitor marks a traversal root. */
  predicate MarksTraversalRoot(k: FirKind) {
    k.Block? || k.Property? || k.SimpleFunction? || k.PropertyAccessor? || k.Constructor?
  }

  /** `markTraversalRoot`: the source of `e`, if its kind marks a root and the source
      is real. */
  function RootMark(e: FirElement): (r: seq<SourceElement>)
    ensures r != [] <==> MarksTraversalRoot(e.kind) && e.source.Some? && e.source.value.kind == RealSource
    ensures r != [] ==> r == [e.source.value]
  {
    if MarksTraversalRoot(e.kind) && e.source.Some? && e.source.value.kind == RealSource then [e.source.value]
    else []
  }

  /** The roots the marking visitor adds, in visiting order: an element before its
      children. */
  function RootCandidates(e: FirElement): seq<SourceElement>
    decreases e, 1
  {
    RootMark(e) + ChildRootCandidates(e, 0)
  }

  function ChildRootCandidates(e: FirElement, i: nat): seq<SourceElement>
    requires i <= |e.children|
    decreases e, 0, |e.children| - i
  {
    if i == |e.children| then [] else RootCandidates(e.children[i]) + ChildRootCandidates(e, i + 1)
  }

  /** `allTraversalRoots` after the marking visitor: each root once, in the order it
      was first marked. */
  function TraversalRoots(e: FirElement): seq<SourceElement> {
    AddAll([], RootCandidates(e))
  }

  /** The labels `collectLabels` adds below `source`, in the order it adds them. A
      call on a child node that is itself a traversal root adds nothing. */
  function LabelsBelow(source: SourceElement, roots: seq<SourceElement>, isChildNode: bool): (r: seq<SourceElement>)
    ensures isChildNode && source in roots ==> r == []
    decreases source.node, 1
  {
    if isChildNode && source in roots then []
    else LabelOf(source.node) + ChildLabels(source.node, roots, 0)
  }

  /** The labels added for the children `node.children[i..]`; null children add none. */
  function ChildLabels(node: SyntaxNode, roots: seq<SourceElement>, i: nat): seq<SourceElement>
    requires i <= |node.children|
    decreases node, 0, |node.children| - i
  {
    if i == |node.children| then []
    else
      var child := node.children[i];
      assert child.Some? ==> child.value < child;
      (if child.Some? then LabelsBelow(ChildSource(child.value), roots, true) else [])
      + ChildLabels(node, roots, i + 1)
  }

  /** The labels collected from the roots `rs`, each walked as a starting root. */
  function LabelsFromRoots(rs: seq<SourceElement>, roots: seq<SourceElement>): seq<SourceElement> {
    if rs == [] then [] else LabelsFromRoots(rs[..|rs| - 1], roots) + LabelsBelow(rs[|rs| - 1], roots, false)
  }

  /** `unusedLabels` of the light-tree check after the collection loop. */
  function LightTreeCollected(e: FirElement): seq<SourceElement> {
    var roots := TraversalRoots(e);
    AddAll([], LabelsFromRoots(roots, roots))
  }

  /** The labels the PSI visitor adds below `node`: every labeled expression of the
      subtree, in preorder. */
  function PsiLabels(node: SyntaxNode): seq<SourceElement>
    decreases node, 1
  {
    LabelOf(node) + PsiChildLabels(node, 0)
  }

  function PsiChildLabels(node: SyntaxNode, i: nat): seq<SourceElement>
    requires i <= |node.children|
    decreases node, 0, |node.children| - i
  {
    if i == |node.children| then []
    else
      var child := node.children[i];
      assert child.Some? ==> child.value < child;
      (if child.Some? then PsiLabels(child.value) else []) + PsiChildLabels(node, i + 1)
  }

  /** `unusedLabels` of the PSI check after the collection visitor. */
  function PsiCollected(source: SourceElement): seq<SourceElement> {
    AddAll([], PsiLabels(source.node))
  }

  /** `visitReturnExpression`: the label a labeled return marks as used. */
  function ReturnLabels(isLabeled: bool, target: ReturnTarget): (r: seq<FirLabel>)
    ensures |r| <= 1
    ensures !isLabeled ==> r == []
    ensures isLabeled && target.AnonymousFunctionTarget? && target.functionLabel.Some?
            ==> r == [target.functionLabel.value]
    ensures isLabeled && target.ErrorFunctionTarget? && target.diagnostic.NotAFunctionLabelError?
            ==> r == [target.diagnostic.errorLabel]
    ensures r != [] ==> isLabeled
                        && ((target.AnonymousFunctionTarget? && target.functionLabel.Some?
                             && r == [target.functionLabel.value])
                            || (target.ErrorFunctionTarget? && target.diagnostic.NotAFunctionLabelError?
                                && r == [target.diagnostic.errorLabel]))
  {
    if !isLabeled then []
    else
      match target
      case AnonymousFunctionTarget(target) => if target.Some? then [target.value] else []
      case ErrorFunctionTarget(diagnostic) =>
        if diagnostic.NotAFunctionLabelError? then [diagnostic.errorLabel] else []
      case OtherFunctionTarget => []
  }

  /** `visitLoopJumpImpl`: the label a labeled break or continue marks as used. */
  function JumpLabels(isLabeled: bool, target: LoopJumpTarget): (r: seq<FirLabel>)
    ensures |r| <= 1
    ensures !isLabeled ==> r == []
    ensures isLabeled && target.LoopTarget? && target.loopLabel.Some? ==> r == [target.loopLabel.value]
    ensures isLabeled && target.ErrorLoopTarget?
            && (target.diagnostic.JumpOutsideLoopError? || target.diagnostic.NotALoopLabelError?)
            && target.diagnostic.jumpLabel.Some?
            ==> r == [target.diagnostic.jumpLabel.value]
    ensures r != [] ==> isLabeled
                        && ((target.LoopTarget? && target.loopLabel.Some? && r == [target.loopLabel.value])
                            || (target.ErrorLoopTarget?
                                && (target.diagnostic.JumpOutsideLoopError? || target.diagnostic.NotALoopLabelError?)
                                && target.diagnostic.jumpLabel.Some? && r == [target.diagnostic.jumpLabel.value]))
  {
    if !isLabeled then []
    else
      match target
      case ErrorLoopTarget(diagnostic) =>
        (match diagnostic
         case JumpOutsideLoopError(jumpLabel) => if jumpLabel.Some? then [jumpLabel.value] else []
         case NotALoopLabelError(jumpLabel) => if jumpLabel.Some? then [jumpLabel.value] else []
         case _ => [])
      case LoopTarget(target) => if target.Some? then [target.value] else []
  }

  /** `visitThisReference`: `this@x` marks the label of the anonymous function it is
      bound to, when that label is named `x`. */
  function ThisLabels(labelName: Option<string>, bound: ThisBoundSymbol): (r: seq<FirLabel>)
    ensures |r| <= 1
    ensures r != [] <==> bound.AnonymousFunctionSymbol? && bound.functionLabel.Some?
                         && labelName == Some(bound.functionLabel.value.name)
    ensures r != [] ==> r == [bound.functionLabel.value]
  {
    match bound
    case AnonymousFunctionSymbol(functionLabel) =>
      if functionLabel.Some? && labelName == Some(functionLabel.value.name) then [functionLabel.value] else []
    case OtherSymbol => []
  }

  /** The labels the visitor of one element passes to its action. */
  function HandlerLabels(k: FirKind): seq<FirLabel> {
    match k
    case ReturnExpression(isLabeled, target) => ReturnLabels(isLabeled, target)
    case LoopJump(isLabeled, target) => JumpLabels(isLabeled, target)
    case ThisReference(labelName, bound) => ThisLabels(labelName, bound)
    case _ => []
  }

  /** The loop-jump and `this` handlers do not go on to the children. */
  predicate VisitsChildren(k: FirKind) {
    !k.LoopJump? && !k.ThisReference?
  }

  /** `visitReferencedLabels`: the labels passed to the action, in visiting order. */
  function ReferencedLabels(e: FirElement): seq<FirLabel>
    decreases e, 1
  {
    HandlerLabels(e.kind) + if VisitsChildren(e.kind) then ChildReferencedLabels(e, 0) else []
  }

  function ChildReferencedLabels(e: FirElement, i: nat): seq<FirLabel>
    requires i <= |e.children|
    decreases e, 0, |e.children| - i
  {
    if i == |e.children| then [] else ReferencedLabels(e.children[i]) + ChildReferencedLabels(e, i + 1)
  }

  /** The sources of `labels`, where present: what `unusedLabels -= it` removes. */
  function SourcesOf(labels: seq<FirLabel>): seq<SourceElement> {
    if labels == [] then []
    else (if labels[0].source.Some? then [labels[0].source.value] else []) + SourcesOf(labels[1..])
  }

  /** The labels of the collected set that some reference resolves to. */
  function ReferencedSources(e: FirElement): seq<SourceElement> {
    SourcesOf(ReferencedLabels(e))
  }

  /** The labels the light-tree check reports, in reporting order: those collected
      and not referenced, each once, and none for a declaration that is not a root
      label container. */
  function LightTreeUnusedLabels(e: FirElement): seq<SourceElement> {
    if IsRootLabelContainer(e) then RemoveAll(LightTreeCollected(e), ReferencedSources(e)) else []
  }

  /** The labels the PSI check reports for the declaration `e` whose source is `source`. */
  function PsiUnusedLabels(e: FirElement, source: SourceElement): seq<SourceElement> {
    if IsRootLabelContainer(e) then RemoveAll(PsiCollected(source), ReferencedSources(e)) else []
  }

  /** A diagnostic handed to the reporter. */
  datatype Warning = RedundantLabelWarning(source: SourceElement)

  function Warnings(labels: seq<SourceElement>): (r: seq<Warning>)
    ensures |r| == |labels|
    ensures forall k :: 0 <= k < |labels| ==> r[k] == RedundantLabelWarning(labels[k])
  {
    seq(|labels|, k requires 0 <= k < |labels| => RedundantLabelWarning(labels[k]))
  }

  // ---------------------------------------------------------------------------
  // Mutable state: the label sets and the reporter
  // ---------------------------------------------------------------------------

  /** `mutableSetOf<FirSourceElement>()`: a set that iterates in insertion order. */
  class SourceSet {
    var elements: seq<SourceElement>

    /** A set holds each element once. */
    ghost predicate Valid()
      reads this
    {
      NoDup(elements)
    }

    constructor ()
      ensures elements == [] && Valid()
    {
      elements := [];
    }

    /** `add`: appends `x` unless it is already present. */
    method Add(x: SourceElement)
      requires Valid()
      modifies this
      ensures elements == LinkedSets.Add(old(elements), x) && Valid()
    {
      AddProperties(elements, x);
      if x !in elements {
        elements := elements + [x];
      }
    }

    /** `-=`: drops `x`, keeping the order of the others. */
    method Remove(x: SourceElement)
      requires Valid()
      modifies this
      ensures elements == LinkedSets.Remove(old(elements), x) && Valid()
    {
      RemoveProperties(elements, x);
      elements := LinkedSets.Remove(elements, x);
    }
  }

  /** The diagnostic reporter: the warnings reported so far, in order. */
  class Reporter {
    var reported: seq<Warning>

    constructor ()
      ensures reported == []
    {
      reported := [];
    }

    method ReportOn(source: SourceElement)
      modifies this
      ensures reported == old(reported) + [RedundantLabelWarning(source)]
    {
      reported := reported + [RedundantLabelWarning(source)];
    }
  }

  // ---------------------------------------------------------------------------
  // The checker
  // ---------------------------------------------------------------------------

  /** `markTraversalRoot`: adds the source of `elem` if it is real. */
  method MarkTraversalRoot(elem: FirElement, allTraversalRoots: SourceSet)
    requires MarksTraversalRoot(elem.kind)
    requires allTraversalRoots.Valid()
    modifies allTraversalRoots
    ensures allTraversalRoots.Valid()
    ensures allTraversalRoots.elements == AddAll(old(allTraversalRoots.elements), RootMark(elem))
  {
    if elem.source.Some? && elem.source.value.kind == RealSource {
      allTraversalRoots.Add(elem.source.value);
    }
  }

  /** The marking visitor of `checkLightTree`: marks `e` if its kind and source say so,
      then visits the children. */
  method MarkTraversalRoots(e: FirElement, allTraversalRoots: SourceSet)
    requires allTraversalRoots.Valid()
    modifies allTraversalRoots
    ensures allTraversalRoots.Valid()
    ensures allTraversalRoots.elements == AddAll(old(allTraversalRoots.elements), RootCandidates(e))
    decreases e
  {
    if MarksTraversalRoot(e.kind) {
      MarkTraversalRoot(e, allTraversalRoots);
    }
    ghost var marked := allTraversalRoots.elements;
    assert marked == AddAll(old(allTraversalRoots.elements), RootMark(e));
    for i := 0 to |e.children|
      invariant allTraversalRoots.Valid()
      invariant AddAll(allTraversalRoots.elements, ChildRootCandidates(e, i))
                == AddAll(marked, ChildRootCandidates(e, 0))
    {
      ghost var before := allTraversalRoots.elements;
      MarkTraversalRoots(e.children[i], allTraversalRoots);
      AddAllAppend(before, RootCandidates(e.children[i]), ChildRootCandidates(e, i + 1));
    }
    AddAllAppend(old(allTraversalRoots.elements), RootMark(e), ChildRootCandidates(e, 0));
  }

  /** The labeled-expression step of `collectLabels`. */
  method AddLabel(unusedLabels: SourceSet, node: SyntaxNode)
    requires unusedLabels.Valid()
    modifies unusedLabels
    ensures unusedLabels.Valid()
    ensures unusedLabels.elements == AddAll(old(unusedLabels.elements), LabelOf(node))
  {
    if node.tokenType == LabeledExpression {
      var labelQualifier := FindChildByType(node.children, LabelQualifier);
      if labelQualifier.Some? {
        var labelNode := FindChildByType(labelQualifier.value.children, Label);
        if labelNode.Some? {
          unusedLabels.Add(ChildSource(labelNode.value));
        }
      }
    }
  }

  /** `collectLabels`: adds the label of `source`, if it is a labeled expression with
      one, then walks the non-null children as child nodes; a child node that is a
      traversal root is left to its own walk. */
  method CollectLabels(unusedLabels: SourceSet, source: SourceElement, allTraversalRoots: seq<SourceElement>,
                       isChildNode: bool)
    requires unusedLabels.Valid()
    modifies unusedLabels
    ensures unusedLabels.Valid()
    ensures unusedLabels.elements
            == AddAll(old(unusedLabels.elements), LabelsBelow(source, allTraversalRoots, isChildNode))
    decreases source.node
  {
    if isChildNode && source in allTraversalRoots {
      return;
    }
    var node := source.node;
    AddLabel(unusedLabels, node);
    ghost var labeled := unusedLabels.elements;
    for i := 0 to |node.children|
      invariant unusedLabels.Valid()
      invariant AddAll(unusedLabels.elements, ChildLabels(node, allTraversalRoots, i))
                == AddAll(labeled, ChildLabels(node, allTraversalRoots, 0))
    {
      var child := node.children[i];
      if child.None? {
        assert [] + ChildLabels(node, allTraversalRoots, i + 1) == ChildLabels(node, allTraversalRoots, i + 1);
        continue;
      }
      ghost var before := unusedLabels.elements;
      assert child.value < node.children[i];
      CollectLabels(unusedLabels, ChildSource(child.value), allTraversalRoots, true);
      AddAllAppend(before, LabelsBelow(ChildSource(child.value), allTraversalRoots, true),
                   ChildLabels(node, allTraversalRoots, i + 1));
    }
    AddAllAppend(old(unusedLabels.elements), LabelOf(node), ChildLabels(node, allTraversalRoots, 0));
  }

  /** The collection visitor of `checkPsi`: adds the target label of every labeled
      expression, visiting a node before its children. */
  method CollectPsiLabels(node: SyntaxNode, unusedLabels: SourceSet)
    requires unusedLabels.Valid()
    modifies unusedLabels
    ensures unusedLabels.Valid()
    ensures unusedLabels.elements == AddAll(old(unusedLabels.elements), PsiLabels(node))
    decreases node
  {
    AddTargetLabel(node, unusedLabels);
    ghost var labeled := unusedLabels.elements;
    for i := 0 to |node.children|
      invariant unusedLabels.Valid()
      invariant AddAll(unusedLabels.elements, PsiChildLabels(node, i)) == AddAll(labeled, PsiChildLabels(node, 0))
    {
      var child := node.children[i];
      if child.None? {
        assert [] + PsiChildLabels(node, i + 1) == PsiChildLabels(node, i + 1);
        continue;
      }
      ghost var before := unusedLabels.elements;
      assert child.value < node.children[i];
      CollectPsiLabels(child.value, unusedLabels);
      AddAllAppend(before, PsiLabels(child.value), PsiChildLabels(node, i + 1));
    }
    AddAllAppend(old(unusedLabels.elements), LabelOf(node), PsiChildLabels(node, 0));
  }

  /** `visitLabeledExpression`: adds the target label, if there is one. */
  method AddTargetLabel(node: SyntaxNode, unusedLabels: SourceSet)
    requires unusedLabels.Valid()
    modifies unusedLabels
    ensures unusedLabels.Valid()
    ensures unusedLabels.elements == AddAll(old(unusedLabels.elements), LabelOf(node))
  {
    var targetLabel := LabelOf(node);
    if targetLabel != [] {
      unusedLabels.Add(targetLabel[0]);
    }
  }

  /** The action both checks pass to `visitReferencedLabels`: the label's source, if
      any, is no longer unused. */
  method MarkUsed(firLabel: FirLabel, unusedLabels: SourceSet)
    requires unusedLabels.Valid()
    modifies unusedLabels
    ensures unusedLabels.Valid()
    ensures unusedLabels.elements == RemoveAll(old(unusedLabels.elements), SourcesOf([firLabel]))
  {
    if firLabel.source.Some? {
      unusedLabels.Remove(firLabel.source.value);
    }
  }

  /** The handler part of `visitReturnExpression`. */
  method VisitReturn(isLabeled: bool, target: ReturnTarget, unusedLabels: SourceSet)
    requires unusedLabels.Valid()
    modifies unusedLabels
    ensures unusedLabels.Valid()
    ensures unusedLabels.elements == RemoveAll(old(unusedLabels.elements), SourcesOf(ReturnLabels(isLabeled, target)))
  {
    if isLabeled {
      match target {
        case AnonymousFunctionTarget(functionLabel) =>
          if functionLabel.Some? {
            MarkUsed(functionLabel.value, unusedLabels);
          }
        case ErrorFunctionTarget(diagnostic) =>
          if diagnostic.NotAFunctionLabelError? {
            MarkUsed(diagnostic.errorLabel, unusedLabels);
          }
        case OtherFunctionTarget =>
      }
    }
  }

  /** `visitLoopJumpImpl`, for break and continue. */
  method VisitLoopJump(isLabeled: bool, target: LoopJumpTarget, unusedLabels: SourceSet)
    requires unusedLabels.Valid()
    modifies unusedLabels
    ensures unusedLabels.Valid()
    ensures unusedLabels.elements == RemoveAll(old(unusedLabels.elements), SourcesOf(JumpLabels(isLabeled, target)))
  {
    if !isLabeled {
      return;
    }
    match target {
      case ErrorLoopTarget(diagnostic) =>
        if (diagnostic.JumpOutsideLoopError? || diagnostic.NotALoopLabelError?) && diagnostic.jumpLabel.Some? {
          MarkUsed(diagnostic.jumpLabel.value, unusedLabels);
        }
      case LoopTarget(loopLabel) =>
        if loopLabel.Some? {
          MarkUsed(loopLabel.value, unusedLabels);
        }
    }
  }

  /** `visitThisReference` */
  method VisitThis(labelName: Option<string>, bound: ThisBoundSymbol, unusedLabels: SourceSet)
    requires unusedLabels.Valid()
    modifies unusedLabels
    ensures unusedLabels.Valid()
    ensures unusedLabels.elements == RemoveAll(old(unusedLabels.elements), SourcesOf(ThisLabels(labelName, bound)))
  {
    if !bound.AnonymousFunctionSymbol? || bound.functionLabel.None? {
      return;
    }
    var firLabel := bound.functionLabel.value;
    if labelName == Some(firLabel.name) {
      MarkUsed(firLabel, unusedLabels);
    }
  }

  /** `visitReferencedLabels` with the action of both checks: the handlers for
      return, break and continue, and `this`, over the whole resolved tree. */
  method VisitReferencedLabels(e: FirElement, unusedLabels: SourceSet)
    requires unusedLabels.Valid()
    modifies unusedLabels
    ensures unusedLabels.Valid()
    ensures unusedLabels.elements == RemoveAll(old(unusedLabels.elements), ReferencedSources(e))
    decreases e, 1
  {
    VisitHandler(e.kind, unusedLabels);
    if VisitsChildren(e.kind) {
      VisitChildren(e, unusedLabels);
      SourcesOfAppend(HandlerLabels(e.kind), ChildReferencedLabels(e, 0));
      RemoveAllAppend(old(unusedLabels.elements), SourcesOf(HandlerLabels(e.kind)),
                      SourcesOf(ChildReferencedLabels(e, 0)));
    } else {
      assert HandlerLabels(e.kind) + [] == HandlerLabels(e.kind);
    }
  }

  /** The overridden `visit…` of the visitor, chosen by the kind of the element. */
  method VisitHandler(kind: FirKind, unusedLabels: SourceSet)
    requires unusedLabels.Valid()
    modifies unusedLabels
    ensures unusedLabels.Valid()
    ensures unusedLabels.elements == RemoveAll(old(unusedLabels.elements), SourcesOf(HandlerLabels(kind)))
  {
    match kind {
      case ReturnExpression(isLabeled, target) => VisitReturn(isLabeled, target, unusedLabels);
      case LoopJump(isLabeled, target) => VisitLoopJump(isLabeled, target, unusedLabels);
      case ThisReference(labelName, bound) => VisitThis(labelName, bound, unusedLabels);
      case _ =>
    }
  }

  /** `acceptChildren`: visits the children of `e` in order. */
  method VisitChildren(e: FirElement, unusedLabels: SourceSet)
    requires unusedLabels.Valid()
    modifies unusedLabels
    ensures unusedLabels.Valid()
    ensures unusedLabels.elements == RemoveAll(old(unusedLabels.elements), SourcesOf(ChildReferencedLabels(e, 0)))
    decreases e, 0
  {
    for i := 0 to |e.children|
      invariant unusedLabels.Valid()
      invariant RemoveAll(unusedLabels.elements, SourcesOf(ChildReferencedLabels(e, i)))
                == RemoveAll(old(unusedLabels.elements), SourcesOf(ChildReferencedLabels(e, 0)))
    {
      ghost var before := unusedLabels.elements;
      VisitReferencedLabels(e.children[i], unusedLabels);
      VisitChildStep(before, e, i);
    }
  }

  /** One turn of the loop over the children: removing the child's references and then
      the later siblings' is removing the references from the i-th child on. */
  lemma VisitChildStep(s: seq<SourceElement>, e: FirElement, i: nat)
    requires i < |e.children|
    ensures RemoveAll(RemoveAll(s, ReferencedSources(e.children[i])), SourcesOf(ChildReferencedLabels(e, i + 1)))
            == RemoveAll(s, SourcesOf(ChildReferencedLabels(e, i)))
  {
    SourcesOfAppend(ReferencedLabels(e.children[i]), ChildReferencedLabels(e, i + 1));
    RemoveAllAppend(s, SourcesOf(ReferencedLabels(e.children[i])),
                    SourcesOf(ChildReferencedLabels(e, i + 1)));
  }

  /** The reporting loop of both checks: one warning per label, in order. */
  method ReportAll(reporter: Reporter, unusedLabels: seq<SourceElement>)
    modifies reporter
    ensures reporter.reported == old(reporter.reported) + Warnings(unusedLabels)
  {
    for i := 0 to |unusedLabels|
      invariant reporter.reported == old(reporter.reported) + Warnings(unusedLabels[..i])
    {
      reporter.ReportOn(unusedLabels[i]);
      assert Warnings(unusedLabels[..i + 1]) == Warnings(unusedLabels[..i]) + [RedundantLabelWarning(unusedLabels[i])];
    }
    assert unusedLabels[..|unusedLabels|] == unusedLabels;
  }

  /** The collection loop of `checkLightTree`: every traversal root, in order, is
      walked as a starting root. */
  method CollectFromRoots(unusedLabels: SourceSet, allTraversalRoots: seq<SourceElement>)
    requires unusedLabels.Valid()
    modifies unusedLabels
    ensures unusedLabels.Valid()
    ensures unusedLabels.elements
            == AddAll(old(unusedLabels.elements), LabelsFromRoots(allTraversalRoots, allTraversalRoots))
  {
    for i := 0 to |allTraversalRoots|
      invariant unusedLabels.Valid()
      invariant unusedLabels.elements
                == AddAll(old(unusedLabels.elements), LabelsFromRoots(allTraversalRoots[..i], allTraversalRoots))
    {
      var root := allTraversalRoots[i];
      ghost var before := unusedLabels.elements;
      CollectLabels(unusedLabels, root, allTraversalRoots, false);
      LabelsFromRootsSnoc(allTraversalRoots, i);
      AddAllAppend(old(unusedLabels.elements), LabelsFromRoots(allTraversalRoots[..i], allTraversalRoots),
                   LabelsBelow(root, allTraversalRoots, false));
    }
    assert allTraversalRoots[..|allTraversalRoots|] == allTraversalRoots;
  }

  /** `checkLightTree` */
  method CheckLightTree(element: FirElement, reporter: Reporter)
    modifies reporter
    ensures reporter.reported == old(reporter.reported) + Warnings(LightTreeUnusedLabels(element))
  {
    if !IsRootLabelContainer(element) {
      assert LightTreeUnusedLabels(element) == [];
      return;
    }
    var allTraversalRoots := new SourceSet();
    MarkTraversalRoots(element, allTraversalRoots);
    var roots := allTraversalRoots.elements;
    var unusedLabels := new SourceSet();
    CollectFromRoots(unusedLabels, roots);
    VisitReferencedLabels(element, unusedLabels);
    ReportAll(reporter, unusedLabels.elements);
  }

  /** `checkPsi`, for the declaration `element` whose PSI source is `source`. */
  method CheckPsi(element: FirElement, source: SourceElement, reporter: Reporter)
    requires element.source == Some(source)
    modifies reporter
    ensures reporter.reported == old(reporter.reported) + Warnings(PsiUnusedLabels(element, source))
  {
    if !IsRootLabelContainer(element) {
      assert PsiUnusedLabels(element, source) == [];
      return;
    }
    var unusedLabels := new SourceSet();
    CollectPsiLabels(source.node, unusedLabels);
    VisitReferencedLabels(element, unusedLabels);
    ReportAll(reporter, unusedLabels.elements);
  }

  // ---------------------------------------------------------------------------
  // Lemmas
  // ---------------------------------------------------------------------------

  lemma LabelsFromRootsSnoc(roots: seq<SourceElement>, i: nat)
    requires i < |roots|
    ensures LabelsFromRoots(roots[..i + 1], roots)
            == LabelsFromRoots(roots[..i], roots) + LabelsBelow(roots[i], roots, false)
  {
    assert roots[..i + 1][..i] == roots[..i];
  }

  lemma {:induction false} SourcesOfAppend(a: seq<FirLabel>, b: seq<FirLabel>)
    ensures SourcesOf(a + b) == SourcesOf(a) + SourcesOf(b)
  {
    if a != [] {
      assert (a + b)[0] == a[0];
      assert (a + b)[1..] == a[1..] + b;
      SourcesOfAppend(a[1..], b);
    } else {
      assert a + b == b;
    }
  }

  lemma {:induction false} SourcesOfMembers(labels: seq<FirLabel>)
    ensures forall x :: x in SourcesOf(labels) <==> exists l :: l in labels && l.source == Some(x)
  {
    if labels != [] {
      SourcesOfMembers(labels[1..]);
      assert forall l :: l in labels <==> l == labels[0] || l in labels[1..];
    }
  }

  // Traversal roots

  /** `d` is `e` or an element below it. */
  predicate IsSubElement(d: FirElement, e: FirElement)
    decreases e
  {
    d == e || exists i :: 0 <= i < |e.children| && IsSubElement(d, e.children[i])
  }

  /** `x` is the root that the marking visitor adds for the element `d`. */
  predicate MarksRoot(d: FirElement, x: SourceElement) {
    MarksTraversalRoot(d.kind) && d.source == Some(x) && x.kind == RealSource
  }

  /** The marking visitor adds exactly the real sources of the blocks, properties,
      simple functions, accessors and constructors in the tree. */
  lemma {:induction false} RootCandidatesAreMarkedRoots(e: FirElement, x: SourceElement)
    ensures x in RootCandidates(e) <==> exists d :: IsSubElement(d, e) && MarksRoot(d, x)
    decreases e, 1
  {
    ChildRootCandidatesAreMarkedRoots(e, x, 0);
    assert x in RootMark(e) <==> MarksRoot(e, x);
    if x in RootCandidates(e) && x !in RootMark(e) {
      var j, d :| 0 <= j < |e.children| && IsSubElement(d, e.children[j]) && MarksRoot(d, x);
      assert IsSubElement(d, e);
    }
    if d :| IsSubElement(d, e) && MarksRoot(d, x) {
      if d != e {
        var j :| 0 <= j < |e.children| && IsSubElement(d, e.children[j]);
        assert x in ChildRootCandidates(e, 0);
      }
    }
  }

  lemma {:induction false} ChildRootCandidatesAreMarkedRoots(e: FirElement, x: SourceElement, i: nat)
    requires i <= |e.children|
    ensures x in ChildRootCandidates(e, i)
            <==> exists j, d :: i <= j < |e.children| && IsSubElement(d, e.children[j]) && MarksRoot(d, x)
    decreases e, 0, |e.children| - i
  {
    if i < |e.children| {
      RootCandidatesAreMarkedRoots(e.children[i], x);
      ChildRootCandidatesAreMarkedRoots(e, x, i + 1);
    }
  }

  /** `allTraversalRoots` holds each marked root once. */
  lemma TraversalRootsAreMarkedRoots(e: FirElement)
    ensures NoDup(TraversalRoots(e))
    ensures forall x :: x in TraversalRoots(e) <==> exists d :: IsSubElement(d, e) && MarksRoot(d, x)
  {
    AddAllProperties([], RootCandidates(e));
    forall x ensures x in RootCandidates(e) <==> exists d :: IsSubElement(d, e) && MarksRoot(d, x) {
      RootCandidatesAreMarkedRoots(e, x);
    }
  }

  // Light tree and PSI

  /** Every label the light-tree walk adds below `source` is one the PSI walk adds. */
  lemma {:induction false} LabelsBelowArePsiLabels(source: SourceElement, roots: seq<SourceElement>,
                                                   isChildNode: bool, x: SourceElement)
    requires x in LabelsBelow(source, roots, isChildNode)
    ensures x in PsiLabels(source.node)
    decreases source.node, 1
  {
    if x !in LabelOf(source.node) {
      ChildLabelsArePsiLabels(source.node, roots, 0, x);
    }
  }

  lemma {:induction false} ChildLabelsArePsiLabels(node: SyntaxNode, roots: seq<SourceElement>, i: nat,
                                                   x: SourceElement)
    requires i <= |node.children| && x in ChildLabels(node, roots, i)
    ensures x in PsiChildLabels(node, i)
    decreases node, 0, |node.children| - i
  {
    match node.children[i]
    case None =>
      ChildLabelsArePsiLabels(node, roots, i + 1, x);
    case Some(child) =>
      assert child < node.children[i];
      if x in LabelsBelow(ChildSource(child), roots, true) {
        LabelsBelowArePsiLabels(ChildSource(child), roots, true, x);
      } else {
        ChildLabelsArePsiLabels(node, roots, i + 1, x);
      }
  }

  /** No node below `node` is the node of a traversal root. */
  predicate NoNestedRoot(node: SyntaxNode, roots: seq<SourceElement>)
    decreases node
  {
    forall i :: 0 <= i < |node.children| && node.children[i].Some? ==>
      ChildSource(node.children[i].value) !in roots && NoNestedRoot(node.children[i].value, roots)
  }

  /** Without nested traversal roots, the light-tree walk from a root adds the same
      labels as the PSI walk, in the same order. */
  lemma {:induction false} LightTreeIsPsiWithoutNestedRoots(source: SourceElement, roots: seq<SourceElement>)
    requires NoNestedRoot(source.node, roots)
    ensures LabelsBelow(source, roots, false) == PsiLabels(source.node)
    decreases source.node, 1
  {
    ChildLabelsArePsiChildLabels(source.node, roots, 0);
  }

  lemma {:induction false} ChildLabelsArePsiChildLabels(node: SyntaxNode, roots: seq<SourceElement>, i: nat)
    requires i <= |node.children| && NoNestedRoot(node, roots)
    ensures ChildLabels(node, roots, i) == PsiChildLabels(node, i)
    decreases node, 0, |node.children| - i
  {
    if i < |node.children| {
      ChildLabelsArePsiChildLabels(node, roots, i + 1);
      match node.children[i]
      case None =>
      case Some(child) =>
        assert child < node.children[i];
        ChildLabelsOfChildArePsiLabels(child, roots);
    }
  }

  lemma {:induction false} ChildLabelsOfChildArePsiLabels(child: SyntaxNode, roots: seq<SourceElement>)
    requires ChildSource(child) !in roots && NoNestedRoot(child, roots)
    ensures LabelsBelow(ChildSource(child), roots, true) == PsiLabels(child)
    decreases child, 2
  {
    LightTreeIsPsiWithoutNestedRoots(ChildSource(child), roots);
  }

  /** `m` is `n` or a node below it. */
  predicate IsSubNode(m: SyntaxNode, n: SyntaxNode)
    decreases n
  {
    m == n || exists i :: 0 <= i < |n.children| && n.children[i].Some? && IsSubNode(m, n.children[i].value)
  }

  lemma {:induction false} SubNodeIsSmaller(m: SyntaxNode, n: SyntaxNode)
    requires IsSubNode(m, n)
    ensures m == n || m < n
    decreases n
  {
    if m != n {
      var i :| 0 <= i < |n.children| && n.children[i].Some? && IsSubNode(m, n.children[i].value);
      var child := n.children[i].value;
      assert child < n.children[i];
      SubNodeIsSmaller(m, child);
    }
  }

  /** A label of a child's subtree is a label of the parent's children. */
  lemma {:induction false} PsiChildLabelsHaveChildLabel(n: SyntaxNode, i: nat, j: nat, x: SourceElement)
    requires i <= j < |n.children| && n.children[j].Some? && x in PsiLabels(n.children[j].value)
    ensures x in PsiChildLabels(n, i)
    decreases j - i
  {
    if i < j {
      PsiChildLabelsHaveChildLabel(n, i + 1, j, x);
    }
  }

  lemma {:induction false} PsiLabelsOfSubNode(m: SyntaxNode, n: SyntaxNode, x: SourceElement)
    requires IsSubNode(m, n) && x in PsiLabels(m)
    ensures x in PsiLabels(n)
    decreases n
  {
    if m != n {
      var i :| 0 <= i < |n.children| && n.children[i].Some? && IsSubNode(m, n.children[i].value);
      var child := n.children[i].value;
      assert child < n.children[i];
      PsiLabelsOfSubNode(m, child, x);
      PsiChildLabelsHaveChildLabel(n, 0, i, x);
    }
  }

  /** A label of the children of `n` is a label of one child's subtree. */
  lemma {:induction false} PsiChildLabelHasChild(n: SyntaxNode, i: nat, x: SourceElement)
    requires i <= |n.children| && x in PsiChildLabels(n, i)
    ensures exists j :: i <= j < |n.children| && n.children[j].Some? && x in PsiLabels(n.children[j].value)
    decreases |n.children| - i
  {
    if n.children[i].None? || x !in PsiLabels(n.children[i].value) {
      PsiChildLabelHasChild(n, i + 1, x);
    }
  }

  lemma {:induction false} ChildLabelsHaveChildLabel(n: SyntaxNode, roots: seq<SourceElement>, i: nat, j: nat,
                                                     x: SourceElement)
    requires i <= j < |n.children| && n.children[j].Some?
    requires x in LabelsBelow(ChildSource(n.children[j].value), roots, true)
    ensures x in ChildLabels(n, roots, i)
    decreases j - i
  {
    if i < j {
      ChildLabelsHaveChildLabel(n, roots, i + 1, j, x);
    }
  }

  /** A PSI label below `n` is found by the light-tree walk from `n`, unless it lies
      below a traversal root nested in `n`. */
  lemma {:induction false} PsiLabelIsBelowOrInNestedRoot(n: SyntaxNode, roots: seq<SourceElement>, x: SourceElement)
    requires x in PsiLabels(n)
    ensures x in LabelsBelow(ChildSource(n), roots, false)
            || exists m :: m != n && IsSubNode(m, n) && ChildSource(m) in roots && x in PsiLabels(m)
    decreases n, 1
  {
    if x !in LabelOf(n) {
      PsiChildLabelHasChild(n, 0, x);
      var j :| 0 <= j < |n.children| && n.children[j].Some? && x in PsiLabels(n.children[j].value);
      ChildPsiLabelIsBelowOrInNestedRoot(n, roots, j, x);
    }
  }

  lemma {:induction false} ChildPsiLabelIsBelowOrInNestedRoot(n: SyntaxNode, roots: seq<SourceElement>, j: nat,
                                                               x: SourceElement)
    requires j < |n.children| && n.children[j].Some? && x in PsiLabels(n.children[j].value)
    ensures x in ChildLabels(n, roots, 0)
            || exists m :: m != n && IsSubNode(m, n) && ChildSource(m) in roots && x in PsiLabels(m)
    decreases n, 0
  {
    var child := n.children[j].value;
    assert child < n.children[j];
    assert IsSubNode(child, n);
    if ChildSource(child) !in roots {
      PsiLabelIsBelowOrInNestedRoot(child, roots, x);
      if x in LabelsBelow(ChildSource(child), roots, false) {
        ChildLabelsHaveChildLabel(n, roots, 0, j, x);
      } else {
        var m :| m != child && IsSubNode(m, child) && ChildSource(m) in roots && x in PsiLabels(m);
        SubNodeIsSmaller(m, child);
        assert IsSubNode(m, n);
      }
    }
  }

  /** Every PSI label below a traversal root is found by the light-tree walk from
      some traversal root. */
  lemma {:induction false} LightTreeFindsPsiLabel(top: SyntaxNode, roots: seq<SourceElement>, x: SourceElement)
    requires ChildSource(top) in roots && x in PsiLabels(top)
    ensures exists r :: r in roots && x in LabelsBelow(r, roots, false)
    decreases top
  {
    PsiLabelIsBelowOrInNestedRoot(top, roots, x);
    if x !in LabelsBelow(ChildSource(top), roots, false) {
      var m :| m != top && IsSubNode(m, top) && ChildSource(m) in roots && x in PsiLabels(m);
      SubNodeIsSmaller(m, top);
      LightTreeFindsPsiLabel(m, roots, x);
    }
  }

  lemma {:induction false} LabelsFromRootsMembers(rs: seq<SourceElement>, roots: seq<SourceElement>, x: SourceElement)
    ensures x in LabelsFromRoots(rs, roots) <==> exists r :: r in rs && x in LabelsBelow(r, roots, false)
  {
    if rs != [] {
      var init, last := rs[..|rs| - 1], rs[|rs| - 1];
      LabelsFromRootsMembers(init, roots, x);
      assert rs == init + [last];
      assert LabelsFromRoots(rs, roots) == LabelsFromRoots(init, roots) + LabelsBelow(last, roots, false);
      if r :| r in rs && x in LabelsBelow(r, roots, false) {
        if r != last {
          assert r in init;
        }
      }
    }
  }

  /** Both checks collect the same labels when the declaration's source is a
      traversal root and every traversal root lies in the declaration's subtree:
      skipping a nested root loses nothing, since it is walked from the root loop. */
  lemma BackendsCollectTheSameLabels(e: FirElement, source: SourceElement)
    requires source in TraversalRoots(e)
    requires forall r :: r in TraversalRoots(e) ==> IsSubNode(r.node, source.node)
    ensures forall x :: x in LightTreeCollected(e) <==> x in PsiCollected(source)
    ensures forall x :: x in LightTreeUnusedLabels(e) <==> x in PsiUnusedLabels(e, source)
  {
    var roots := TraversalRoots(e);
    TraversalRootsAreMarkedRoots(e);
    assert source == ChildSource(source.node);
    AddAllProperties([], LabelsFromRoots(roots, roots));
    AddAllProperties([], PsiLabels(source.node));
    forall x ensures x in LabelsFromRoots(roots, roots) <==> x in PsiLabels(source.node) {
      LabelsFromRootsMembers(roots, roots, x);
      if x in PsiLabels(source.node) {
        LightTreeFindsPsiLabel(source.node, roots, x);
      }
      if r :| r in roots && x in LabelsBelow(r, roots, false) {
        LabelsBelowArePsiLabels(r, roots, false, x);
        PsiLabelsOfSubNode(r.node, source.node, x);
      }
    }
    LightTreeReportIsCollectedMinusReferenced(e);
    PsiReportIsCollectedMinusReferenced(e, source);
  }

  /** When the declaration's own source is its only traversal root and no node below
      it is a root, both checks report the same labels in the same order. */
  lemma BackendsAgreeWithSingleRoot(e: FirElement, source: SourceElement)
    requires TraversalRoots(e) == [source] && NoNestedRoot(source.node, [source])
    ensures LightTreeUnusedLabels(e) == PsiUnusedLabels(e, source)
  {
    var roots := [source];
    LightTreeIsPsiWithoutNestedRoots(source, roots);
    assert roots[..|roots| - 1] == [];
    assert LabelsFromRoots(roots, roots) == [] + LabelsBelow(source, roots, false);
    assert [] + LabelsBelow(source, roots, false) == PsiLabels(source.node);
  }

  // Reports

  /** The light-tree check reports each collected label that no reference resolves
      to, once; it reports nothing for a declaration that is not a root label
      container. */
  lemma LightTreeReportIsCollectedMinusReferenced(e: FirElement)
    ensures NoDup(LightTreeUnusedLabels(e))
    ensures forall x :: x in LightTreeUnusedLabels(e)
                        <==> IsRootLabelContainer(e) && x in LabelsFromRoots(TraversalRoots(e), TraversalRoots(e))
                             && !exists l :: l in ReferencedLabels(e) && l.source == Some(x)
  {
    var roots := TraversalRoots(e);
    AddAllProperties([], LabelsFromRoots(roots, roots));
    RemoveAllProperties(LightTreeCollected(e), ReferencedSources(e));
    SourcesOfMembers(ReferencedLabels(e));
  }

  /** The same for the PSI check. */
  lemma PsiReportIsCollectedMinusReferenced(e: FirElement, source: SourceElement)
    ensures NoDup(PsiUnusedLabels(e, source))
    ensures forall x :: x in PsiUnusedLabels(e, source)
                        <==> IsRootLabelContainer(e) && x in PsiLabels(source.node)
                             && !exists l :: l in ReferencedLabels(e) && l.source == Some(x)
  {
    AddAllProperties([], PsiLabels(source.node));
    RemoveAllProperties(PsiCollected(source), ReferencedSources(e));
    SourcesOfMembers(ReferencedLabels(e));
  }

  // References

  /** The kinds whose handler can mark a label as used. */
  predicate IsLabelReference(k: FirKind) {
    (k.ReturnExpression? && k.isLabeled) || (k.LoopJump? && k.isLabeled) || k.ThisReference?
  }

  /** Every label passed to the action comes from the handler of a labeled return,
      a labeled break or continue, or a `this` reference in the tree. */
  lemma {:induction false} ReferencedLabelsComeFromHandlers(e: FirElement, l: FirLabel)
    requires l in ReferencedLabels(e)
    ensures exists d :: IsSubElement(d, e) && IsLabelReference(d.kind) && l in HandlerLabels(d.kind)
    decreases e, 1
  {
    if l in HandlerLabels(e.kind) {
      assert IsSubElement(e, e);
    } else {
      ChildReferencedLabelsComeFromHandlers(e, 0, l);
    }
  }

  lemma {:induction false} ChildReferencedLabelsComeFromHandlers(e: FirElement, i: nat, l: FirLabel)
    requires i <= |e.children| && l in ChildReferencedLabels(e, i)
    ensures exists d :: IsSubElement(d, e) && IsLabelReference(d.kind) && l in HandlerLabels(d.kind)
    decreases e, 0, |e.children| - i
  {
    if l in ReferencedLabels(e.children[i]) {
      ReferencedLabelsComeFromHandlers(e.children[i], l);
      var d :| IsSubElement(d, e.children[i]) && IsLabelReference(d.kind) && l in HandlerLabels(d.kind);
      assert IsSubElement(d, e);
    } else {
      ChildReferencedLabelsComeFromHandlers(e, i + 1, l);
    }
  }

  /** `d` is reached by `visitReferencedLabels` from `e`: it is `e`, or it lies below
      a child of `e` and `e` is an element whose visitor goes on to its children. */
  predicate IsVisited(d: FirElement, e: FirElement)
    decreases e
  {
    d == e || (VisitsChildren(e.kind) && exists i :: 0 <= i < |e.children| && IsVisited(d, e.children[i]))
  }

  /** A label is passed to the action exactly when the handler of some element the
      walk reaches passes it. */
  lemma {:induction false} ReferencedLabelsAreVisitedHandlerLabels(e: FirElement, l: FirLabel)
    ensures l in ReferencedLabels(e) <==> exists d :: IsVisited(d, e) && l in HandlerLabels(d.kind)
    decreases e, 1
  {
    if VisitsChildren(e.kind) {
      ChildReferencedLabelsMembers(e, 0, l);
      forall j | 0 <= j < |e.children|
        ensures l in ReferencedLabels(e.children[j])
                <==> exists d :: IsVisited(d, e.children[j]) && l in HandlerLabels(d.kind)
      {
        ReferencedLabelsAreVisitedHandlerLabels(e.children[j], l);
      }
    }
    if l in ReferencedLabels(e) {
      if l in HandlerLabels(e.kind) {
        assert IsVisited(e, e);
      } else {
        var j :| 0 <= j < |e.children| && l in ReferencedLabels(e.children[j]);
        var d :| IsVisited(d, e.children[j]) && l in HandlerLabels(d.kind);
        assert IsVisited(d, e);
      }
    }
    if d :| IsVisited(d, e) && l in HandlerLabels(d.kind) {
      if d != e {
        var j :| 0 <= j < |e.children| && IsVisited(d, e.children[j]);
        assert l in ReferencedLabels(e.children[j]);
      }
    }
  }

  /** The labels passed for the children `e.children[i..]` are those passed for one of
      them. */
  lemma {:induction false} ChildReferencedLabelsMembers(e: FirElement, i: nat, l: FirLabel)
    requires i <= |e.children|
    ensures l in ChildReferencedLabels(e, i)
            <==> exists j :: i <= j < |e.children| && l in ReferencedLabels(e.children[j])
    decreases |e.children| - i
  {
    if i < |e.children| {
      ChildReferencedLabelsMembers(e, i + 1, l);
      var first, rest := ReferencedLabels(e.children[i]), ChildReferencedLabels(e, i + 1);
      assert ChildReferencedLabels(e, i) == first + rest;
      assert l in first + rest <==> l in first || l in rest;
    }
  }

  /** A label that a labeled return, a labeled break or continue, or a `this`
      reference reached by the walk resolves to is never reported, when it has a
      source: neither check reports a used label. */
  lemma UsedLabelIsNotReported(e: FirElement, source: SourceElement, d: FirElement, l: FirLabel)
    requires IsVisited(d, e) && l in HandlerLabels(d.kind) && l.source.Some?
    ensures l.source.value !in LightTreeUnusedLabels(e)
    ensures l.source.value !in PsiUnusedLabels(e, source)
  {
    ReferencedLabelsAreVisitedHandlerLabels(e, l);
    LightTreeReportIsCollectedMinusReferenced(e);
    PsiReportIsCollectedMinusReferenced(e, source);
  }

  /** With no labeled return, no labeled break or continue and no `this` reference
      in the tree, both checks report every collected label. */
  lemma {:induction false} WithoutReferencesEveryLabelIsReported(e: FirElement, source: SourceElement)
    requires IsRootLabelContainer(e)
    requires forall d :: IsSubElement(d, e) ==> !IsLabelReference(d.kind)
    ensures LightTreeUnusedLabels(e) == LightTreeCollected(e)
    ensures PsiUnusedLabels(e, source) == PsiCollected(source)
  {
    if ReferencedLabels(e) != [] {
      ReferencedLabelsComeFromHandlers(e, ReferencedLabels(e)[0]);
    }
  }
}
