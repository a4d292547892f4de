/** Two declarations from the checker's diagnostic test data, as trees, with the
    warnings both checks report on them. Offsets count from the start of the
    declaration's text; nodes the checker does not look at (names, parameters, call
    expressions) are left out of the syntax trees. */
module LabelExamples {
  import opened Wrappers
  import opened LinkedSets
  import opened RedundantLabels

  // The function `testLambdaLabel`, whose expression body is a lambda labelled `l`
  // that yields a constant.
  //
  // The lambda's body block is a traversal root of its own, nested in the function;
  // its implicit result is an unlabeled return to the lambda.

  const LabelNode := SyntaxNode(Label, 24, 26, [])
  const Qualifier := SyntaxNode(LabelQualifier, 24, 26, [Some(LabelNode)])
  const LambdaBody := SyntaxNode(OtherToken("BLOCK"), 28, 32, [])
  const Lambda := SyntaxNode(OtherToken("LAMBDA_EXPRESSION"), 27, 33, [Some(LambdaBody)])
  const LabeledLambda := SyntaxNode(LabeledExpression, 24, 33, [Some(Qualifier), Some(Lambda)])
  const LambdaFun := SyntaxNode(OtherToken("FUN"), 0, 33, [Some(LabeledLambda)])

  const LambdaLabel := FirLabel("l", Some(ChildSource(LabelNode)))

  const ImplicitReturn := FirElement(ReturnExpression(false, AnonymousFunctionTarget(Some(LambdaLabel))), None, [])
  const BodyBlock := FirElement(Block, Some(ChildSource(LambdaBody)), [ImplicitReturn])
  const AnonymousLambda := FirElement(AnonymousFunction(Some(Local), Some(LambdaLabel)), Some(ChildSource(Lambda)), [BodyBlock])
  const LambdaDecl := FirElement(SimpleFunction(Some(NonLocal("public"))), Some(ChildSource(LambdaFun)), [AnonymousLambda])

  /** The syntax subtree of the labeled lambda holds the one label `l`. */
  lemma LabeledLambdaLabels()
    ensures LabelOf(LabeledLambda) == [ChildSource(LabelNode)]
    ensures PsiLabels(Lambda) == [] && PsiLabels(Qualifier) == []
    ensures PsiLabels(LabeledLambda) == [ChildSource(LabelNode)]
  {
    assert FindChildByType(LabeledLambda.children, LabelQualifier) == Some(Qualifier);
    assert FindChildByType(Qualifier.children, Label) == Some(LabelNode);
    assert PsiLabels(LabelNode) == [];
    assert PsiChildLabels(Qualifier, 0) == [];
    assert PsiLabels(LambdaBody) == [];
    assert PsiChildLabels(Lambda, 0) == [];
    assert PsiChildLabels(LabeledLambda, 1) == [];
  }

  /** The marking visitor finds the function and the lambda's body block. */
  lemma LambdaRoots()
    ensures TraversalRoots(LambdaDecl) == [ChildSource(LambdaFun), ChildSource(LambdaBody)]
  {
    assert RootCandidates(ImplicitReturn) == [];
    assert ChildRootCandidates(BodyBlock, 0) == [];
    assert RootCandidates(BodyBlock) == [ChildSource(LambdaBody)];
    assert ChildRootCandidates(AnonymousLambda, 1) == [];
    assert ChildRootCandidates(AnonymousLambda, 0) == [ChildSource(LambdaBody)];
    assert RootCandidates(AnonymousLambda) == [ChildSource(LambdaBody)];
    assert ChildRootCandidates(LambdaDecl, 1) == [];
    assert ChildRootCandidates(LambdaDecl, 0) == [ChildSource(LambdaBody)];
    assert RootCandidates(LambdaDecl) == [ChildSource(LambdaFun), ChildSource(LambdaBody)];
    assert ChildSource(LambdaBody) != ChildSource(LambdaFun);
    assert [ChildSource(LambdaFun), ChildSource(LambdaBody)][1..] == [ChildSource(LambdaBody)];
    assert LinkedSets.Add([], ChildSource(LambdaFun)) == [ChildSource(LambdaFun)];
    assert AddAll([], [ChildSource(LambdaFun), ChildSource(LambdaBody)])
        == AddAll([ChildSource(LambdaFun)], [ChildSource(LambdaBody)]);
    assert AddAll([ChildSource(LambdaFun)], [ChildSource(LambdaBody)]) == [ChildSource(LambdaFun), ChildSource(LambdaBody)];
  }

  const LambdaRootList := [ChildSource(LambdaFun), ChildSource(LambdaBody)]

  /** Below the lambda, the light-tree walk stops at the body block, a root of its own. */
  lemma LambdaSkipsNestedRoot()
    ensures LabelsBelow(ChildSource(Lambda), LambdaRootList, true) == []
  {
    assert ChildSource(Lambda) !in LambdaRootList;
    assert LabelsBelow(ChildSource(LambdaBody), LambdaRootList, true) == [];
    assert ChildLabels(Lambda, LambdaRootList, 1) == [];
    assert ChildLabels(Lambda, LambdaRootList, 0) == [];
  }

  lemma QualifierHasNoLabelBelow()
    ensures LabelsBelow(ChildSource(Qualifier), LambdaRootList, true) == []
  {
    assert ChildSource(Qualifier) !in LambdaRootList && ChildSource(LabelNode) !in LambdaRootList;
    assert ChildLabels(LabelNode, LambdaRootList, 0) == [];
    assert LabelsBelow(ChildSource(LabelNode), LambdaRootList, true) == [];
    assert ChildLabels(Qualifier, LambdaRootList, 1) == [];
    assert ChildLabels(Qualifier, LambdaRootList, 0) == [];
  }

  lemma LabeledLambdaLightTree()
    ensures LabelsBelow(ChildSource(LabeledLambda), LambdaRootList, true) == [ChildSource(LabelNode)]
  {
    LabeledLambdaLabels();
    LambdaSkipsNestedRoot();
    QualifierHasNoLabelBelow();
    assert ChildSource(LabeledLambda) !in LambdaRootList;
    assert ChildLabels(LabeledLambda, LambdaRootList, 2) == [];
    assert ChildLabels(LabeledLambda, LambdaRootList, 1) == [];
    assert ChildLabels(LabeledLambda, LambdaRootList, 0) == [];
  }

  /** The light-tree walk from the function finds `l`; the walk from the body block
      finds nothing. */
  lemma LambdaLightTreeLabels()
    ensures LabelsFromRoots(LambdaRootList, LambdaRootList) == [ChildSource(LabelNode)]
  {
    LabeledLambdaLightTree();
    var roots := LambdaRootList;
    assert ChildLabels(LambdaFun, roots, 1) == [];
    assert ChildLabels(LambdaFun, roots, 0) == [ChildSource(LabelNode)];
    assert LabelsBelow(ChildSource(LambdaFun), roots, false) == [ChildSource(LabelNode)];
    assert ChildLabels(LambdaBody, roots, 0) == [];
    assert LabelsBelow(ChildSource(LambdaBody), roots, false) == [];
    assert roots[..1] == [ChildSource(LambdaFun)] && roots[..1][..0] == [];
    assert LabelsFromRoots(roots[..1], roots) == [] + LabelsBelow(ChildSource(LambdaFun), roots, false);
    assert LabelsFromRoots(roots, roots) == LabelsFromRoots(roots[..1], roots) + LabelsBelow(ChildSource(LambdaBody), roots, false);
  }

  /** The unlabeled implicit return references no label. */
  lemma LambdaReferences()
    ensures ReferencedSources(LambdaDecl) == []
  {
    assert ReferencedLabels(ImplicitReturn) == [];
    assert ChildReferencedLabels(BodyBlock, 0) == [];
    assert ReferencedLabels(BodyBlock) == [];
    assert ChildReferencedLabels(AnonymousLambda, 0) == [];
    assert ReferencedLabels(AnonymousLambda) == [];
    assert ChildReferencedLabels(LambdaDecl, 0) == [];
    assert ReferencedLabels(LambdaDecl) == [];
  }

  /** redundantLabel.fir.kt, `testLambdaLabel`: the label `l` is reported, once, by both
      checks. */
  lemma LambdaLabelIsRedundant()
    ensures LightTreeUnusedLabels(LambdaDecl) == [ChildSource(LabelNode)]
    ensures PsiUnusedLabels(LambdaDecl, ChildSource(LambdaFun)) == [ChildSource(LabelNode)]
  {
    LambdaRoots();
    LambdaLightTreeLabels();
    LabeledLambdaLabels();
    assert IsRootLabelContainer(LambdaDecl);
    assert AddAll([], [ChildSource(LabelNode)]) == [ChildSource(LabelNode)];
    assert PsiChildLabels(LambdaFun, 0) == [ChildSource(LabelNode)];
    assert PsiLabels(LambdaFun) == [ChildSource(LabelNode)];
    LambdaReferences();
  }

  // The property `x4`: a `run` lambda whose `return@run` returns an inner lambda
  // labelled `lambda`, which passes its parameter on to a call.
  //
  // The labeled return names the label `run` that the outer lambda takes from the
  // call; that label was never written on a labeled expression, so it has no
  // source. The `@run` qualifier of the return is not a labeled expression either.

  const RunLabelNode := SyntaxNode(Label, 43, 47, [])
  const RunQualifier := SyntaxNode(LabelQualifier, 43, 47, [Some(RunLabelNode)])
  const InnerLabelNode := SyntaxNode(Label, 49, 56, [])
  const InnerQualifier := SyntaxNode(LabelQualifier, 49, 56, [Some(InnerLabelNode)])
  const InnerBody := SyntaxNode(OtherToken("BLOCK"), 73, 81, [])
  const InnerLambda := SyntaxNode(OtherToken("LAMBDA_EXPRESSION"), 56, 87, [Some(InnerBody)])
  const LabeledInner := SyntaxNode(LabeledExpression, 49, 87, [Some(InnerQualifier), Some(InnerLambda)])
  const Parenthesized := SyntaxNode(OtherToken("PARENTHESIZED"), 48, 88, [Some(LabeledInner)])
  const ReturnNode := SyntaxNode(OtherToken("RETURN"), 37, 88, [Some(RunQualifier), Some(Parenthesized)])
  const OuterBody := SyntaxNode(OtherToken("BLOCK"), 37, 88, [Some(ReturnNode)])
  const OuterLambda := SyntaxNode(OtherToken("LAMBDA_EXPRESSION"), 31, 90, [Some(OuterBody)])
  const PropertyX4 := SyntaxNode(OtherToken("PROPERTY"), 0, 90, [Some(OuterLambda)])

  const RunLabel := FirLabel("run", None)
  const InnerLabel := FirLabel("lambda", Some(ChildSource(InnerLabelNode)))

  const InnerReturn := FirElement(ReturnExpression(false, AnonymousFunctionTarget(Some(InnerLabel))), None, [])
  const InnerBlock := FirElement(Block, Some(ChildSource(InnerBody)), [InnerReturn])
  const InnerFunction := FirElement(AnonymousFunction(Some(Local), Some(InnerLabel)), Some(ChildSource(InnerLambda)), [InnerBlock])
  const ReturnToRun := FirElement(ReturnExpression(true, AnonymousFunctionTarget(Some(RunLabel))), Some(ChildSource(ReturnNode)), [InnerFunction])
  const OuterBlock := FirElement(Block, Some(ChildSource(OuterBody)), [ReturnToRun])
  const OuterFunction := FirElement(AnonymousFunction(Some(Local), Some(RunLabel)), Some(ChildSource(OuterLambda)), [OuterBlock])
  const RunCall := FirElement(OtherElement, None, [OuterFunction])
  const X4Decl := FirElement(Property(Some(NonLocal("public"))), Some(ChildSource(PropertyX4)), [RunCall])

  const X4RootList := [ChildSource(PropertyX4), ChildSource(OuterBody), ChildSource(InnerBody)]

  /** The marking visitor finds the property and the bodies of both lambdas. */
  lemma X4Roots()
    ensures TraversalRoots(X4Decl) == X4RootList
  {
    assert RootCandidates(InnerReturn) == [];
    assert ChildRootCandidates(InnerBlock, 1) == [];
    assert ChildRootCandidates(InnerBlock, 0) == [];
    assert RootCandidates(InnerBlock) == [ChildSource(InnerBody)];
    assert ChildRootCandidates(InnerFunction, 1) == [];
    assert RootCandidates(InnerFunction) == [ChildSource(InnerBody)];
    assert ChildRootCandidates(ReturnToRun, 1) == [];
    assert RootCandidates(ReturnToRun) == [ChildSource(InnerBody)];
    assert ChildRootCandidates(OuterBlock, 1) == [];
    assert RootCandidates(OuterBlock) == [ChildSource(OuterBody), ChildSource(InnerBody)];
    assert ChildRootCandidates(OuterFunction, 1) == [];
    assert RootCandidates(OuterFunction) == [ChildSource(OuterBody), ChildSource(InnerBody)];
    assert ChildRootCandidates(RunCall, 1) == [];
    assert RootCandidates(RunCall) == [ChildSource(OuterBody), ChildSource(InnerBody)];
    assert ChildRootCandidates(X4Decl, 1) == [];
    assert RootCandidates(X4Decl) == X4RootList;
    X4RootsAreDistinct();
  }

  lemma X4RootsAreDistinct()
    ensures AddAll([], X4RootList) == X4RootList
  {
    var p, o, i := ChildSource(PropertyX4), ChildSource(OuterBody), ChildSource(InnerBody);
    assert p != o && p != i && o != i;
    assert X4RootList[1..] == [o, i] && [o, i][1..] == [i];
    assert LinkedSets.Add([], p) == [p];
    assert LinkedSets.Add([p], o) == [p, o];
    assert LinkedSets.Add([p, o], i) == [p, o, i];
    assert AddAll([p, o, i], []) == [p, o, i];
    assert AddAll([p, o], [i]) == [p, o, i];
    assert AddAll([p], [o, i]) == [p, o, i];
  }

  /** The PSI labels of the return: only `lambda`, on the labeled inner lambda. */
  lemma X4ReturnPsiLabels()
    ensures PsiLabels(ReturnNode) == [ChildSource(InnerLabelNode)]
  {
    assert FindChildByType(LabeledInner.children, LabelQualifier) == Some(InnerQualifier);
    assert FindChildByType(InnerQualifier.children, Label) == Some(InnerLabelNode);
    assert PsiLabels(InnerLabelNode) == [] && PsiChildLabels(InnerQualifier, 1) == [];
    assert PsiLabels(InnerQualifier) == [];
    assert PsiLabels(InnerBody) == [] && PsiChildLabels(InnerLambda, 1) == [];
    assert PsiLabels(InnerLambda) == [];
    assert PsiChildLabels(LabeledInner, 1) == [];
    assert PsiLabels(LabeledInner) == [ChildSource(InnerLabelNode)];
    assert PsiChildLabels(Parenthesized, 1) == [];
    assert PsiLabels(Parenthesized) == [ChildSource(InnerLabelNode)];
    assert PsiLabels(RunLabelNode) == [] && PsiChildLabels(RunQualifier, 1) == [];
    assert PsiLabels(RunQualifier) == [];
    assert PsiChildLabels(ReturnNode, 1) == [ChildSource(InnerLabelNode)];
  }

  lemma X4PsiLabels()
    ensures PsiLabels(PropertyX4) == [ChildSource(InnerLabelNode)]
  {
    X4ReturnPsiLabels();
    assert PsiChildLabels(OuterBody, 0) == [ChildSource(InnerLabelNode)];
    assert PsiLabels(OuterBody) == [ChildSource(InnerLabelNode)];
    assert PsiChildLabels(OuterLambda, 1) == [];
    assert PsiChildLabels(OuterLambda, 0) == [ChildSource(InnerLabelNode)];
    assert PsiLabels(OuterLambda) == [ChildSource(InnerLabelNode)];
    assert PsiChildLabels(PropertyX4, 1) == [];
    assert PsiChildLabels(PropertyX4, 0) == [ChildSource(InnerLabelNode)];
  }

  /** Below the inner lambda the walk stops at its body, a root of its own. */
  lemma X4InnerLambdaLightTree()
    ensures LabelsBelow(ChildSource(LabeledInner), X4RootList, true) == [ChildSource(InnerLabelNode)]
  {
    var roots := X4RootList;
    assert ChildSource(LabeledInner) !in roots && ChildSource(InnerQualifier) !in roots;
    assert ChildSource(InnerLabelNode) !in roots && ChildSource(InnerLambda) !in roots;
    assert FindChildByType(LabeledInner.children, LabelQualifier) == Some(InnerQualifier);
    assert FindChildByType(InnerQualifier.children, Label) == Some(InnerLabelNode);
    assert LabelsBelow(ChildSource(InnerLabelNode), roots, true) == [];
    assert ChildLabels(InnerQualifier, roots, 1) == [];
    assert LabelsBelow(ChildSource(InnerQualifier), roots, true) == [];
    assert LabelsBelow(ChildSource(InnerBody), roots, true) == [];
    assert ChildLabels(InnerLambda, roots, 1) == [];
    assert LabelsBelow(ChildSource(InnerLambda), roots, true) == [];
    assert ChildLabels(LabeledInner, roots, 1) == [];
  }

  /** The walk from the outer body finds `lambda`; the `@run` qualifier adds nothing. */
  lemma X4OuterBodyLightTree()
    ensures LabelsBelow(ChildSource(OuterBody), X4RootList, false) == [ChildSource(InnerLabelNode)]
  {
    var roots := X4RootList;
    X4InnerLambdaLightTree();
    assert ChildSource(Parenthesized) !in roots && ChildSource(ReturnNode) !in roots;
    assert ChildSource(RunQualifier) !in roots && ChildSource(RunLabelNode) !in roots;
    assert ChildLabels(Parenthesized, roots, 1) == [];
    assert LabelsBelow(ChildSource(Parenthesized), roots, true) == [ChildSource(InnerLabelNode)];
    assert LabelsBelow(ChildSource(RunLabelNode), roots, true) == [];
    assert ChildLabels(RunQualifier, roots, 1) == [];
    assert LabelsBelow(ChildSource(RunQualifier), roots, true) == [];
    assert ChildLabels(ReturnNode, roots, 1) == [ChildSource(InnerLabelNode)];
    assert LabelsBelow(ChildSource(ReturnNode), roots, true) == [ChildSource(InnerLabelNode)];
    assert ChildLabels(OuterBody, roots, 1) == [];
  }

  /** The walk from the property stops at the outer body; the walk from the inner body
      finds nothing. */
  lemma X4LightTreeLabels()
    ensures LabelsFromRoots(X4RootList, X4RootList) == [ChildSource(InnerLabelNode)]
  {
    var roots := X4RootList;
    X4OuterBodyLightTree();
    assert LabelsBelow(ChildSource(OuterBody), roots, true) == [];
    assert ChildSource(OuterLambda) !in roots;
    assert ChildLabels(OuterLambda, roots, 1) == [];
    assert LabelsBelow(ChildSource(OuterLambda), roots, true) == [];
    assert ChildLabels(PropertyX4, roots, 1) == [];
    assert LabelsBelow(ChildSource(PropertyX4), roots, false) == [];
    assert LabelsBelow(ChildSource(InnerBody), roots, false) == [];
    assert roots[..2][..1] == roots[..1] && roots[..1][..0] == [];
    assert LabelsFromRoots(roots[..1], roots) == [];
    assert LabelsFromRoots(roots[..2], roots) == [ChildSource(InnerLabelNode)];
    assert roots[..3] == roots;
  }

  /** The labeled return marks `run`; the inner lambda's implicit return marks nothing. */
  lemma X4ReturnReferences()
    ensures ReferencedLabels(ReturnToRun) == [RunLabel]
  {
    assert ReferencedLabels(InnerReturn) == [];
    assert ChildReferencedLabels(InnerBlock, 1) == [];
    assert ReferencedLabels(InnerBlock) == [];
    assert ChildReferencedLabels(InnerFunction, 1) == [];
    assert ReferencedLabels(InnerFunction) == [];
    assert ChildReferencedLabels(ReturnToRun, 1) == [];
    assert ChildReferencedLabels(ReturnToRun, 0) == [];
    assert HandlerLabels(ReturnToRun.kind) == [RunLabel];
  }

  lemma X4LambdaReferences()
    ensures ReferencedLabels(OuterFunction) == [RunLabel]
  {
    X4ReturnReferences();
    assert ChildReferencedLabels(OuterBlock, 1) == [];
    assert ChildReferencedLabels(OuterBlock, 0) == [RunLabel];
    assert ReferencedLabels(OuterBlock) == [RunLabel];
    assert ChildReferencedLabels(OuterFunction, 1) == [];
    assert ChildReferencedLabels(OuterFunction, 0) == [RunLabel];
  }

  /** Only `run`, which has no source, is referenced. */
  lemma X4References()
    ensures ReferencedLabels(X4Decl) == [RunLabel]
    ensures ReferencedSources(X4Decl) == []
  {
    X4LambdaReferences();
    assert ChildReferencedLabels(RunCall, 1) == [];
    assert ReferencedLabels(RunCall) == [RunLabel];
    assert ChildReferencedLabels(X4Decl, 1) == [];
    assert SourcesOf([RunLabel]) == [];
  }

  /** lambdaArgumentWithLabel.fir.kt, `x4`: `return@run` does not use `lambda@`, which
      both checks report. */
  lemma X4LambdaLabelIsRedundant()
    ensures LightTreeUnusedLabels(X4Decl) == [ChildSource(InnerLabelNode)]
    ensures PsiUnusedLabels(X4Decl, ChildSource(PropertyX4)) == [ChildSource(InnerLabelNode)]
  {
    X4Roots();
    X4LightTreeLabels();
    X4PsiLabels();
    X4References();
    assert IsRootLabelContainer(X4Decl);
    assert AddAll([], [ChildSource(InnerLabelNode)]) == [ChildSource(InnerLabelNode)];
  }
}
