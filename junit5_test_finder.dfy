/**
 * How the JUnit 5 test finder decides that a Java type is a test: the type
 * must be a class reachable from its file through static, non-private
 * member types, must not be abstract, and it or one of its superclasses
 * must declare a method annotated org.junit.gen5.api.Test.
 */
module JUnit5TestFinder {
  import opened Wrappers

  // ----- the Java model: types, their flags and their parents -----

  datatype Flags = Flags(isInterface: bool, isStatic: bool, isPrivate: bool)

  /** A type of the Java model, with the element it is declared in. */
  datatype JavaType = JavaType(name: string, flags: Flags, parent: Parent)

  /**
   * The parent of a type: its compilation unit, its class file, the type it
   * is a member of, or any other element (a method or an initializer, for a
   * local or anonymous class).
   */
  datatype Parent = CompilationUnitParent | ClassFileParent | TypeParent(enclosing: JavaType) | OtherParent

  predicate IsFile(p: Parent) {
    p.CompilationUnitParent? || p.ClassFileParent?
  }

  /** The type followed by the types it is nested in, innermost first. */
  function Chain(t: JavaType): seq<JavaType>
    decreases t
  {
    match t.parent
    case TypeParent(enclosing) => [t] + Chain(enclosing)
    case _ => [t]
  }

  /** The first parent up the chain that is not a type. */
  function Root(t: JavaType): Parent
    decreases t
  {
    match t.parent
    case TypeParent(enclosing) => Root(enclosing)
    case p => p
  }

  /**
   * The chain is the type and its enclosing types: each but the last has
   * the next as parent, and the last has the root as parent.
   */
  lemma {:induction false} ChainParents(t: JavaType)
    ensures Chain(t)[0] == t
    ensures forall k {:trigger Chain(t)[k]} :: 0 <= k < |Chain(t)| - 1 ==> Chain(t)[k].parent == TypeParent(Chain(t)[k + 1])
    ensures Chain(t)[|Chain(t)| - 1].parent == Root(t) && !Root(t).TypeParent?
    decreases t
  {
    match t.parent
    case TypeParent(enclosing) =>
      ChainParents(enclosing);
      assert Chain(t) == [t] + Chain(enclosing);
    case _ =>
  }

  /**
   * A class whose chain reaches a compilation unit or class file, every type
   * on it that is a member of another being static and not private.
   */
  ghost predicate Accessible(t: JavaType) {
    && !t.flags.isInterface
    && IsFile(Root(t))
    && forall k :: 0 <= k < |Chain(t)| - 1 ==> Chain(t)[k].flags.isStatic && !Chain(t)[k].flags.isPrivate
  }

  /** A local or anonymous class, or a member of one, is never accessible. */
  lemma NotAccessibleInsideOther(t: JavaType, k: nat)
    requires k < |Chain(t)| && Chain(t)[k].parent == OtherParent
    ensures !Accessible(t)
  {
    ChainParents(t);
    assert k == |Chain(t)| - 1;
  }

  /** isAccessibleClass: walks the parents, checking the flags of the type below each. */
  method IsAccessibleClass(t: JavaType) returns (b: bool)
    ensures b == Accessible(t)
    ensures t.flags.isInterface ==> !b
  {
    var flags := t.flags;
    if flags.isInterface {
      return false;
    }
    var parent := t.parent;
    ghost var current := t;
    ghost var visited: seq<JavaType> := [];
    while true
      invariant parent == current.parent && flags == current.flags
      invariant Chain(t) == visited + Chain(current) && Root(t) == Root(current)
      invariant forall k :: 0 <= k < |visited| ==> visited[k].flags.isStatic && !visited[k].flags.isPrivate
      decreases |Chain(current)|
    {
      if parent.CompilationUnitParent? || parent.ClassFileParent? {
        return true;
      }
      if !parent.TypeParent? || !flags.isStatic || flags.isPrivate {
        assert Chain(t)[|visited|] == current;
        return false;
      }
      visited := visited + [current];
      current := parent.enclosing;
      flags := parent.enclosing.flags;
      parent := parent.enclosing.parent;
    }
  }

  // ----- bindings and the Test annotation -----

  /** An annotation instance; its annotation type's qualified name when the type resolves. */
  datatype AnnotationBinding = AnnotationBinding(annotationType: Option<string>)

  datatype MethodBinding = MethodBinding(name: string, annotations: seq<AnnotationBinding>)

  datatype TypeBinding = TypeBinding(isAbstract: bool, declaredMethods: seq<MethodBinding>, superclass: Option<TypeBinding>)

  datatype Annotation = Annotation(name: string)

  const TEST := Annotation("org.junit.gen5.api.Test")

  ghost predicate AnnotatedBy(ann: Annotation, annotations: seq<AnnotationBinding>) {
    exists i :: 0 <= i < |annotations| && annotations[i].annotationType == Some(ann.name)
  }

  /** The type and its superclasses, up to the one without superclass. */
  function Hierarchy(t: Option<TypeBinding>): seq<TypeBinding>
    decreases t
  {
    match t
    case None => []
    case Some(b) => [b] + Hierarchy(b.superclass)
  }

  ghost predicate DeclaresAnnotated(ann: Annotation, t: TypeBinding) {
    exists i :: 0 <= i < |t.declaredMethods| && AnnotatedBy(ann, t.declaredMethods[i].annotations)
  }

  ghost predicate HierarchyAnnotated(ann: Annotation, t: Option<TypeBinding>) {
    exists k :: 0 <= k < |Hierarchy(t)| && DeclaresAnnotated(ann, Hierarchy(t)[k])
  }

  /** A type inherits the annotated methods of its superclasses. */
  lemma InheritedAnnotations(ann: Annotation, t: TypeBinding)
    ensures HierarchyAnnotated(ann, Some(t)) <==> DeclaresAnnotated(ann, t) || HierarchyAnnotated(ann, t.superclass)
  {
    var h := Hierarchy(Some(t));
    assert h == [t] + Hierarchy(t.superclass);
    if DeclaresAnnotated(ann, t) {
      assert h[0] == t;
    }
    if HierarchyAnnotated(ann, t.superclass) {
      var k :| 0 <= k < |Hierarchy(t.superclass)| && DeclaresAnnotated(ann, Hierarchy(t.superclass)[k]);
      assert h[k + 1] == Hierarchy(t.superclass)[k];
    }
    if HierarchyAnnotated(ann, Some(t)) && !DeclaresAnnotated(ann, t) {
      var k :| 0 <= k < |h| && DeclaresAnnotated(ann, h[k]);
      assert k > 0 && Hierarchy(t.superclass)[k - 1] == h[k];
      assert DeclaresAnnotated(ann, Hierarchy(t.superclass)[k - 1]);
    }
  }

  /** Annotation.annotates: some annotation's resolved type has this name. */
  method Annotates(ann: Annotation, annotations: seq<AnnotationBinding>) returns (b: bool)
    ensures b == AnnotatedBy(ann, annotations)
  {
    for i := 0 to |annotations|
      invariant forall j :: 0 <= j < i ==> annotations[j].annotationType != Some(ann.name)
    {
      var annotationType := annotations[i].annotationType;
      if annotationType.Some? && annotationType.value == ann.name {
        return true;
      }
    }
    return false;
  }

  /** Annotation.annotatesAtLeastOneMethod: the methods of the type, then of each superclass. */
  method AnnotatesAtLeastOneMethod(ann: Annotation, t: Option<TypeBinding>) returns (b: bool)
    ensures b == HierarchyAnnotated(ann, t)
  {
    var current := t;
    ghost var visited: seq<TypeBinding> := [];
    while current.Some?
      invariant Hierarchy(t) == visited + Hierarchy(current)
      invariant forall k :: 0 <= k < |visited| ==> !DeclaresAnnotated(ann, visited[k])
      decreases current
    {
      var declaredMethods := current.value.declaredMethods;
      for i := 0 to |declaredMethods|
        invariant forall j :: 0 <= j < i ==> !AnnotatedBy(ann, declaredMethods[j].annotations)
      {
        var annotated := Annotates(ann, declaredMethods[i].annotations);
        if annotated {
          assert Hierarchy(t)[|visited|] == current.value;
          return true;
        }
      }
      visited := visited + [current.value];
      current := current.value.superclass;
    }
    assert Hierarchy(t) == visited;
    return false;
  }

  /** isTest(ITypeBinding): not abstract, and some method up the superclass chain is a @Test. */
  method IsTestBinding(binding: TypeBinding) returns (b: bool)
    ensures b == (!binding.isAbstract && HierarchyAnnotated(TEST, Some(binding)))
  {
    if binding.isAbstract {
      return false;
    }
    b := AnnotatesAtLeastOneMethod(TEST, Some(binding));
  }

  // ----- internalIsTest, over what the AST parser would answer -----

  datatype SourceRange = SourceRange(offset: int, length: int)

  /** isAvailable: a source range that exists and has an offset; -1 marks an unknown offset. */
  predicate IsAvailable(range: Option<SourceRange>): (available: bool)
    ensures range.None? ==> !available
    ensures range.Some? ==> (available <==> range.value.offset != -1)
  {
    range.Some? && range.value.offset != -1
  }

  datatype Binding = TypeBindingOf(binding: TypeBinding) | OtherBinding

  /** What findDeclaringNode returns for the type's key. */
  datatype DeclaringNode = TypeDeclaration(resolved: Option<TypeBinding>) | OtherNode | NoNode

  /**
   * What the Java model and the AST parser give for a type: whether it has a
   * compilation unit, its source range, the bindings createBindings makes
   * for it, and the node declaring it in the parsed AST.
   */
  datatype TypeSource = TypeSource(
    hasCompilationUnit: bool,
    sourceRange: Option<SourceRange>,
    createdBindings: seq<Binding>,
    declaringNode: DeclaringNode)

  ghost predicate IsTestSpec(binding: TypeBinding) {
    !binding.isAbstract && HierarchyAnnotated(TEST, Some(binding))
  }

  /**
   * When internalIsTest holds: for an accessible class only, with the type
   * binding from the parsed source when there is a compilation unit or an
   * available source range, and else from createBindings, which must give
   * exactly one type binding.
   */
  ghost predicate TypeIsTest(t: JavaType, source: TypeSource) {
    && Accessible(t)
    && if source.hasCompilationUnit || IsAvailable(source.sourceRange) then
         && source.declaringNode.TypeDeclaration?
         && source.declaringNode.resolved.Some?
         && IsTestSpec(source.declaringNode.resolved.value)
       else
         && |source.createdBindings| == 1
         && source.createdBindings[0].TypeBindingOf?
         && IsTestSpec(source.createdBindings[0].binding)
  }

  method InternalIsTest(t: JavaType, source: TypeSource) returns (b: bool)
    ensures b == TypeIsTest(t, source)
  {
    var accessible := IsAccessibleClass(t);
    if accessible {
      if !source.hasCompilationUnit && !IsAvailable(source.sourceRange) {
        var bindings := source.createdBindings;
        if |bindings| == 1 && bindings[0].TypeBindingOf? {
          b := IsTestBinding(bindings[0].binding);
          return;
        }
        return false;
      }
      var node := source.declaringNode;
      if node.TypeDeclaration? {
        if node.resolved.Some? {
          b := IsTestBinding(node.resolved.value);
          return;
        }
      }
    }
    return false;
  }

  /** isTest(IType): internalIsTest without a progress monitor. */
  method IsTest(t: JavaType, source: TypeSource) returns (b: bool)
    ensures b == TypeIsTest(t, source)
    ensures t.flags.isInterface ==> !b
  {
    b := InternalIsTest(t, source);
  }

  /** findTestsInContainer finds nothing: the set of tests it is given stays as it is. */
  method FindTestsInContainer(result: set<JavaType>) returns (after: set<JavaType>)
    ensures after == result
  {
    after := result;
  }
}
