/**
 * How the JUnit 5 runner turns the classes and the optional test name it is
 * launched with into test references: one reference per class, selecting
 * the named method of the class when a test name is given and the whole
 * class otherwise.
 */
module JUnit5TestLoader {
  import opened Wrappers
  import opened StatusReporter

  /** A test class, known by its binary name. */
  datatype TestClass = TestClass(name: string)

  datatype DiscoverySelector = ClassSelector(testClass: TestClass) | MethodSelector(testClass: TestClass, methodName: string)

  /** A discovery request, built from the selectors it was given. */
  datatype DiscoveryRequest = DiscoveryRequest(selectors: seq<DiscoverySelector>)

  /** A test reference: the name it is reported under and the request it discovers. */
  datatype TestReference = TestReference(name: string, request: DiscoveryRequest)

  /** getIdentifier: the identifier whose display name is the reference's name. */
  function Identifier(r: TestReference): (id: TestIdentifier)
    ensures id.displayName == r.name
  {
    TestIdentifier(r.name)
  }

  /** A test name that is present and not empty selects a method. */
  predicate SelectsMethod(testName: Option<string>) {
    testName.Some? && testName.value != ""
  }

  /** createTestReference: a reference under the name, whose request selects exactly the given selectors. */
  function CreateTestReference(name: string, selectors: seq<DiscoverySelector>): (r: TestReference)
    ensures r.name == name && r.request.selectors == selectors
    ensures Identifier(r).displayName == name
  {
    TestReference(name, DiscoveryRequest(selectors))
  }

  /** The reference loadTests makes for one class. */
  function ReferenceFor(testName: Option<string>, c: TestClass): (r: TestReference)
    ensures |r.request.selectors| == 1 && r.request.selectors[0].testClass == c
    ensures r.request.selectors[0].MethodSelector? <==> SelectsMethod(testName)
    ensures SelectsMethod(testName) ==> r.name == testName.value && r.request.selectors[0].methodName == testName.value
    ensures !SelectsMethod(testName) ==> r.name == c.name
  {
    if SelectsMethod(testName) then CreateTestReference(testName.value, [MethodSelector(c, testName.value)])
    else CreateTestReference(c.name, [ClassSelector(c)])
  }

  /** The references for the classes, in the order of the classes. */
  function ReferencesFor(testName: Option<string>, classes: seq<TestClass>): seq<TestReference> {
    if classes == [] then [] else ReferencesFor(testName, classes[..|classes| - 1]) + [ReferenceFor(testName, classes[|classes| - 1])]
  }

  lemma {:induction false} ReferencesForAt(testName: Option<string>, classes: seq<TestClass>)
    ensures |ReferencesFor(testName, classes)| == |classes|
    ensures forall i :: 0 <= i < |classes| ==> ReferencesFor(testName, classes)[i] == ReferenceFor(testName, classes[i])
  {
    if classes != [] {
      ReferencesForAt(testName, classes[..|classes| - 1]);
    }
  }

  /**
   * loadTests: a reference per class is added to a hash set (references are
   * distinct objects, so none is lost), and the set is returned as an array
   * in an order the set chooses.
   */
  method LoadTests(classes: seq<TestClass>, testName: Option<string>) returns (refs: seq<TestReference>)
    ensures multiset(refs) == multiset(ReferencesFor(testName, classes))
  {
    var result: multiset<TestReference> := multiset{};
    for i := 0 to |classes|
      invariant result == multiset(ReferencesFor(testName, classes[..i]))
    {
      var testClass := classes[i];
      assert classes[..i + 1][..i] == classes[..i];
      if testName.Some? && testName.value != "" {
        result := result + multiset{CreateTestReference(testName.value, [MethodSelector(testClass, testName.value)])};
      } else {
        result := result + multiset{CreateTestReference(testClass.name, [ClassSelector(testClass)])};
      }
    }
    assert classes[..|classes|] == classes;
    refs := ToArray(result);
  }

  /** Set.toArray: the elements of the set, each as often as it occurs, in some order. */
  method ToArray(result: multiset<TestReference>) returns (refs: seq<TestReference>)
    ensures multiset(refs) == result
  {
    var rest := result;
    refs := [];
    while rest != multiset{}
      invariant multiset(refs) + rest == result
      decreases |rest|
    {
      var r :| r in rest;
      refs := refs + [r];
      rest := rest - multiset{r};
    }
  }

  /**
   * What the loaded references are: exactly one per class, each class
   * getting its own, each with a single selector of the same kind, and all
   * named after the test name when it selects a method.
   */
  lemma LoadedReferences(classes: seq<TestClass>, testName: Option<string>, refs: seq<TestReference>)
    requires multiset(refs) == multiset(ReferencesFor(testName, classes))
    ensures |refs| == |classes|
    ensures forall i :: 0 <= i < |classes| ==> ReferenceFor(testName, classes[i]) in refs
    ensures forall r :: r in refs ==> exists i :: 0 <= i < |classes| && r == ReferenceFor(testName, classes[i])
    ensures forall r :: r in refs ==> |r.request.selectors| == 1 && (r.request.selectors[0].MethodSelector? <==> SelectsMethod(testName))
    ensures SelectsMethod(testName) ==> forall r :: r in refs ==> Identifier(r).displayName == testName.value
  {
    var all := ReferencesFor(testName, classes);
    ReferencesForAt(testName, classes);
    assert |refs| == |multiset(refs)| == |multiset(all)| == |all|;
    forall i | 0 <= i < |classes|
      ensures ReferenceFor(testName, classes[i]) in refs
    {
      assert all[i] in multiset(all);
    }
    forall r | r in refs
      ensures exists i :: 0 <= i < |classes| && r == ReferenceFor(testName, classes[i])
    {
      assert r in multiset(all);
      var i :| 0 <= i < |all| && all[i] == r;
      assert r == ReferenceFor(testName, classes[i]);
    }
  }
}
