/**
 * pitest's `TestNGTestUnit`: one test method of one class, run through the
 * TestNG engine behind an isolation guard. The unit refuses to run when the
 * class-loader detection strategy reports that the test class came from a
 * different loader than the one supplied; otherwise it builds a descriptor
 * naming exactly that method and configures and runs a fresh engine.
 */
module TestNGUnit {
  import opened TestNGEngine

  /** A class loader, identified by an opaque number. */
  datatype ClassLoader = ClassLoader(id: nat)

  /** A loaded Java class: its fully qualified name and the loader that defined it. The
    * loader is part of a class's identity (two loaders may each define a class of the same
    * name) and is what a detection strategy inspects; the model reads only the name. */
  datatype JavaClass = JavaClass(name: string, definingLoader: ClassLoader)

  /** `ClassLoaderDetectionStrategy.fromDifferentLoader(clazz, loader)`: left uninterpreted. */
  type ClassLoaderDetectionStrategy = (JavaClass, ClassLoader) -> bool

  /** pitest's `Description(name, testClass)` identifying a test. */
  datatype Description = Description(name: string, testClass: JavaClass)

  /** pitest's `PitError`, carrying its message. */
  datatype PitError = PitError(message: string)

  /** How a call to `execute` ends: it returns normally, or throws. */
  datatype Outcome = Returned | Thrown(error: PitError)

  /** The fixed message of the isolation-guard error. */
  const StaticInitializerMessage: string := "mutation of static initializers not currently supported for TestNG"

  /** The caller's `ResultCollector`, handled only as a reference. */
  class ResultCollector {
    constructor () { }
  }

  /** `TestNGAdapter(description, rc)`: the listener bound to one test and one collector.
    * How it maps TestNG callbacks to the collector is not part of this model. */
  class TestNGAdapter {
    const description: Description
    const collector: ResultCollector

    constructor (description: Description, collector: ResultCollector)
      ensures this.description == description && this.collector == collector
      ensures forall o: object {:trigger allocated(o)} :: allocated(o) && !old(allocated(o)) ==> o == this
    {
      this.description := description;
      this.collector := collector;
    }
  }

  /** The descriptor `createSuite` builds for a class name and a method name, as a value:
    * a suite named after the class, holding one test named after the method, holding
    * one class entry named after the class, which includes just that method. */
  function SuiteFor(className: string, methodName: string): SuiteDesc
  {
    SuiteDesc(className, [TestDesc(methodName, [ClassDesc(className, [methodName])])])
  }

  /** The names in `SuiteFor` come from the two inputs as the source assigns them. */
  lemma SuiteForNames(className: string, methodName: string)
    ensures var d := SuiteFor(className, methodName);
            && d.name == className
            && |d.tests| == 1 && d.tests[0].name == methodName
            && |d.tests[0].classes| == 1 && d.tests[0].classes[0].name == className
            && d.tests[0].classes[0].includes == [methodName]
  {
  }

  /** Of the methods a class declares, those an include list admits, in declaration order. */
  function IncludedMethods(declared: seq<string>, includes: seq<string>): seq<string>
  {
    if declared == [] then []
    else (if declared[0] in includes then [declared[0]] else []) + IncludedMethods(declared[1..], includes)
  }

  /** A method is admitted exactly when the class declares it and the include list names it. */
  lemma {:induction false} IncludedMethodsMembership(declared: seq<string>, includes: seq<string>)
    ensures forall m :: m in IncludedMethods(declared, includes) <==> m in declared && m in includes
  {
    if declared != [] {
      IncludedMethodsMembership(declared[1..], includes);
      assert forall m :: m in declared <==> m == declared[0] || m in declared[1..];
    }
  }

  /** The class entry of `SuiteFor(c, m)` admits method `m` if the class declares it, and
    * no other method the class declares, whatever else it declares. */
  lemma SuiteForSelectsOnlyTheMethod(className: string, methodName: string, declared: seq<string>)
    ensures var entry := SuiteFor(className, methodName).tests[0].classes[0];
            forall m :: m in IncludedMethods(declared, entry.includes) <==> m == methodName && m in declared
  {
    IncludedMethodsMembership(declared, [methodName]);
  }

  /** The engine calls of `execute` on a new engine: disable the default listeners, set
    * the suite list to exactly `suite`, add `listener`, and run once, on the suites as
    * they stand, which describe `d`. */
  method RunSuite(testng: TestNG, suite: XmlSuite, listener: TestNGAdapter, ghost d: SuiteDesc)
    requires testng.calls == [] && testng.ran == [] && testng.listeners == []
    requires DescsOf([suite]) == [d]
    modifies testng
    ensures !testng.useDefaultListeners && testng.xmlSuites == [suite] && testng.listeners == [listener]
    ensures testng.calls == [EngineCall.SetUseDefaultListeners(false), EngineCall.SetXmlSuites([suite]),
                             EngineCall.AddListener(listener), EngineCall.Run]
    ensures testng.ran == [[d]]
    ensures forall o: object {:trigger allocated(o)} :: allocated(o) ==> old(allocated(o))
  {
    testng.SetUseDefaultListeners(false);
    assert testng.calls == [EngineCall.SetUseDefaultListeners(false)];
    testng.SetXmlSuites([suite]);
    assert testng.calls == [EngineCall.SetUseDefaultListeners(false), EngineCall.SetXmlSuites([suite])];
    testng.AddListener(listener);
    testng.Run();
  }

  class TestNGTestUnit {
    const classloaderDetection: ClassLoaderDetectionStrategy
    const clazz: JavaClass
    const methodName: string
    /** What `AbstractTestUnit.getDescription()` returns. */
    const description: Description

    constructor (classloaderDetection: ClassLoaderDetectionStrategy, clazz: JavaClass, methodName: string)
      ensures this.classloaderDetection == classloaderDetection
      ensures this.clazz == clazz && this.methodName == methodName
      ensures description == Description(methodName, clazz)
    {
      this.description := Description(methodName, clazz);
      this.clazz := clazz;
      this.classloaderDetection := classloaderDetection;
      this.methodName := methodName;
    }

    /** `createSuite()`: a fresh descriptor tree of one suite, one test, one class entry
      * and one include, whose names are those of `SuiteFor(clazz.name, methodName)`. */
    method CreateSuite() returns (suite: XmlSuite, ghost test: XmlTest, ghost xclass: XmlClass, ghost xinclude: XmlInclude)
      ensures fresh(suite) && fresh(test) && fresh(xclass) && fresh(xinclude)
      ensures suite.tests == [test] && test.suite == suite
      ensures test.xmlClasses == [xclass] && xclass.includedMethods == [xinclude]
      ensures suite.name == clazz.name && test.name == methodName
      ensures xclass.name == clazz.name && xinclude.name == methodName
      ensures suite.Desc() == SuiteFor(clazz.name, methodName)
      ensures forall o: object {:trigger allocated(o)} :: allocated(o) && !old(allocated(o)) ==>
                o == suite || o == test || o == xclass || o == xinclude
    {
      suite := new XmlSuite();
      suite.SetName(clazz.name);
      var t := new XmlTest(suite);
      t.SetName(methodName);
      var c := new XmlClass(clazz.name);
      var i := new XmlInclude(methodName);
      c.SetIncludedMethods([i]);
      t.SetXmlClasses([c]);
      test, xclass, xinclude := t, c, i;
      SingleChainDesc(suite, test, xclass, xinclude);
    }

    /** Two `createSuite()` calls give two distinct suites with the same names. */
    method CreateSuiteRepeatable() returns (first: XmlSuite, second: XmlSuite)
      ensures fresh(first) && fresh(second) && first != second
      ensures first.Desc() == second.Desc() == SuiteFor(clazz.name, methodName)
    {
      ghost var t, c, i;
      first, t, c, i := CreateSuite();
      second, t, c, i := CreateSuite();
    }

    /** `execute(loader, rc)`. When the detection strategy reports that the test class came
      * from a different loader, it throws the fixed `PitError` and builds nothing: no
      * listener, engine or suite exists and the collector is handed to nobody. Otherwise
      * it builds the listener for this test and collector, a fresh engine and a fresh
      * suite, then disables the default listeners, sets the suite list to exactly that
      * suite, adds the listener, and runs the engine once, in that order, on that suite
      * exactly as `createSuite` built it. The ghost
      * results expose the objects it builds. */
    method Execute(loader: ClassLoader, rc: ResultCollector)
      returns (outcome: Outcome, ghost engine: TestNG?, ghost listener: TestNGAdapter?, ghost suite: XmlSuite?)
      ensures outcome.Thrown? <==> classloaderDetection(clazz, loader)
      ensures outcome.Thrown? ==>
                && outcome.error == PitError(StaticInitializerMessage)
                && engine == null && listener == null && suite == null
                && (forall o: object {:trigger allocated(o)} :: allocated(o) ==> old(allocated(o)))
      ensures outcome.Returned? ==>
                && engine != null && listener != null && suite != null
                && fresh(engine) && fresh(listener) && fresh(suite)
                && listener.description == description && listener.collector == rc
                && suite.Desc() == SuiteFor(clazz.name, methodName)
                && !engine.useDefaultListeners
                && engine.xmlSuites == [suite]
                && engine.listeners == [listener]
                && engine.calls == [EngineCall.SetUseDefaultListeners(false), EngineCall.SetXmlSuites([suite]),
                                    EngineCall.AddListener(listener), EngineCall.Run]
                && engine.ran == [[SuiteFor(clazz.name, methodName)]]
                && (forall o: object {:trigger allocated(o)} :: allocated(o) && !old(allocated(o)) ==>
                      o == engine || o == listener || o == suite || o in suite.tests
                      || (exists t :: t in suite.tests && o in t.xmlClasses)
                      || (exists t, c :: t in suite.tests && c in t.xmlClasses && o in c.includedMethods))
    {
      if classloaderDetection(clazz, loader) {
        return Thrown(PitError(StaticInitializerMessage)), null, null, null;
      }
      var adapter := new TestNGAdapter(description, rc);
      var testng := new TestNG();
      var s;
      ghost var t, c, i;
      s, t, c, i := CreateSuite();
      SingleChainDesc(s, t, c, i);
      assert DescsOf([s]) == [SuiteFor(clazz.name, methodName)];
      RunSuite(testng, s, adapter, SuiteFor(clazz.name, methodName));
      outcome, engine, listener, suite := Returned, testng, adapter, s;
    }
  }
}
