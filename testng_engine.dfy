/**
 * Stand-ins for the TestNG library objects the test unit drives: the XML
 * suite descriptor classes, which are built through setters, and the
 * TestNG engine, which is modelled only as a recorder of the configuration
 * calls made on it and of its runs. What a run does inside TestNG is not
 * part of this model.
 */
module TestNGEngine {

  /** The names an `XmlSuite` object graph carries, as a value. */
  datatype SuiteDesc = SuiteDesc(name: string, tests: seq<TestDesc>)
  datatype TestDesc = TestDesc(name: string, classes: seq<ClassDesc>)
  datatype ClassDesc = ClassDesc(name: string, includes: seq<string>)

  /** `XmlInclude(name)`: names one method to include. */
  class XmlInclude {
    const name: string

    constructor (name: string)
      ensures this.name == name
      ensures forall o: object {:trigger allocated(o)} :: allocated(o) && !old(allocated(o)) ==> o == this
    {
      this.name := name;
    }
  }

  /** `XmlClass(name)`: one class entry of a test, with its included methods. */
  class XmlClass {
    const name: string
    var includedMethods: seq<XmlInclude>

    constructor (name: string)
      ensures this.name == name && includedMethods == []
      ensures forall o: object {:trigger allocated(o)} :: allocated(o) && !old(allocated(o)) ==> o == this
    {
      this.name := name;
      includedMethods := [];
    }

    method SetIncludedMethods(includes: seq<XmlInclude>)
      modifies this
      ensures includedMethods == includes
      ensures forall o: object {:trigger allocated(o)} :: allocated(o) ==> old(allocated(o))
    {
      includedMethods := includes;
    }

    ghost function Desc(): ClassDesc
      reads this
    {
      ClassDesc(name, IncludeNames(includedMethods))
    }
  }

  /** The method names of a list of includes, in order. */
  function IncludeNames(includes: seq<XmlInclude>): (names: seq<string>)
    ensures |names| == |includes|
    ensures forall i :: 0 <= i < |includes| ==> names[i] == includes[i].name
  {
    if includes == [] then [] else [includes[0].name] + IncludeNames(includes[1..])
  }

  /** `XmlTest(suite)`: a test of a suite. TestNG's constructor registers the new
    * test in its parent suite's list of tests. */
  class XmlTest {
    const suite: XmlSuite
    var name: string
    var xmlClasses: seq<XmlClass>

    constructor (suite: XmlSuite)
      modifies suite
      ensures this.suite == suite && xmlClasses == []
      ensures suite.tests == old(suite.tests) + [this] && suite.name == old(suite.name)
      ensures forall o: object {:trigger allocated(o)} :: allocated(o) && !old(allocated(o)) ==> o == this
    {
      this.suite := suite;
      name := "";
      xmlClasses := [];
      new;
      suite.tests := suite.tests + [this];
    }

    method SetName(name: string)
      modifies this
      ensures this.name == name && xmlClasses == old(xmlClasses)
      ensures forall o: object {:trigger allocated(o)} :: allocated(o) ==> old(allocated(o))
    {
      this.name := name;
    }

    method SetXmlClasses(classes: seq<XmlClass>)
      modifies this
      ensures xmlClasses == classes && name == old(name)
      ensures forall o: object {:trigger allocated(o)} :: allocated(o) ==> old(allocated(o))
    {
      xmlClasses := classes;
    }

    ghost function Desc(): TestDesc
      reads this, set c | c in xmlClasses
    {
      TestDesc(name, ClassDescs(xmlClasses))
    }
  }

  ghost function ClassDescs(classes: seq<XmlClass>): seq<ClassDesc>
    reads set c | c in classes
  {
    if classes == [] then [] else [classes[0].Desc()] + ClassDescs(classes[1..])
  }

  /** `XmlSuite()`: the root of a descriptor. */
  class XmlSuite {
    var name: string
    var tests: seq<XmlTest>

    constructor ()
      ensures tests == []
      ensures forall o: object {:trigger allocated(o)} :: allocated(o) && !old(allocated(o)) ==> o == this
    {
      name := "";
      tests := [];
    }

    method SetName(name: string)
      modifies this
      ensures this.name == name && tests == old(tests)
      ensures forall o: object {:trigger allocated(o)} :: allocated(o) ==> old(allocated(o))
    {
      this.name := name;
    }

    ghost function Desc(): SuiteDesc
      reads this, set t | t in tests, set t, c | t in tests && c in t.xmlClasses :: c
    {
      SuiteDesc(name, TestDescs(tests))
    }
  }

  ghost function TestDescs(tests: seq<XmlTest>): seq<TestDesc>
    reads set t | t in tests, set t, c | t in tests && c in t.xmlClasses :: c
  {
    if tests == [] then [] else [tests[0].Desc()] + TestDescs(tests[1..])
  }

  /** A suite of one test of one class entry of one include describes just those names. */
  lemma SingleChainDesc(suite: XmlSuite, test: XmlTest, xclass: XmlClass, xinclude: XmlInclude)
    requires suite.tests == [test] && test.xmlClasses == [xclass] && xclass.includedMethods == [xinclude]
    ensures suite.Desc() == SuiteDesc(suite.name, [TestDesc(test.name, [ClassDesc(xclass.name, [xinclude.name])])])
  {
    assert IncludeNames(xclass.includedMethods) == [xinclude.name];
    assert ClassDescs(test.xmlClasses) == [xclass.Desc()];
    assert TestDescs(suite.tests) == [test.Desc()];
  }

  /** The descriptions of a list of suites, in order. */
  ghost function DescsOf(suites: seq<XmlSuite>): seq<SuiteDesc>
    reads set s | s in suites,
          set s, t | s in suites && t in s.tests :: t,
          set s, t, c | s in suites && t in s.tests && c in t.xmlClasses :: c
  {
    if suites == [] then [] else [suites[0].Desc()] + DescsOf(suites[1..])
  }

  /** One configuration call made on the engine, or a run. */
  datatype EngineCall =
    | SetUseDefaultListeners(flag: bool)
    | SetXmlSuites(suites: seq<XmlSuite>)
    | AddListener(listener: object)
    | Run

  /** `TestNG`: the engine, as a record of its configuration and of the calls made on it.
    * `ran` holds, for each run, the descriptions of the suites as they stood when it ran. */
  class TestNG {
    var useDefaultListeners: bool
    var xmlSuites: seq<XmlSuite>
    var listeners: seq<object>
    var calls: seq<EngineCall>
    ghost var ran: seq<seq<SuiteDesc>>

    /** A fresh engine starts with TestNG's default listeners switched on. */
    constructor ()
      ensures useDefaultListeners && xmlSuites == [] && listeners == [] && calls == [] && ran == []
      ensures forall o: object {:trigger allocated(o)} :: allocated(o) && !old(allocated(o)) ==> o == this
    {
      useDefaultListeners := true;
      xmlSuites := [];
      listeners := [];
      calls := [];
      ran := [];
    }

    method SetUseDefaultListeners(flag: bool)
      modifies this
      ensures useDefaultListeners == flag
      ensures xmlSuites == old(xmlSuites) && listeners == old(listeners)
      ensures calls == old(calls) + [EngineCall.SetUseDefaultListeners(flag)]
      ensures ran == old(ran)
      ensures forall o: object {:trigger allocated(o)} :: allocated(o) ==> old(allocated(o))
    {
      useDefaultListeners := flag;
      calls := calls + [EngineCall.SetUseDefaultListeners(flag)];
    }

    method SetXmlSuites(suites: seq<XmlSuite>)
      modifies this
      ensures xmlSuites == suites
      ensures useDefaultListeners == old(useDefaultListeners) && listeners == old(listeners)
      ensures calls == old(calls) + [EngineCall.SetXmlSuites(suites)]
      ensures ran == old(ran)
      ensures forall o: object {:trigger allocated(o)} :: allocated(o) ==> old(allocated(o))
    {
      xmlSuites := suites;
      calls := calls + [EngineCall.SetXmlSuites(suites)];
    }

    method AddListener(listener: object)
      modifies this
      ensures listeners == old(listeners) + [listener]
      ensures useDefaultListeners == old(useDefaultListeners) && xmlSuites == old(xmlSuites)
      ensures calls == old(calls) + [EngineCall.AddListener(listener)]
      ensures ran == old(ran)
      ensures forall o: object {:trigger allocated(o)} :: allocated(o) ==> old(allocated(o))
    {
      listeners := listeners + [listener];
      calls := calls + [EngineCall.AddListener(listener)];
    }

    /** `run()`: recorded together with the suites it runs, as they stand at the call;
      * the configuration it runs under is left as it was. */
    method Run()
      modifies this
      ensures useDefaultListeners == old(useDefaultListeners)
      ensures xmlSuites == old(xmlSuites) && listeners == old(listeners)
      ensures calls == old(calls) + [EngineCall.Run]
      ensures ran == old(ran) + [DescsOf(xmlSuites)]
      ensures forall o: object {:trigger allocated(o)} :: allocated(o) ==> old(allocated(o))
    {
      calls := calls + [EngineCall.Run];
      ran := ran + [DescsOf(xmlSuites)];
    }
  }
}
