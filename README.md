# pitest TestNG test unit and functional Prelude, in Dafny

This project models two pieces of pitest.

**`TestNGTestUnit`** runs one test method of one class through the TestNG engine.
Its `execute(loader, rc)` first asks a class-loader detection strategy whether the
test class came from a different loader than `loader`. If so it throws a `PitError`
with the fixed message "mutation of static initializers not currently supported for
TestNG" and does nothing else. Otherwise it:

1. creates a `TestNGAdapter` listener bound to the unit's description and to `rc`;
2. creates a fresh `TestNG` engine;
3. builds a descriptor with `createSuite`;
4. switches the engine's default listeners off;
5. sets the engine's suite list to that one suite;
6. adds the adapter as a listener;
7. runs the engine.

`createSuite` builds a four-level tree. An `XmlSuite` is named after the class. It
holds one `XmlTest`, named after the method and created with the suite as its parent.
That test holds one `XmlClass`, named after the class, whose included methods are one
`XmlInclude` naming the method.

**`Prelude`** is a library of combinators. It holds function objects (identity,
singleton list, joining two strings with a separator, and predicates for null,
equality and greater-than). It also holds side-effect objects. One appends to a
collection the caller owns. Two put into a map the caller owns: one puts a fixed
value, the other puts a value computed from the key.

Files:

- `prelude.dfy`, module `Prelude`. The function objects are Dafny arrows; a Java
  reference that may be null is `Nullable<T>`; a call that can throw returns
  `Result<bool>`. The caller's list and map are classes (`ListCollection`,
  `JavaMap`) whose `seq` / `map` field the side effects (`Accumulator`, `PutValue`,
  `PutComputed`) change through a shared reference.
- `testng_engine.dfy`, module `TestNGEngine`. Stand-ins for the TestNG library
  objects the unit drives: the four XML descriptor classes with the setters used,
  and the `TestNG` engine as a recorder of its configuration and of the calls made
  on it (`calls`). `Desc()` reads a descriptor object graph back as a value
  (`SuiteDesc`).
- `testng_unit.dfy`, module `TestNGUnit`. The test unit, with the detection
  strategy as an uninterpreted `(JavaClass, ClassLoader) -> bool`. `SuiteFor` is
  the descriptor as a value. `IncludedMethods` says which of a class's declared
  methods an include list admits.

Three facts of the code that the model keeps:

- The guard's message is the code's "mutation of static initializers not currently
  supported for TestNG".
- Default listeners are switched off by a setter on an engine that was already
  constructed (`setUseDefaultListeners(false)`). They are not passed at construction.
- A run that ends without a terminal notification is not reported as a separate
  "unknown" outcome. `execute` simply returns.

## Model

| member | source | states |
|---|---|---|
| `Prelude.ConcatenateWith` | pitest/src/main/java/org/pitest/functional/Prelude.java:188-194 | the joined string has length \|a\|+\|sep\|+\|b\| and splits back into exactly a, then the separator, then b |
| `Prelude.Id` | pitest/src/main/java/org/pitest/functional/Prelude.java:106-112 | the function returns every argument unchanged |
| `Prelude.IdOf` | pitest/src/main/java/org/pitest/functional/Prelude.java:114-116 | the typed overload agrees with `id()` on every argument |
| `Prelude.ToSingletonList` | pitest/src/main/java/org/pitest/functional/Prelude.java:93-100 | the list for `a` has length 1 and its only element is `a` |
| `Prelude.ToSingletonListOf` | pitest/src/main/java/org/pitest/functional/Prelude.java:102-104 | the typed overload agrees with `toSingletonList()` on every argument |
| `Prelude.LongValue` | pitest/src/main/java/org/pitest/functional/Prelude.java:150 | `longValue()` of an integral number lies in the `long` range and agrees with the number modulo 2^64 (its low 64 bits) |
| `Prelude.LongValueInRange` | pitest/src/main/java/org/pitest/functional/Prelude.java:150 | a number already in the `long` range is returned unchanged by `longValue()` |
| `Prelude.IsGreaterThan` | pitest/src/main/java/org/pitest/functional/Prelude.java:147-153 | throws NullPointerException exactly when `o` or `value` is null; otherwise holds iff o.longValue() > value.longValue() |
| `Prelude.IsGreaterThanOnLongs` | pitest/src/main/java/org/pitest/functional/Prelude.java:147-153 | for numbers in the `long` range the predicate holds of `o` exactly when o > value |
| `Prelude.IsGreaterThanWraps` | pitest/src/main/java/org/pitest/functional/Prelude.java:150 | wider numbers compare by their wrapped values: 2^64 and 2^63 are both not greater than 0 |
| `Prelude.IsEqualTo` | pitest/src/main/java/org/pitest/functional/Prelude.java:155-161 | throws NullPointerException exactly when `o` is null; otherwise holds iff o equals value (a null value is equal to no object) |
| `Prelude.IsNotNull` | pitest/src/main/java/org/pitest/functional/Prelude.java:163-169 | holds exactly of non-null references |
| `Prelude.IsNull` | pitest/src/main/java/org/pitest/functional/Prelude.java:171-177 | holds exactly of null |
| `Prelude.NullPredicatesComplement` | pitest/src/main/java/org/pitest/functional/Prelude.java:163-177 | for every reference exactly one of isNull and isNotNull holds |
| `Prelude.ListCollection.Add` | pitest/src/main/java/org/pitest/functional/Prelude.java:68 | the element is appended after the existing elements, which stay as they were |
| `Prelude.Accumulator.constructor` | pitest/src/main/java/org/pitest/functional/Prelude.java:63-65 | the side effect holds the caller's own collection, not a copy |
| `Prelude.Accumulator.Apply` | pitest/src/main/java/org/pitest/functional/Prelude.java:67-69 | the caller's collection becomes its old elements followed by `a`; nothing else is modified |
| `Prelude.AccumulateTo` | pitest/src/main/java/org/pitest/functional/Prelude.java:63-73 | returns a new side effect bound to the given collection |
| `Prelude.Updated` | pitest/src/main/java/org/pitest/functional/Prelude.java:79 | after a put the key set gains the key, the key is bound to the value, and every other key keeps its binding |
| `Prelude.JavaMap.Put` | pitest/src/main/java/org/pitest/functional/Prelude.java:79 | the map's bindings become `Updated(old bindings, key, value)` |
| `Prelude.PutValue.Apply` | pitest/src/main/java/org/pitest/functional/Prelude.java:78-80 | the caller's map binds the key to the fixed value; no other key changes and nothing else is modified |
| `Prelude.PutToMap` | pitest/src/main/java/org/pitest/functional/Prelude.java:75-82 | returns a new side effect bound to the given map and value |
| `Prelude.PutComputed.Apply` | pitest/src/main/java/org/pitest/functional/Prelude.java:87-89 | the caller's map binds the key to f(key); no other key changes and nothing else is modified |
| `Prelude.PutToMapWith` | pitest/src/main/java/org/pitest/functional/Prelude.java:84-91 | returns a new side effect bound to the given map and function |
| `Prelude.UpdatedAllBindsEachKey` | pitest/src/main/java/org/pitest/functional/Prelude.java:84-91 | in the fold of `Updated(_, k, f(k))` over a run of keys (the step `PutComputed.Apply` takes per key), each of those keys is bound to f(key), every other key keeps its binding, and the key set is the old one plus the applied keys |
| `TestNGEngine.XmlClass.constructor` | pitest/src/main/java/org/pitest/testng/TestNGTestUnit.java:75 | the class entry carries the given name and no includes yet |
| `TestNGEngine.XmlClass.SetIncludedMethods` | pitest/src/main/java/org/pitest/testng/TestNGTestUnit.java:77 | the include list becomes exactly the given one |
| `TestNGEngine.XmlInclude.constructor` | pitest/src/main/java/org/pitest/testng/TestNGTestUnit.java:76 | the include names the given method |
| `TestNGEngine.XmlTest.constructor` | pitest/src/main/java/org/pitest/testng/TestNGTestUnit.java:73 | the test's parent is the suite, and the test is appended to the suite's tests |
| `TestNGEngine.XmlTest.SetName` | pitest/src/main/java/org/pitest/testng/TestNGTestUnit.java:74 | sets the name and leaves the class list alone |
| `TestNGEngine.XmlTest.SetXmlClasses` | pitest/src/main/java/org/pitest/testng/TestNGTestUnit.java:78 | the class list becomes exactly the given one and the name stays |
| `TestNGEngine.XmlSuite.constructor` | pitest/src/main/java/org/pitest/testng/TestNGTestUnit.java:71 | a new suite has no tests |
| `TestNGEngine.XmlSuite.SetName` | pitest/src/main/java/org/pitest/testng/TestNGTestUnit.java:72 | sets the name and leaves the tests alone |
| `TestNGEngine.SingleChainDesc` | pitest/src/main/java/org/pitest/testng/TestNGTestUnit.java:73-78 | a suite with one test, one class entry and one include describes exactly those four names |
| `TestNGEngine.TestNG.constructor` | pitest/src/main/java/org/pitest/testng/TestNGTestUnit.java:58 | a new engine has default listeners on, no suites, no listeners, no recorded calls and no runs |
| `TestNGEngine.TestNG.SetUseDefaultListeners` | pitest/src/main/java/org/pitest/testng/TestNGTestUnit.java:62 | sets the flag, leaves suites, listeners and runs alone, and records the call |
| `TestNGEngine.TestNG.SetXmlSuites` | pitest/src/main/java/org/pitest/testng/TestNGTestUnit.java:64 | replaces the suite list, leaves the rest (runs included) alone, and records the call |
| `TestNGEngine.TestNG.AddListener` | pitest/src/main/java/org/pitest/testng/TestNGTestUnit.java:66 | appends the listener, leaves the rest (runs included) alone, and records the call |
| `TestNGEngine.TestNG.Run` | pitest/src/main/java/org/pitest/testng/TestNGTestUnit.java:67 | records one run together with the descriptions of the suites it runs, as they stand at the call, and leaves the configuration as it was |
| `TestNGUnit.RunSuite` | pitest/src/main/java/org/pitest/testng/TestNGTestUnit.java:62-67 | on a new engine and a suite describing `d`: default listeners off, suites [suite], listeners [listener], the four calls in source order, and exactly one run, on [d] |
| `TestNGUnit.TestNGAdapter.constructor` | pitest/src/main/java/org/pitest/testng/TestNGTestUnit.java:57 | the listener is bound to the unit's description and to the caller's result collector |
| `TestNGUnit.SuiteForNames` | pitest/src/main/java/org/pitest/testng/TestNGTestUnit.java:72-78 | suite name and class entry name are the class name; the one test is named after the method; the one include list is exactly [method] |
| `TestNGUnit.IncludedMethodsMembership` | pitest/src/main/java/org/pitest/testng/TestNGTestUnit.java:76-77 | a declared method is admitted if and only if the include list names it |
| `TestNGUnit.SuiteForSelectsOnlyTheMethod` | pitest/src/main/java/org/pitest/testng/TestNGTestUnit.java:76-78 | whatever the class declares, the descriptor admits the bound method if declared and no other method |
| `TestNGUnit.TestNGTestUnit.constructor` | pitest/src/main/java/org/pitest/testng/TestNGTestUnit.java:37-43 | stores strategy, class and method unchanged; the description is built from (method, clazz) |
| `TestNGUnit.TestNGTestUnit.CreateSuite` | pitest/src/main/java/org/pitest/testng/TestNGTestUnit.java:70-81 | four fresh objects linked suite → test → class entry → include, and no other new object; the test's parent is the suite; names as in `SuiteFor(class name, method)` |
| `TestNGUnit.TestNGTestUnit.CreateSuiteRepeatable` | pitest/src/main/java/org/pitest/testng/TestNGTestUnit.java:70-81 | two calls give two distinct fresh suites with the same names |
| `TestNGUnit.TestNGTestUnit.Execute` | pitest/src/main/java/org/pitest/testng/TestNGTestUnit.java:50-68 | throws exactly when the strategy reports a different loader. Then the message is the fixed one and no object at all is allocated, so no listener, engine or suite exists and `rc` is handed to nothing. Otherwise it builds a fresh listener bound to (description, rc), a fresh engine and a fresh suite describing `SuiteFor`, and allocates nothing besides these and the suite's test, class entry and include (so no other engine exists that could run); the engine ends with default listeners off, suites [suite] and listeners [listener], and its recorded calls are exactly: disable defaults, set suites, add listener, run once, and that one run was on the suite as `createSuite` built it, `[SuiteFor(class name, method)]` |

## Left out

- The Prelude combinators (`Id`, `IdOf`, `ToSingletonList`, `ToSingletonListOf`, `IsEqualTo`, `IsNotNull`, `IsNull`) are modelled at reference-free element types only (`(!new)`), because their contracts quantify over every argument. The model does not cover instantiating them at a class type, which Java code does most often.
- The second constructor (`TestNGTestUnit.java:45-47`) is left out. It only fetches the default strategy through `IsolationUtils.loaderDetectionStrategy()`, a foreign call. The strategy is a parameter of the modelled constructor.
- The implementation of `ClassLoaderDetectionStrategy` is not part of this model. `fromDifferentLoader` is an uninterpreted function of the class and the loader.
- The model does not include what a TestNG run does: engine start-up faults, test discovery, and the callbacks `TestNGAdapter` maps onto the `ResultCollector`. `TestNG.Run` only records that it was called and on which suite descriptions. The adapter and the collector are handled as references only.
- `TestNGUnit.IncludedMethods` is how the model reads TestNG's include lists: the declared methods whose names an include lists. TestNG's own selection code is not part of this model.
- `TestNGEngine.XmlTest.constructor` appends the new test to its suite's tests. The source relies on this TestNG behaviour. The rest of the XML classes are not modelled: default names, class loading in `XmlClass(name)`, and other fields.
- `execute` is synchronous. Nothing in this core is concurrent.
- `and`, `or`, `not` (`Prelude.java:35-53`) are left out. They only wrap predicates in `And`/`Or`/`Not` objects, which are defined in files not part of this model.
- `isInstanceOf` (`Prelude.java:55-61`) is left out. It depends on Java reflection.
- `print`, `printTo`, `printWith` (`Prelude.java:118-145`) are left out. They are console and stream output.
- `asString` (`Prelude.java:179-186`) is left out. It depends on arbitrary `toString` implementations.
- `Prelude.IsGreaterThan` takes integral numbers only. `longValue()` is modelled as the low 64 bits read as a `long`: exact for `Byte`, `Short`, `Integer`, `Long` and `BigInteger`s in the `long` range, wrapping for wider `BigInteger`s. Floating-point and `BigDecimal` values, which `longValue()` truncates first, are not modelled.
- `Prelude.IsEqualTo` takes Java `equals` to be value equality. Classes with their own `equals` are not modelled.
- `Prelude.ConcatenateWith` does not model null strings, which Java renders as "null".
- `Prelude.ListCollection.Add` models a list collection, where `add` always appends. Sets and other collections that may refuse an element are not modelled.
- `Prelude.PutComputed.Apply` treats `f` as a pure total function. Side effects or exceptions thrown by a user-supplied `F` are not modelled.
- `Prelude.JavaMap.Put` does not return the previous binding. `putToMap` ignores it.
- `Prelude.JavaMap.Put` models a modifiable map whose keys are compared by value equality. Maps that throw on `put` are not modelled: unmodifiable maps, and `TreeMap` or `Hashtable` given a null key. Keys with their own `equals`/`hashCode` are not modelled either.
