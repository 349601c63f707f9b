# Compile-time admission checks of Derby's SQL compiler

This project models two checks that Derby runs while it binds a statement, and
proves what they admit and which error they raise.

- **Routine execute permission** (`StatementRoutinePermission.check`). A statement that
  calls a stored routine needs an execute grant on it. The check reads the grant record
  for (routine id, user) and admits the statement only when the record exists and has the
  execute flag set. Otherwise it always throws. If the routine id does not resolve to an
  alias, the error is `AUTH_INTERNAL_BAD_UUID("routine")`. If the alias's schema id does not
  resolve, the error is `AUTH_INTERNAL_BAD_UUID("schema")`. Otherwise it is
  `AUTH_NO_EXECUTE_PERMISSION`, or `..._FOR_GRANT` when checking before a GRANT. A refusal
  names the user, the descriptor type, the schema name and the routine name.
- **User-defined aggregate binding** (`UserAggregateDefinition.getAggregator`). The
  user's class must implement `org.apache.derby.agg.Aggregator<V, R, A>`. `V` and `R` must be
  exactly the Java classes of the aggregate's declared input and return SQL types. The steps
  run in this order:
  1. Load the user class, then the interface.
  2. Check the contract shape: the class is assignable to the interface, and the reflected
     type-argument array is not null, has exactly 3 entries, and has a non-null input
     entry (index 0) and return entry (index 1).
  3. Map both declared types to Java classes.
  4. Compare the input class, then the return class.

  On success the binder appends the wrapper class name
  `org.apache.derby.impl.sql.execute.UserDefinedAggregator` to the caller's buffer and
  returns the declared return type. A `ClassNotFoundException` at any step becomes
  `LANG_UDA_INSTANTIATION`. That error carries the Java class name, the schema, the
  aggregate name and the exception message. A `StandardException` thrown while finding
  the Java type name of a declared SQL type is not caught; it leaves `getAggregator`
  unchanged.

Modules:
- `Wrappers` holds `Option` (Java `null`) and `Result` (a thrown exception).
- `Catalog` holds the descriptors. The data dictionary is a value holding three read-only
  maps. A lookup that returns `null` in Java is a missing key here.
- `RoutinePermission` is pure, as its source is. The requirement is a datatype holding
  only the routine id, so the id cannot change after construction. `Check` is a function
  of a dictionary value, so it cannot write to the dictionary.
- `UserAggregates` models the constants `INPUT_TYPE` = 0, `RETURN_TYPE` = 1,
  `AGGREGATOR_TYPE` = 2 and `AGGREGATOR_PARAM_COUNT` = 3. The validation chain is the pure
  function `ResolveAggregator`. The class `UserAggregateDefinition` keeps the alias it was
  built with in a `const` field. Its method `GetAggregator` writes into a `StringBuffer`
  object. `getJavaClass` and `aggregatorInstantiation` are the helper functions
  `GetJavaClass` and `AggregatorInstantiation`.
- The JVM services are passed in as a `ClassEnvironment` of functions:
  `loadApplicationClass`, `isAssignableFrom`, `getGenericParameterTypes`, the SQL-to-Java
  class-name mapping and `Class.forName`. Only `loadApplicationClass` and `Class.forName`
  can fail with a ClassNotFound message. The SQL-to-Java class-name mapping can fail with
  a StandardException message. `isAssignableFrom` returns a boolean, and
  `getGenericParameterTypes` can return `null` (`None`).
  A Java class is a `JavaClass` value (name and defining loader), compared by equality as
  the source compares `Class` references.

One consequence of the source's order is easy to miss. Both expected classes are computed
(lines 147-148) before the input comparison (line 151). So if mapping the declared return
type throws ClassNotFound, the error is `LANG_UDA_INSTANTIATION`, even when the input type
also mismatches. `ResolveAggregator`'s contract states this.

## Model

| member | source | states |
|---|---|---|
| `RoutinePermission.Check` | java/engine/org/apache/derby/iapi/sql/dictionary/StatementRoutinePermission.java:51-72 | Fail-closed: admits if and only if a grant record for (routine, user) exists with the execute flag. Otherwise an unresolved routine gives BadUuid("routine") before the schema is looked up. An unresolved schema gives BadUuid("schema"). Else a refusal carries the forGrant-selected state, the user, descriptor type, schema name and routine name, in that order. |
| `RoutinePermission.GrantedIgnoresAliasesAndSchemas` | java/engine/org/apache/derby/iapi/sql/dictionary/StatementRoutinePermission.java:56-57 | With an execute grant, the result is Admit whatever the alias and schema catalogs hold: they are not consulted. |
| `RoutinePermission.ForGrantOnlySelectsState` | java/engine/org/apache/derby/iapi/sql/dictionary/StatementRoutinePermission.java:65-66 | The forGrant flag changes only the SQL state of a refusal: admission, bad-id errors and the refusal's arguments are the same either way. |
| `RoutinePermission.DanglingDistinctFromDenied` | java/engine/org/apache/derby/iapi/sql/dictionary/StatementRoutinePermission.java:59-61 | Dropping a routine the user may not execute turns the refusal into BadUuid("routine"), not a permission error. |
| `RoutinePermission.RevokeDenies` | java/engine/org/apache/derby/iapi/sql/dictionary/StatementRoutinePermission.java:57 | Without a grant record for the user the check never admits. |
| `RoutinePermission.AliceIsRefused` | java/engine/org/apache/derby/iapi/sql/dictionary/StatementRoutinePermission.java:65-70 | Worked example: a user with no grant gets AUTH_NO_EXECUTE_PERMISSION naming that user, FUNCTION, APP and FN. |
| `RoutinePermission.BobIsAdmitted` | java/engine/org/apache/derby/iapi/sql/dictionary/StatementRoutinePermission.java:56-57 | Worked example: a user with an execute grant is admitted. |
| `RoutinePermission.EveryOutcomeOccurs` | java/engine/org/apache/derby/iapi/sql/dictionary/StatementRoutinePermission.java:56-71 | For every routine id, user and flag, some catalog state produces each outcome: admit, each bad-id error, and refusal. |
| `UserAggregates.ResolveAggregator` | java/engine/org/apache/derby/impl/sql/compile/UserAggregateDefinition.java:104-209 | Success returns the declared return type. A user class that fails to load preempts everything with LANG_UDA_INSTANTIATION(class name, schema, name, message), and so does a failing interface load. With both loaded, LANG_ILLEGAL_UDA_CLASS(schema, name, class name) is raised if and only if the class does not conform to the contract shape. For a conforming class, a ClassNotFound mapping the input type and then the return type comes before any comparison. The input mismatch is reported whatever the return type, then the return mismatch, each with schema, name, expected and actual class. Success holds if and only if both classes match. A StandardException from the type-name mapping is passed through unchanged as TypeMappingError. |
| `UserAggregates.ResolveSucceedsExactlyWhenImplemented` | java/engine/org/apache/derby/impl/sql/compile/UserAggregateDefinition.java:118-177 | Binding succeeds if and only if both classes load, the user class is assignable to Aggregator, and its type arguments are exactly [Java class of the input type, Java class of the return type, any]. |
| `UserAggregates.UserAggregateDefinition.constructor` | java/engine/org/apache/derby/impl/sql/compile/UserAggregateDefinition.java:82-94 | getAliasDescriptor returns exactly the alias given to the constructor. |
| `UserAggregates.UserAggregateDefinition.GetAggregator` | java/engine/org/apache/derby/impl/sql/compile/UserAggregateDefinition.java:104-180 | The outcome is ResolveAggregator's, independent of the input type argument. The buffer gains the wrapper class name on success and is unchanged on every error. |
| `UserAggregates.AvgPlusHasWrongInputType` | java/engine/org/apache/derby/impl/sql/compile/UserAggregateDefinition.java:151-161 | Worked example: a DECIMAL aggregate whose class takes Integer gets LANG_UDA_WRONG_INPUT_TYPE(APP, AVGPLUS, BigDecimal, Integer). |
| `UserAggregates.ModeBinds` | java/engine/org/apache/derby/impl/sql/compile/UserAggregateDefinition.java:177 | Worked example: a conforming class binds to the declared DECIMAL return type. |
| `UserAggregates.ModeBindsWithWrapper` | java/engine/org/apache/derby/impl/sql/compile/UserAggregateDefinition.java:175-177 | Worked example: binding a conforming class through a new definition object returns DECIMAL and leaves exactly the wrapper class name in an empty buffer. |
| `UserAggregates.MissingClassIsInstantiationError` | java/engine/org/apache/derby/impl/sql/compile/UserAggregateDefinition.java:179 | Worked example: a class missing from the class path gives LANG_UDA_INSTANTIATION, not LANG_ILLEGAL_UDA_CLASS. |
| `UserAggregates.EveryOutcomeOccurs` | java/engine/org/apache/derby/impl/sql/compile/UserAggregateDefinition.java:118-177 | For every aggregate alias, some class environment binds it, and some environment raises each of the five errors. |

## Left out

- The ambient `ContextService` / `CompilerContext` lookup (lines 112-116 of UserAggregateDefinition.java): the class factory and type mapping are parameters instead.
- `TypeCompilerFactory` / `TypeCompiler` and `inputType.getTypeId()` (lines 110-115): their results are never used, so the input type takes no part. A `null` input type, which would throw NullPointerException, is not modelled.
- Real class loading, `isAssignableFrom`, generic-parameter reflection, `MethodCallNode.getObjectTypeName`, `JSQLType` and `Class.forName`: foreign JVM code, modelled as functions supplied by the caller. Which SQL types have no Java type name is left to the supplied mapping. `DataTypeDescriptor.getType` is taken as the identity.
- The `(AggregateAliasInfo)` cast at line 144: `ResolveAggregator` and `GetAggregator` require an aggregate alias, because a ClassCastException is not an error path the method declares.
- `Class.toString()` in the mismatch messages: the errors carry the `JavaClass` values themselves.
- `StandardException` message formatting, SQLState strings and the wrapped cause: errors are datatype constructors with their argument fields.
- The `TransactionController` argument and the internals of `DataDictionary` and `RoutinePermsDescriptor`: the dictionary is a read-only snapshot of three maps.
- Concurrency and changes to the catalog during a check: each check reads one snapshot.
