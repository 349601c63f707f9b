/**
 * Binding of a user-defined aggregate: the user's class must implement
 * org.apache.derby.agg.Aggregator<V, R, A> with V and R exactly the Java classes of
 * the aggregate's declared input and return SQL types.  Class loading, reflection
 * and the SQL-to-Java type mapping are supplied from outside as a ClassEnvironment.
 */
module UserAggregates {
  import opened Wrappers
  import opened Catalog

  /** Positions of the type arguments of Aggregator<V, R, A>, and how many there are. */
  const InputType: nat := 0
  const ReturnType: nat := InputType + 1
  const AggregatorType: nat := ReturnType + 1
  const AggregatorParamCount: nat := AggregatorType + 1

  /** The interface every user aggregate must implement. */
  const AggregatorInterfaceName: string := "org.apache.derby.agg.Aggregator"

  /** The execution-time class that drives every user aggregate (ClassName.UserDefinedAggregator). */
  const UserDefinedAggregatorClassName: string := "org.apache.derby.impl.sql.execute.UserDefinedAggregator"

  /** A loaded Java class: a JVM class is identified by its name and its defining loader. */
  datatype JavaClass = JavaClass(name: string, loader: nat)

  /**
   * The JVM services the binder calls.  The two class lookups fail with the message of
   * a ClassNotFoundException; the SQL-to-Java type-name mapping fails with the message
   * of a StandardException; a `None` is a Java `null`.
   */
  datatype ClassEnvironment = ClassEnvironment(
    /** ClassFactory.loadApplicationClass(name) */
    loadApplicationClass: string -> Result<JavaClass, string>,
    /** iface.isAssignableFrom(cls), as isAssignableFrom(iface, cls) */
    isAssignableFrom: (JavaClass, JavaClass) -> bool,
    /** ClassInspector.getGenericParameterTypes(iface, cls) */
    genericParameterTypes: (JavaClass, JavaClass) -> Option<seq<Option<JavaClass>>>,
    /** MethodCallNode.getObjectTypeName(new JSQLType(dtd), null) */
    objectTypeName: DataTypeDescriptor -> Result<string, string>,
    /** Class.forName(name) */
    forName: string -> Result<JavaClass, string>)

  /** The errors getAggregator throws, with their message arguments in order. */
  datatype AggregateError =
    | IllegalUdaClass(schemaName: string, name: string, javaClassName: string)
    | WrongInputType(schemaName: string, name: string, expected: JavaClass, actual: JavaClass)
    | WrongReturnType(schemaName: string, name: string, expected: JavaClass, actual: JavaClass)
    | UdaInstantiation(javaClassName: string, schemaName: string, name: string, message: string)
    /** A StandardException from the SQL-to-Java type-name mapping, passed through unchanged. */
    | TypeMappingError(message: string)

  /** Why getJavaClass found no Java class for a SQL type. */
  datatype JavaClassFailure =
    | ClassNotFound(message: string)
    | TypeNameFailure(message: string)

  /**
   * The reflected type arguments are usable: the array is not null, has exactly
   * three entries, and the input and return entries are not null (the aggregator
   * entry may be).
   */
  predicate WellShaped(types: Option<seq<Option<JavaClass>>>)
  {
    types.Some?
    && |types.value| == AggregatorParamCount
    && types.value[InputType].Some?
    && types.value[ReturnType].Some?
  }

  /** `userClass` implements the Aggregator interface with concrete input and return types. */
  predicate ConformsToAggregator(env: ClassEnvironment, aggregatorInterface: JavaClass, userClass: JavaClass)
  {
    env.isAssignableFrom(aggregatorInterface, userClass)
    && WellShaped(env.genericParameterTypes(aggregatorInterface, userClass))
  }

  /**
   * getJavaClass: the Java class a SQL type is represented by.  It fails when the type
   * has no Java type name (a StandardException) or the named class is not found.
   */
  function GetJavaClass(env: ClassEnvironment, dtd: DataTypeDescriptor): Result<JavaClass, JavaClassFailure>
  {
    match env.objectTypeName(dtd)
    case Err(message) => Err(TypeNameFailure(message))
    case Ok(javaClassName) =>
      match env.forName(javaClassName)
      case Err(message) => Err(ClassNotFound(message))
      case Ok(c) => Ok(c)
  }

  /** aggregatorInstantiation: the "could not instantiate aggregator" error for a ClassNotFound. */
  function AggregatorInstantiation(alias: AliasDescriptor, message: string): AggregateError
  {
    UdaInstantiation(alias.javaClassName, alias.schemaName, alias.name, message)
  }

  /**
   * The error getAggregator reports for a failed getJavaClass: only a ClassNotFound is
   * caught and turned into an instantiation error; a StandardException escapes as it is.
   */
  function MappingError(alias: AliasDescriptor, failure: JavaClassFailure): AggregateError
  {
    match failure
    case ClassNotFound(message) => AggregatorInstantiation(alias, message)
    case TypeNameFailure(message) => TypeMappingError(message)
  }

  /**
   * What getAggregator returns or throws for an aggregate alias: load the user class
   * and the Aggregator interface, check the contract shape, map the declared types
   * to Java classes, compare input and then return, and yield the declared return type.
   */
  function ResolveAggregator(env: ClassEnvironment, alias: AliasDescriptor): (r: Result<DataTypeDescriptor, AggregateError>)
    requires alias.aliasInfo.AggregateAliasInfo?
    // success yields the declared return type, never anything read from the user class
    ensures r.Ok? ==> r.value == alias.aliasInfo.returnType
    // a user class that does not load preempts every other check
    ensures env.loadApplicationClass(alias.javaClassName).Err?
            ==> r == Err(AggregatorInstantiation(alias, env.loadApplicationClass(alias.javaClassName).error))
    ensures env.loadApplicationClass(alias.javaClassName).Ok?
            && env.loadApplicationClass(AggregatorInterfaceName).Err?
            ==> r == Err(AggregatorInstantiation(alias, env.loadApplicationClass(AggregatorInterfaceName).error))
    // both classes load: the contract shape is checked before the declared types are mapped
    ensures env.loadApplicationClass(alias.javaClassName).Ok?
            && env.loadApplicationClass(AggregatorInterfaceName).Ok?
            ==> var userClass := env.loadApplicationClass(alias.javaClassName).value;
                var iface := env.loadApplicationClass(AggregatorInterfaceName).value;
                (!ConformsToAggregator(env, iface, userClass)
                 <==> r == Err(IllegalUdaClass(alias.schemaName, alias.name, alias.javaClassName)))
    // a conforming class: both declared types are mapped before anything is compared
    ensures env.loadApplicationClass(alias.javaClassName).Ok?
            && env.loadApplicationClass(AggregatorInterfaceName).Ok?
            && ConformsToAggregator(env, env.loadApplicationClass(AggregatorInterfaceName).value,
                                    env.loadApplicationClass(alias.javaClassName).value)
            ==> var types := env.genericParameterTypes(env.loadApplicationClass(AggregatorInterfaceName).value,
                                                       env.loadApplicationClass(alias.javaClassName).value).value;
                var actualInput := types[InputType].value;
                var actualReturn := types[ReturnType].value;
                var expectedInput := GetJavaClass(env, alias.aliasInfo.forType);
                var expectedReturn := GetJavaClass(env, alias.aliasInfo.returnType);
                (expectedInput.Err? ==> r == Err(MappingError(alias, expectedInput.error)))
                && (expectedInput.Ok? && expectedReturn.Err?
                    ==> r == Err(MappingError(alias, expectedReturn.error)))
                && (expectedInput.Ok? && expectedReturn.Ok? ==>
                      // input first: a wrong input type is reported whatever the return type
                      (actualInput != expectedInput.value
                       ==> r == Err(WrongInputType(alias.schemaName, alias.name, expectedInput.value, actualInput)))
                      && (actualInput == expectedInput.value && actualReturn != expectedReturn.value
                          ==> r == Err(WrongReturnType(alias.schemaName, alias.name, expectedReturn.value, actualReturn)))
                      && (actualInput == expectedInput.value && actualReturn == expectedReturn.value
                          <==> r.Ok?))
  {
    match env.loadApplicationClass(alias.javaClassName)
    case Err(message) => Err(AggregatorInstantiation(alias, message))
    case Ok(userClass) =>
      match env.loadApplicationClass(AggregatorInterfaceName)
      case Err(message) => Err(AggregatorInstantiation(alias, message))
      case Ok(iface) =>
        var types := env.genericParameterTypes(iface, userClass);
        if !env.isAssignableFrom(iface, userClass)
           || types.None?
           || |types.value| != AggregatorParamCount
           || types.value[InputType].None?
           || types.value[ReturnType].None?
        then
          Err(IllegalUdaClass(alias.schemaName, alias.name, alias.javaClassName))
        else
          var actualInputClass := types.value[InputType].value;
          var actualReturnClass := types.value[ReturnType].value;
          var expectedReturnType := alias.aliasInfo.returnType;
          match GetJavaClass(env, alias.aliasInfo.forType)
          case Err(failure) => Err(MappingError(alias, failure))
          case Ok(expectedInputClass) =>
            match GetJavaClass(env, expectedReturnType)
            case Err(failure) => Err(MappingError(alias, failure))
            case Ok(expectedReturnClass) =>
              if actualInputClass != expectedInputClass then
                Err(WrongInputType(alias.schemaName, alias.name, expectedInputClass, actualInputClass))
              else if actualReturnClass != expectedReturnClass then
                Err(WrongReturnType(alias.schemaName, alias.name, expectedReturnClass, actualReturnClass))
              else
                Ok(expectedReturnType)
  }

  /**
   * Binding succeeds exactly when the user class and the Aggregator interface load,
   * and the user class implements Aggregator<V, R, A> with V and R the Java classes
   * of the declared input and return types.
   */
  lemma ResolveSucceedsExactlyWhenImplemented(env: ClassEnvironment, alias: AliasDescriptor)
    requires alias.aliasInfo.AggregateAliasInfo?
    ensures ResolveAggregator(env, alias).Ok? <==>
            exists userClass, iface, accumulator ::
              env.loadApplicationClass(alias.javaClassName) == Ok(userClass)
              && env.loadApplicationClass(AggregatorInterfaceName) == Ok(iface)
              && env.isAssignableFrom(iface, userClass)
              && GetJavaClass(env, alias.aliasInfo.forType).Ok?
              && GetJavaClass(env, alias.aliasInfo.returnType).Ok?
              && env.genericParameterTypes(iface, userClass)
                 == Some([Some(GetJavaClass(env, alias.aliasInfo.forType).value),
                          Some(GetJavaClass(env, alias.aliasInfo.returnType).value),
                          accumulator])
  {
    if ResolveAggregator(env, alias).Ok? {
      var userClass := env.loadApplicationClass(alias.javaClassName).value;
      var iface := env.loadApplicationClass(AggregatorInterfaceName).value;
      var types := env.genericParameterTypes(iface, userClass).value;
      assert types == [types[InputType], types[ReturnType], types[AggregatorType]];
    }
  }

  /** The output argument getAggregator writes the wrapper class name into. */
  class StringBuffer {
    var contents: string

    constructor (initial: string)
      ensures contents == initial
    {
      contents := initial;
    }

    method Append(s: string)
      modifies this
      ensures contents == old(contents) + s
    {
      contents := contents + s;
    }
  }

  /** A user-defined aggregate, wrapping the alias it was registered under. */
  class UserAggregateDefinition {
    const alias: AliasDescriptor

    constructor (alias: AliasDescriptor)
      ensures GetAliasDescriptor() == alias
    {
      this.alias := alias;
    }

    function GetAliasDescriptor(): AliasDescriptor
    {
      alias
    }

    /**
     * Binds the aggregate: returns its result type, and appends the name of the
     * execution-time wrapper class to `aggregatorClass` on success only.  The
     * caller's input type takes no part in the outcome.
     */
    method GetAggregator(env: ClassEnvironment, inputType: DataTypeDescriptor, aggregatorClass: StringBuffer)
      returns (r: Result<DataTypeDescriptor, AggregateError>)
      requires alias.aliasInfo.AggregateAliasInfo?
      modifies aggregatorClass
      ensures r == ResolveAggregator(env, alias)
      ensures aggregatorClass.contents
              == if r.Ok? then old(aggregatorClass.contents) + UserDefinedAggregatorClassName
                 else old(aggregatorClass.contents)
    {
      r := ResolveAggregator(env, alias);
      if r.Ok? {
        aggregatorClass.Append(UserDefinedAggregatorClassName);
      }
    }
  }

  // Worked examples: an aggregate declared over DECIMAL, and a class path of three loaders.

  const Decimal := DataTypeDescriptor("DECIMAL", true)
  const Integer := DataTypeDescriptor("INTEGER", true)
  const BigDecimalClass := JavaClass("java.math.BigDecimal", 0)
  const IntegerClass := JavaClass("java.lang.Integer", 0)
  const AggregatorClass := JavaClass(AggregatorInterfaceName, 1)

  function AggregateAlias(name: string, javaClassName: string): AliasDescriptor
  {
    AliasDescriptor("a-1", "s-1", "APP", name, "AGGREGATE", javaClassName, AggregateAliasInfo(Decimal, Decimal))
  }

  /**
   * A class path on which `implemented` is an Aggregator with type arguments
   * `inputArg` and `returnArg`, and no other class but the interface is found.
   */
  function ExampleEnvironment(implemented: string, inputArg: JavaClass, returnArg: JavaClass): ClassEnvironment
  {
    ClassEnvironment(
      (name: string) => if name == implemented then Ok(JavaClass(name, 2))
              else if name == AggregatorInterfaceName then Ok(AggregatorClass)
              else Err(name),
      (iface, cls) => iface == AggregatorClass && cls == JavaClass(implemented, 2),
      (iface, cls) => if iface == AggregatorClass && cls == JavaClass(implemented, 2)
                      then Some([Some(inputArg), Some(returnArg), None])
                      else None,
      (dtd: DataTypeDescriptor) => if dtd.typeName == "DECIMAL" then Ok("java.math.BigDecimal") else Ok("java.lang.Integer"),
      (name: string) => if name == "java.math.BigDecimal" then Ok(BigDecimalClass)
              else if name == "java.lang.Integer" then Ok(IntegerClass)
              else Err(name))
  }

  /** AVGPLUS is declared over DECIMAL but its class aggregates integers: wrong input type. */
  lemma AvgPlusHasWrongInputType()
    ensures ResolveAggregator(ExampleEnvironment("app.AvgPlus", IntegerClass, BigDecimalClass),
                              AggregateAlias("AVGPLUS", "app.AvgPlus"))
            == Err(WrongInputType("APP", "AVGPLUS", BigDecimalClass, IntegerClass))
  {
  }

  /** MODE's class conforms exactly: the declared DECIMAL return type is the result. */
  lemma ModeBinds()
    ensures ResolveAggregator(ExampleEnvironment("app.Mode", BigDecimalClass, BigDecimalClass),
                              AggregateAlias("MODE", "app.Mode"))
            == Ok(Decimal)
  {
  }

  /**
   * Binding MODE through a fresh definition object leaves the result type DECIMAL and
   * the wrapper class name, alone, in an empty buffer.
   */
  method ModeBindsWithWrapper() returns (r: Result<DataTypeDescriptor, AggregateError>, wrapper: string)
    ensures r == Ok(Decimal)
    ensures wrapper == UserDefinedAggregatorClassName
  {
    var aggregatorClass := new StringBuffer("");
    var definition := new UserAggregateDefinition(AggregateAlias("MODE", "app.Mode"));
    ModeBinds();
    r := definition.GetAggregator(ExampleEnvironment("app.Mode", BigDecimalClass, BigDecimalClass), Integer,
                                  aggregatorClass);
    wrapper := aggregatorClass.contents;
  }

  /** A class missing from the class path is an instantiation error, not an illegal class. */
  lemma MissingClassIsInstantiationError()
    ensures ResolveAggregator(ExampleEnvironment("app.Mode", BigDecimalClass, BigDecimalClass),
                              AggregateAlias("MEDIAN", "app.Median"))
            == Err(UdaInstantiation("app.Median", "APP", "MEDIAN", "app.Median"))
  {
  }

  /**
   * None of the outcomes is dead: for every aggregate alias some environment binds
   * it, and some environment raises each of the five errors.
   */
  lemma EveryOutcomeOccurs(alias: AliasDescriptor)
    requires alias.aliasInfo.AggregateAliasInfo?
    ensures exists env :: ResolveAggregator(env, alias).Ok?
    ensures exists env :: ResolveAggregator(env, alias).Err? && ResolveAggregator(env, alias).error.UdaInstantiation?
    ensures exists env :: ResolveAggregator(env, alias).Err? && ResolveAggregator(env, alias).error.IllegalUdaClass?
    ensures exists env :: ResolveAggregator(env, alias).Err? && ResolveAggregator(env, alias).error.WrongInputType?
    ensures exists env :: ResolveAggregator(env, alias).Err? && ResolveAggregator(env, alias).error.WrongReturnType?
    ensures exists env :: ResolveAggregator(env, alias).Err? && ResolveAggregator(env, alias).error.TypeMappingError?
  {
    var user := JavaClass(alias.javaClassName, 2);
    var expected := JavaClass("expected", 0);
    var other := JavaClass("other", 0);
    var loads: string -> Result<JavaClass, string> :=
      name => if name == AggregatorInterfaceName then Ok(AggregatorClass) else Ok(user);
    var binds := ClassEnvironment(loads, (i, c) => true, (i, c) => Some([Some(expected), Some(expected), None]),
                                  dtd => Ok("expected"), name => Ok(expected));
    var missing := binds.(loadApplicationClass := name => Err(name));
    var illegal := binds.(isAssignableFrom := (i, c) => false);
    var wrongInput := binds.(genericParameterTypes := (i, c) => Some([Some(other), Some(expected), None]));
    var wrongReturn := binds.(genericParameterTypes := (i, c) => Some([Some(expected), Some(other), None]));
    assert ResolveAggregator(binds, alias).Ok?;
    assert ResolveAggregator(missing, alias).error.UdaInstantiation?;
    assert ResolveAggregator(illegal, alias).error.IllegalUdaClass?;
    assert ResolveAggregator(wrongInput, alias).error.WrongInputType?;
    assert ResolveAggregator(wrongReturn, alias).error.WrongReturnType?;
    var unmapped := binds.(objectTypeName := dtd => Err("no Java type"));
    assert ResolveAggregator(unmapped, alias).error.TypeMappingError?;
  }
}
