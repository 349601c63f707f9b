/**
 * The execute permission a statement needs on a stored routine, and the
 * compile-time check that the current user holds it.
 */
module RoutinePermission {
  import opened Wrappers
  import opened Catalog

  /**
   * A requirement to execute one routine.  It carries only the routine's id, never
   * a resolved descriptor, so every check re-reads the catalog; being a value, the id
   * cannot change after construction.
   */
  datatype StatementRoutinePermission = StatementRoutinePermission(routineUuid: Uuid)

  /** Which lookup failed in an AUTH_INTERNAL_BAD_UUID error. */
  datatype BadUuidKind = RoutineUuid | SchemaUuid
  {
    /** The argument the error message carries. */
    function Name(): string
    {
      match this
      case RoutineUuid => "routine"
      case SchemaUuid => "schema"
    }
  }

  /** The two SQL states a refused execute permission can be reported under. */
  datatype DeniedState = AuthNoExecutePermission | AuthNoExecutePermissionForGrant

  /** What `check` does: return normally, or throw one of its errors. */
  datatype CheckOutcome =
    | Admit
    | BadUuid(kind: BadUuidKind)
    | NoExecute(state: DeniedState, authorizationId: string, descriptorType: string,
                schemaName: string, routineName: string)

  /** A grant record for (routine, user) exists and carries the execute flag. */
  predicate HasExecutePermission(dd: DataDictionary, routineUuid: Uuid, authorizationId: string)
  {
    (routineUuid, authorizationId) in dd.routinePerms
    && dd.routinePerms[(routineUuid, authorizationId)].hasExecutePermission
  }

  /** The SQL state of a refusal: the grant variant when checking before a GRANT. */
  function DeniedStateFor(forGrant: bool): DeniedState
  {
    if forGrant then AuthNoExecutePermissionForGrant else AuthNoExecutePermission
  }

  /**
   * StatementRoutinePermission.check: admits the statement exactly when the user
   * holds an execute grant on the routine; otherwise resolves the routine and then
   * its schema, reporting a dangling id before a refusal.
   */
  function Check(p: StatementRoutinePermission, dd: DataDictionary, authorizationId: string, forGrant: bool)
    : (r: CheckOutcome)
    // fail-closed: normal return exactly when the grant record exists with execute set
    ensures r.Admit? <==> HasExecutePermission(dd, p.routineUuid, authorizationId)
    // an unresolvable routine is reported before the schema is looked up
    ensures !HasExecutePermission(dd, p.routineUuid, authorizationId) && p.routineUuid !in dd.aliases
            ==> r == BadUuid(RoutineUuid) && r.kind.Name() == "routine"
    ensures !HasExecutePermission(dd, p.routineUuid, authorizationId) && p.routineUuid in dd.aliases
            && dd.aliases[p.routineUuid].schemaUuid !in dd.schemas
            ==> r == BadUuid(SchemaUuid) && r.kind.Name() == "schema"
    // a refusal names user, descriptor type, schema and routine, in that order
    ensures !HasExecutePermission(dd, p.routineUuid, authorizationId) && p.routineUuid in dd.aliases
            && dd.aliases[p.routineUuid].schemaUuid in dd.schemas
            ==> var ad := dd.aliases[p.routineUuid];
                r == NoExecute(DeniedStateFor(forGrant), authorizationId, ad.descriptorType,
                               dd.schemas[ad.schemaUuid].schemaName, ad.name)
  {
    var perms := GetRoutinePermissions(dd, p.routineUuid, authorizationId);
    if perms.None? || !perms.value.hasExecutePermission then
      match GetAliasDescriptor(dd, p.routineUuid)
      case None => BadUuid(RoutineUuid)
      case Some(ad) =>
        match GetSchemaDescriptor(dd, ad.schemaUuid)
        case None => BadUuid(SchemaUuid)
        case Some(sd) =>
          NoExecute(DeniedStateFor(forGrant), authorizationId, ad.descriptorType, sd.schemaName, ad.name)
    else
      Admit
  }

  /** With an execute grant in place, the alias and schema catalogs play no part. */
  lemma GrantedIgnoresAliasesAndSchemas(p: StatementRoutinePermission, dd: DataDictionary, authorizationId: string,
                                        forGrant: bool, aliases: map<Uuid, AliasDescriptor>,
                                        schemas: map<Uuid, SchemaDescriptor>)
    requires HasExecutePermission(dd, p.routineUuid, authorizationId)
    ensures Check(p, dd.(aliases := aliases, schemas := schemas), authorizationId, forGrant) == Admit
  {
  }

  /** `forGrant` selects the SQL state of a refusal and changes nothing else. */
  lemma ForGrantOnlySelectsState(p: StatementRoutinePermission, dd: DataDictionary, authorizationId: string)
    ensures var forExecute := Check(p, dd, authorizationId, false);
            var forGrant := Check(p, dd, authorizationId, true);
            if forExecute.NoExecute?
            then forExecute.state == AuthNoExecutePermission
                 && forGrant == forExecute.(state := AuthNoExecutePermissionForGrant)
            else forGrant == forExecute
  {
  }

  /** Dropping a routine the user may not execute turns the refusal into a dangling-reference error. */
  lemma DanglingDistinctFromDenied(p: StatementRoutinePermission, dd: DataDictionary, authorizationId: string,
                                   forGrant: bool)
    requires Check(p, dd, authorizationId, forGrant).NoExecute?
    ensures Check(p, dd.(aliases := dd.aliases - {p.routineUuid}), authorizationId, forGrant) == BadUuid(RoutineUuid)
  {
  }

  /** Without a grant record for the user, the check never admits. */
  lemma RevokeDenies(p: StatementRoutinePermission, dd: DataDictionary, authorizationId: string, forGrant: bool)
    ensures !Check(p, dd.(routinePerms := dd.routinePerms - {(p.routineUuid, authorizationId)}),
                   authorizationId, forGrant).Admit?
  {
  }

  /** A catalog with one function FN in schema APP and the given grants. */
  function ExampleCatalog(grants: map<(Uuid, string), RoutinePermsDescriptor>): DataDictionary
  {
    DataDictionary(
      grants,
      map["r-1" := AliasDescriptor("r-1", "s-1", "APP", "FN", "FUNCTION", "app.Fns.fn", RoutineAliasInfo)],
      map["s-1" := SchemaDescriptor("s-1", "APP")])
  }

  /** alice holds no grant on FN: the refusal names her, the routine type, APP and FN. */
  lemma AliceIsRefused()
    ensures Check(StatementRoutinePermission("r-1"), ExampleCatalog(map[]), "alice", false)
            == NoExecute(AuthNoExecutePermission, "alice", "FUNCTION", "APP", "FN")
  {
  }

  /** bob holds an execute grant on FN: admitted. */
  lemma BobIsAdmitted()
    ensures Check(StatementRoutinePermission("r-1"),
                  ExampleCatalog(map[("r-1", "bob") := RoutinePermsDescriptor("r-1", "bob", true)]), "bob", true)
            == Admit
  {
  }

  /**
   * None of the four outcomes is dead: for every routine id, user and flag, some
   * catalog admits, some reports each bad id, and some refuses.
   */
  lemma EveryOutcomeOccurs(p: StatementRoutinePermission, authorizationId: string, forGrant: bool)
    ensures exists dd :: Check(p, dd, authorizationId, forGrant) == Admit
    ensures exists dd :: Check(p, dd, authorizationId, forGrant) == BadUuid(RoutineUuid)
    ensures exists dd :: Check(p, dd, authorizationId, forGrant) == BadUuid(SchemaUuid)
    ensures exists dd :: Check(p, dd, authorizationId, forGrant).NoExecute?
  {
    var id := p.routineUuid;
    var granted := map[(id, authorizationId) := RoutinePermsDescriptor(id, authorizationId, true)];
    var alias := AliasDescriptor(id, "s", "S", "R", "PROCEDURE", "c", RoutineAliasInfo);
    var admitting := DataDictionary(granted, map[], map[]);
    var noRoutine := DataDictionary(map[], map[], map[]);
    var noSchema := DataDictionary(map[], map[id := alias], map[]);
    var refusing := DataDictionary(map[], map[id := alias], map["s" := SchemaDescriptor("s", "S")]);
    assert Check(p, admitting, authorizationId, forGrant) == Admit;
    assert Check(p, noRoutine, authorizationId, forGrant) == BadUuid(RoutineUuid);
    assert Check(p, noSchema, authorizationId, forGrant) == BadUuid(SchemaUuid);
    assert Check(p, refusing, authorizationId, forGrant).NoExecute?;
  }
}
