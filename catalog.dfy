/**
 * The catalog descriptors that the two admission checks read, and a read-only
 * snapshot of the data dictionary.  A Java `null` returned by a dictionary lookup
 * is a key missing from the corresponding map.
 */
module Catalog {
  import opened Wrappers

  /** Catalog identifiers (org.apache.derby.catalog.UUID), compared by value. */
  type Uuid = string

  /** A SQL data type as recorded in the catalog (TypeDescriptor / DataTypeDescriptor). */
  datatype DataTypeDescriptor = DataTypeDescriptor(typeName: string, nullable: bool)

  /** The kind-specific part of an alias: only aggregates carry an input and a return type. */
  datatype AliasInfo =
    | RoutineAliasInfo
    | AggregateAliasInfo(forType: DataTypeDescriptor, returnType: DataTypeDescriptor)

  /**
   * A routine or aggregate alias.  `name` is what both getName() and
   * getDescriptorName() report; `descriptorType` is getDescriptorType()
   * ("FUNCTION", "PROCEDURE", ...).
   */
  datatype AliasDescriptor = AliasDescriptor(
    uuid: Uuid,
    schemaUuid: Uuid,
    schemaName: string,
    name: string,
    descriptorType: string,
    javaClassName: string,
    aliasInfo: AliasInfo)

  datatype SchemaDescriptor = SchemaDescriptor(uuid: Uuid, schemaName: string)

  /** One row of the routine-permission catalog: may `grantee` execute the routine? */
  datatype RoutinePermsDescriptor = RoutinePermsDescriptor(
    routineUuid: Uuid,
    grantee: string,
    hasExecutePermission: bool)

  /** The part of the data dictionary the checks consult, keyed as the lookups are. */
  datatype DataDictionary = DataDictionary(
    routinePerms: map<(Uuid, string), RoutinePermsDescriptor>,
    aliases: map<Uuid, AliasDescriptor>,
    schemas: map<Uuid, SchemaDescriptor>)

  /** DataDictionary.getRoutinePermissions(routineUUID, authorizationId). */
  function GetRoutinePermissions(dd: DataDictionary, routineUuid: Uuid, authorizationId: string): Option<RoutinePermsDescriptor>
  {
    if (routineUuid, authorizationId) in dd.routinePerms then Some(dd.routinePerms[(routineUuid, authorizationId)]) else None
  }

  /** DataDictionary.getAliasDescriptor(uuid). */
  function GetAliasDescriptor(dd: DataDictionary, uuid: Uuid): Option<AliasDescriptor>
  {
    if uuid in dd.aliases then Some(dd.aliases[uuid]) else None
  }

  /** DataDictionary.getSchemaDescriptor(uuid, tc). */
  function GetSchemaDescriptor(dd: DataDictionary, uuid: Uuid): Option<SchemaDescriptor>
  {
    if uuid in dd.schemas then Some(dd.schemas[uuid]) else None
  }
}
