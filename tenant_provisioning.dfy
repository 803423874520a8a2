/**
 * Provisioning of a tenant: derive its schema name, build the Tenant record
 * and run the schema migration, wrapping a migration failure into a
 * provisioning error. The migration library itself is abstract: each call
 * either succeeds or fails, and is recorded in a ghost log.
 */
module TenantProvisioning {
  import opened Wrappers
  import opened SchemaNaming

  /** Maximum length of the tenantId column of the tenants table (the schemaName column's is in SchemaNaming). */
  const TenantIdColumnLength: nat := 50

  /** The tenants table row; id and description are nullable. */
  datatype Tenant = Tenant(
    id: Option<int>,
    tenantId: string,
    tenantName: string,
    schemaName: string,
    active: bool,
    description: Option<string>)

  /** The runtime exception the migration service throws, reduced to its message. */
  datatype MigrationError = MigrationError(message: string)

  /** The runtime exception provisioning throws, with the migration failure as its cause. */
  datatype ProvisioningError = ProvisioningError(message: string, cause: MigrationError)

  function MigrationFailed(tenantId: string): MigrationError {
    MigrationError("Liquibase migration failed for tenant: " + tenantId)
  }

  function RollbackFailed(tenantId: string): MigrationError {
    MigrationError("Liquibase rollback failed for tenant: " + tenantId)
  }

  /** One call into the migration service: its arguments and how it ended. */
  datatype Call = Call(tenantId: string, schemaName: string, outcome: Outcome<MigrationError>)

  /**
   * The migration service. Whether the database, the schema creation and the
   * change sets succeed is outside the model, so each call's outcome is chosen
   * nondeterministically; a failure carries the service's message. The ghost
   * logs record every call, so that callers can state what they delegated.
   */
  class MigrationService {
    ghost var migrations: seq<Call>
    ghost var rollbacks: seq<Call>

    constructor ()
      ensures migrations == [] && rollbacks == []
    {
      migrations := [];
      rollbacks := [];
    }

    /** Migrate one tenant schema to the latest change set. */
    method MigrateSchema(tenantId: string, schemaName: string) returns (o: Outcome<MigrationError>)
      modifies this`migrations
      ensures o.Fail? ==> o.error == MigrationFailed(tenantId)
      ensures migrations == old(migrations) + [Call(tenantId, schemaName, o)]
    {
      var succeeded: bool := *;
      if succeeded {
        o := Pass;
      } else {
        o := Fail(MigrationFailed(tenantId));
      }
      migrations := migrations + [Call(tenantId, schemaName, o)];
    }

    /** Roll back the last change set of one tenant schema. */
    method RollbackLastChange(tenantId: string, schemaName: string) returns (o: Outcome<MigrationError>)
      modifies this`rollbacks
      ensures o.Fail? ==> o.error == RollbackFailed(tenantId)
      ensures rollbacks == old(rollbacks) + [Call(tenantId, schemaName, o)]
    {
      var succeeded: bool := *;
      if succeeded {
        o := Pass;
      } else {
        o := Fail(RollbackFailed(tenantId));
      }
      rollbacks := rollbacks + [Call(tenantId, schemaName, o)];
    }
  }

  /**
   * Provision a new tenant: migrate the derived schema once; on success return
   * the record holding the inputs, the derived schema name and active = true;
   * on failure return a provisioning error naming the tenant and no record.
   */
  method ProvisionNewTenant(svc: MigrationService, tenantId: string, tenantName: string)
    returns (r: Result<Tenant, ProvisioningError>)
    modifies svc`migrations
    ensures |svc.migrations| == |old(svc.migrations)| + 1
    ensures svc.migrations[..|old(svc.migrations)|] == old(svc.migrations)
    ensures var c := svc.migrations[|old(svc.migrations)|];
              && c.tenantId == tenantId
              && c.schemaName == SchemaName(tenantId)
              && (r.Success? <==> c.outcome.Pass?)
              && (r.Failure? ==> r.error == ProvisioningError("Failed to provision tenant: " + tenantId, c.outcome.error))
    ensures r.Success? ==>
              && r.value.tenantId == tenantId
              && r.value.tenantName == tenantName
              && r.value.schemaName == SchemaName(tenantId)
              && r.value.active
              && r.value.id.None?
              && r.value.description.None?
    ensures r.Failure? ==>
              r.error == ProvisioningError("Failed to provision tenant: " + tenantId, MigrationFailed(tenantId))
  {
    var schemaName := SchemaName(tenantId);
    var tenant := Tenant(None, "", "", "", true, None);
    tenant := tenant.(tenantId := tenantId);
    tenant := tenant.(tenantName := tenantName);
    tenant := tenant.(schemaName := schemaName);
    tenant := tenant.(active := true);
    var o := svc.MigrateSchema(tenantId, schemaName);
    match o
    case Pass =>
      r := Success(tenant);
    case Fail(e) =>
      r := Failure(ProvisioningError("Failed to provision tenant: " + tenantId, e));
  }

  /** Re-run the migration of an existing schema; its outcome is returned unwrapped. */
  method UpdateTenantSchema(svc: MigrationService, tenantId: string, schemaName: string)
    returns (o: Outcome<MigrationError>)
    modifies svc`migrations
    ensures svc.migrations == old(svc.migrations) + [Call(tenantId, schemaName, o)]
    ensures o.Fail? ==> o.error == MigrationFailed(tenantId)
  {
    o := svc.MigrateSchema(tenantId, schemaName);
  }

  /** Roll back the last change set of a schema; its outcome is returned unwrapped. */
  method RollbackTenantSchema(svc: MigrationService, tenantId: string, schemaName: string)
    returns (o: Outcome<MigrationError>)
    modifies svc`rollbacks
    ensures svc.rollbacks == old(svc.rollbacks) + [Call(tenantId, schemaName, o)]
    ensures o.Fail? ==> o.error == RollbackFailed(tenantId)
  {
    o := svc.RollbackLastChange(tenantId, schemaName);
  }

  /** A successfully provisioned tenant's schema name is safe and starts with "tenant_". */
  method ProvisionedSchemaIsSafe(svc: MigrationService, tenantId: string, tenantName: string)
    returns (r: Result<Tenant, ProvisioningError>)
    modifies svc`migrations
    ensures r.Success? ==>
              && |r.value.schemaName| == |Prefix| + |tenantId|
              && r.value.schemaName[..|Prefix|] == Prefix
              && IsSafe(r.value.schemaName[|Prefix|..])
              && (|r.value.schemaName| <= SchemaNameColumnLength <==> |tenantId| <= 43)
  {
    r := ProvisionNewTenant(svc, tenantId, tenantName);
    if r.Success? {
      SchemaNameShape(tenantId);
      SchemaNameFitsColumn(tenantId);
    }
  }

  /**
   * A tenantId of 44 characters fits its 50-character column, but the schema
   * name derived from it does not fit the schemaName column.
   */
  lemma ColumnLengthMismatch()
    ensures exists t: string :: |t| <= TenantIdColumnLength && |SchemaName(t)| > SchemaNameColumnLength
  {
    var t := seq(44, _ => 'a');
    assert |SchemaName(t)| == 51;
  }
}
