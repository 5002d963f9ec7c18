/**
  The records the service keeps in its three in-memory tables, the request
  payloads it accepts, and the three keys it starts with.
 */
module Records {
  import opened Wrappers

  /** A `datetime` value; the clock itself is not modelled, callers pass the instant. */
  datatype DateTime = DateTime(year: int, month: int, day: int, hour: int, minute: int, second: int)

  /** The only status the service ever assigns. */
  const Active: string := "active"

  /** A row of the key table; its fields are exactly those the key listing exposes. */
  datatype Key = Key(
    id: string,
    name: string,
    systemName: string,
    systemType: string,
    env: string,
    status: string,
    lastUsedAt: Option<DateTime>,
    lastRotatedAt: DateTime,
    allocatedTo: seq<string>)

  /** Body of a key-creation request; `keyRef` is accepted but never stored. */
  datatype KeyCreate = KeyCreate(systemName: string, systemType: string, env: string, name: string, keyRef: string)

  /** Permission name to permitted value; values are kept as opaque text. */
  type Scope = map<string, string>

  /** Body of an allocation request. */
  datatype AllocationCreate = AllocationCreate(keyId: string, consumerType: string, consumerId: string, scope: Scope)

  /** A row of the allocation table. */
  datatype Allocation = Allocation(
    id: string,
    keyId: string,
    consumerType: string,
    consumerId: string,
    scope: Scope,
    createdAt: DateTime)

  datatype Action = CreateKeyAction | AllocateKeyAction | RotateKeyAction | SystemRequestAction

  /** A row of the audit log; system requests carry no key id. */
  datatype AuditEntry = AuditEntry(timestamp: DateTime, action: Action, keyId: Option<string>, details: string)

  /** The two failures a handler reports: HTTP 401 and HTTP 404. */
  datatype Error = Unauthorized | NotFound

  datatype Result<+T> = Ok(value: T) | Err(error: Error)

  /** The three keys the key table starts with. */
  function SeedKeys(): seq<Key> {
    [
      Key("key-001", "Production Database", "PostgreSQL", "db", "prod", Active,
          Some(DateTime(2024, 2, 7, 12, 0, 0)), DateTime(2024, 2, 1, 0, 0, 0),
          ["Server-01", "Server-02"]),
      Key("key-002", "Payment Gateway", "Stripe", "payments", "prod", Active,
          Some(DateTime(2024, 2, 6, 18, 30, 0)), DateTime(2024, 1, 15, 0, 0, 0),
          ["API-Gateway"]),
      Key("key-003", "Cloud Storage", "AWS S3", "storage", "prod", Active,
          None, DateTime(2024, 2, 5, 0, 0, 0),
          [])
    ]
  }
}
