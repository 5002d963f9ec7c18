# API Key Automaton: credential bookkeeping model

This project models the in-memory credential bookkeeping behind the API Key
Automaton service (`key_automaton.py`). The service keeps three module-level
tables:

- the **key table**. It starts with three seed keys. New keys are appended with
  the positional id `key-{n+1:03d}`.
- the **allocation table**. Each allocation request appends a record with id
  `alloc-{m+1:03d}`. It also adds the consumer to the key's `allocated_to` list
  if the consumer is not already there.
- the **audit log**. Every successful create, allocate, rotate and
  system-request call appends exactly one entry. The audit query returns the
  last 100 entries.

Every handler is guarded by an admin-key membership check.

The model is a single class, `KeyAutomaton.Automaton`. Its fields are the three
tables as sequences and the admin key set as a constant. The handlers that
change the tables are methods with `modifies this`. Each one states the whole
new state in terms of the old state. The queries `list_keys`,
`list_allocations` and `get_audit_log` are functions over the fields. The
query `get_key` is a method, because it runs the lookup loop. That loop, which
the source writes three times, is the method `FindKey`. It is proved equal to the recursive first-match function
`Tables.KeyIndex`.

The invariant `Tables.TablesValid` says five things:

- the key at index i has id `key-{i+1:03d}`;
- every key is `"active"`;
- no key lists a consumer twice;
- the allocation at index j has id `alloc-{j+1:03d}`;
- every allocation names an existing key, and that key lists the allocation's
  consumer.

The seed data satisfies the invariant, and every handler preserves it. Ids are
built by an explicit zero-pad-to-three formatter (`Ids.Pad3`). That formatter is
proved injective, so positional ids are pairwise distinct. As a consequence, a
freshly created id is always found at the new last position.

The code has no key versions, no statuses other than `"active"`, no grace
periods, no rotation records and no revocation. The model follows the code on
all of these. In particular, `rotate_key` only restamps `last_rotated_at`, and
re-allocating a consumer appends a second allocation record instead of updating
the first one.

Files:

- `wrappers.dfy`: `Option`.
- `ids.dfy`: decimal rendering, zero padding, positional id format, injectivity.
- `records.dfy`: the table rows, request bodies, errors and the seed keys.
- `tables.dfy`: lookup, the consumer update, the audit window, the invariant
  and the preservation lemmas.
- `automaton.dfy`: the class with the handlers.

## Model

| member | source | states |
|---|---|---|
| `Ids.Pad3` | key_automaton.py:127 | `{n:03d}` yields only digits, at least three characters, and a leading zero only when the width is exactly three |
| `Ids.Pad3Value` | key_automaton.py:127 | the padded rendering reads back as n: zero padding loses nothing |
| `Ids.FormatId` | key_automaton.py:178 | an id is the prefix followed by at least three more characters |
| `Ids.FormatIdValue` | key_automaton.py:178 | the characters after the prefix are digits whose value is the number |
| `Ids.FormatIdInjective` | key_automaton.py:127 | two ids with the same prefix are equal only when their numbers are equal |
| `Tables.KeyIndex` | key_automaton.py:156-159 | first-match lookup: the result indexes a key with the id and no earlier key has it; None exactly when no key has it |
| `Tables.AddConsumer` | key_automaton.py:174-175 | the consumer ends up listed; the old list is a prefix (order kept); nothing else is added; a present consumer leaves the list as it was; no duplicates are introduced |
| `Tables.AddConsumerOnce` | key_automaton.py:174-175 | on a list without duplicates, the consumer appears exactly once afterwards |
| `Tables.LastN` | key_automaton.py:224 | `log[-n:]` is a suffix of the log in order: for n >= 1 it has min(n, \|log\|) entries, and for n = 0 it is the whole log |
| `Tables.KeyIdsUnique` | key_automaton.py:127 | under positional ids, two different keys never share an id |
| `Tables.PositionalLookup` | key_automaton.py:154-159 | under positional ids, `key-{n:03d}` is found exactly at index n-1 |
| `Tables.SeedKeysValid` | key_automaton.py:69-106 | the seed keys and the empty allocation table satisfy the invariant |
| `Tables.CreatedKeyFound` | key_automaton.py:127-139 | appending key `key-{n+1:03d}` keeps ids positional, and lookup finds the new id at the new last index |
| `Tables.CreatePreserves` | key_automaton.py:127-139 | appending a fresh active key with an empty consumer list keeps the invariant |
| `Tables.AllocatePreserves` | key_automaton.py:173-185 | adding the consumer to the found key and appending allocation `alloc-{m+1:03d}` keeps the invariant |
| `Tables.RotatePreserves` | key_automaton.py:211 | restamping a key's rotation time keeps the invariant |
| `KeyAutomaton.Automaton.constructor` | key_automaton.py:69-106 | the service starts with the three seed keys (`Records.SeedKeys`, the rows of :70-102 field for field), no allocations and an empty audit log, and the invariant holds |
| `KeyAutomaton.Automaton.RequireAdmin` | key_automaton.py:35-41 | a request passes only with a header that is one of the admin keys; a missing header is refused with Unauthorized |
| `KeyAutomaton.Automaton.FindKey` | key_automaton.py:164-168 | the scan returns the same index as first-match lookup, or None when no key matches |
| `KeyAutomaton.Automaton.CreateKey` | key_automaton.py:125-148 | unauthorized: no change. Otherwise it returns `key-{n+1:03d}`, appends exactly that key (active, never used, rotated now, no consumers) and one `create_key` audit entry, leaves existing keys and allocations alone, and the new id is then found |
| `KeyAutomaton.Automaton.ListKeys` | key_automaton.py:150-152 | unauthorized, or the whole key table in creation order, the key at position i carrying id `key-{i+1:03d}` |
| `KeyAutomaton.Automaton.GetKey` | key_automaton.py:154-159 | unauthorized, NotFound when no key has the id, else the first matching key; for any positional id `key-{n:03d}` with n within the table, the key at index n-1 |
| `KeyAutomaton.Automaton.AllocateKey` | key_automaton.py:161-194 | unauthorized or unknown key: nothing changes. Otherwise only the found key's consumer list changes, to `AddConsumer` of it, with the consumer listed exactly once. One allocation `alloc-{m+1:03d}` with the payload's fields is appended, even for a repeat consumer, and so is one `allocate_key` audit entry |
| `KeyAutomaton.Automaton.ListAllocations` | key_automaton.py:196-198 | unauthorized, or every allocation in order, the one at position j carrying id `alloc-{j+1:03d}` and bound to an existing key that lists its consumer |
| `KeyAutomaton.Automaton.RotateKey` | key_automaton.py:200-220 | unauthorized or unknown key: nothing changes. Otherwise only the found key's `last_rotated_at` becomes now (status and consumers kept), and one `rotate_key` audit entry naming the key is appended |
| `KeyAutomaton.Automaton.GetAuditLog` | key_automaton.py:222-224 | unauthorized, or the last min(100, n) audit entries in order, a suffix of the log |
| `KeyAutomaton.Automaton.SystemRequest` | key_automaton.py:226-233 | unauthorized: nothing changes. Otherwise exactly one `system_request` entry carrying the serialized body is appended; the key and allocation tables never change |

## Left out

- FastAPI app construction, CORS middleware, routing and the `uvicorn` entry point (key_automaton.py:16-29, 235-237) are transport plumbing.
- Request-body validation and response filtering are not modelled. Pydantic validates the bodies; the model uses plain record datatypes. The stored key rows have exactly the fields of the response model, so filtering changes nothing. `key_ref` is accepted in `KeyCreate` and never stored, as in the source.
- The admin key set comes from the environment in the source; the model takes it as a constructor parameter. The header extraction, including how an absent or empty header becomes "no key", happens before the guard. The model receives its outcome as an `Option<string>`.
- Clock reads are not modelled. Each handler receives one `now` instant, so the two `datetime.now()` reads in a handler are taken as the same instant. `isoformat()` is not modelled: audit entries and allocations store the `DateTime` value instead of its ISO text.
- Scope values and the system-request body are kept as opaque text. The source keeps arbitrary JSON values in the scope dict, and it writes `json.dumps` of the request body into the audit entry.
- The scope is a Dafny `map`, which has no order. The source's dict keeps insertion order, and `list_allocations` returns it in that order; the model does not capture that order.
- Audit actions are an enumeration, not the source's action strings. The f-string details are modelled by string concatenation.
- `root` and `health` (key_automaton.py:109-123) are status endpoints whose output depends on the wall clock; they are not modelled.
- Aliasing is not modelled. `list_keys` and `list_allocations` return the live lists; the model returns their values. The source's dict rows are updated in place; the model replaces the row in the sequence. No handler in the source relies on a caller keeping a reference.
- The following features are not in the code, so they are not modelled: credential versions, the Active/Rotating/Deprecated/Revoked state machine, grace periods, rotation records, allocation revocation, scope replacement on re-allocation, audit sequence numbers and hash chaining. Where that design and the code disagree (for example, repeat allocations create a second record), the model follows the code.
- Concurrency is not modelled. The handlers have no synchronisation of their own, and the model treats each handler as one atomic step. Two invariants rest on that assumption. Sync handlers can run in a thread pool, so two concurrent `create_key` calls could both read the table length (key_automaton.py:127) before either appends (key_automaton.py:139), which would give two keys the same id. The check-then-append on `allocated_to` (key_automaton.py:174-175) has the same race, which could list a consumer twice.
