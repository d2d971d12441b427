# Table metadata record (Teiid)

A Dafny model of `org.teiid.metadata.Table`, the catalog record the Teiid
federated query engine keeps for every table and view. A table record holds:

- scalar properties: the table type, the cardinality, whether it is virtual,
  and the insert, update and delete plans of a view with their "enabled" flags;
- its keys: an optional primary key and four ordered lists (foreign keys,
  indexes, unique keys, access patterns);
- lazily created attachment storage, a map from Java classes to attached objects.

The record is a mutable object, so the model is a `class Table` (module
`Metadata`, file `table.dfy`). Its setters change only the fields their
`modifies` frame names. Field-granular frames such as `this`insertPlan` prove
that nothing else changes. Queries that loop or build results step by step
are methods proved against specification functions:

- `GetForeignKey` loops with an early return;
- `GetAllKeys` builds its result by appending.

The specification functions live in module `Keys` (`keys.dfy`). The map
semantics of the attachment storage live in module `Attachments`
(`attachments.dfy`).

Modelling choices:

- Java `null` is `Option.None`. This covers the table type, the plans, the
  primary key, the statistics' cardinality, attached values and the name
  given to `getForeignKey`.
- Exceptions are `Result.Failure`.
- Java `int` is the newtype `int32`.
- `DataTypeManager.getCanonicalString` only returns a canonical instance of
  an equal string, so the model treats it as the identity.
- A Java `Class` object is a `ClassRef` that carries the class's name.
- A foreign key is a key record that references another key (the subset type
  `ForeignKey`). It is a key record as it stands, so listing it among all
  keys keeps it whole, as Java's upcast does.

The keys the attachment map can be probed with are an `AttachmentKey`:

- `ClassKey(c)` is a `Class` object;
- `NameKey(s)` is a `String`.

The two constructors differ, so a `Class` never equals a `String`, just as in Java.

## Model

| member | source | states |
|---|---|---|
| `Metadata.Table.constructor` | api/src/main/java/org/teiid/metadata/Table.java:54-85 | a new record has cardinality -1 and no table type, so it reads as a plain `Table`. It is not virtual, so it is physical. It has no keys, no plans, no enabled plan and no attachment map. |
| `Metadata.Table.GetTableType` | api/src/main/java/org/teiid/metadata/Table.java:123-128 | the table type is `Table` when none is set, otherwise the stored type |
| `Metadata.Table.SetTableType` | api/src/main/java/org/teiid/metadata/Table.java:144-146 | after setting, the table type is exactly the value passed; passing null makes it a plain `Table` again |
| `Metadata.Table.IsPhysical` | api/src/main/java/org/teiid/metadata/Table.java:107-117 | a table is physical if and only if it is not virtual |
| `Metadata.Table.SetVirtual` | api/src/main/java/org/teiid/metadata/Table.java:158-160 | after `SetVirtual(b)`, virtual is `b` and physical is `!b`; nothing else changes |
| `Metadata.Table.SetCardinality` | api/src/main/java/org/teiid/metadata/Table.java:137-139 | the cardinality becomes the given 32-bit value; nothing else changes |
| `Metadata.Table.SetTableStats` | api/src/main/java/org/teiid/metadata/Table.java:319-323 | the cardinality becomes the statistics' cardinality when they carry one, and is unchanged otherwise; no other field changes |
| `Metadata.Table.SetInsertPlan` | api/src/main/java/org/teiid/metadata/Table.java:189-192 | stores the insert plan and enables it; the update and delete plans and their flags are unchanged |
| `Metadata.Table.SetUpdatePlan` | api/src/main/java/org/teiid/metadata/Table.java:194-197 | stores the update plan and enables it; the insert and delete plans and their flags are unchanged |
| `Metadata.Table.SetDeletePlan` | api/src/main/java/org/teiid/metadata/Table.java:199-202 | stores the delete plan and enables it; the insert and update plans and their flags are unchanged |
| `Metadata.Table.SetInsertPlanEnabled` | api/src/main/java/org/teiid/metadata/Table.java:337-339 | sets only the insert plan's flag |
| `Metadata.Table.SetDeletePlanEnabled` | api/src/main/java/org/teiid/metadata/Table.java:341-343 | sets only the delete plan's flag |
| `Metadata.Table.SetUpdatePlanEnabled` | api/src/main/java/org/teiid/metadata/Table.java:345-347 | sets only the update plan's flag |
| `Metadata.Table.SetForeignKeys` | api/src/main/java/org/teiid/metadata/Table.java:208-210 | replaces the foreign key list only |
| `Metadata.Table.SetIndexes` | api/src/main/java/org/teiid/metadata/Table.java:225-227 | replaces the index list only |
| `Metadata.Table.SetUniqueKeys` | api/src/main/java/org/teiid/metadata/Table.java:233-235 | replaces the unique key list only |
| `Metadata.Table.SetAccessPatterns` | api/src/main/java/org/teiid/metadata/Table.java:241-243 | replaces the access pattern list only |
| `Metadata.Table.SetPrimaryKey` | api/src/main/java/org/teiid/metadata/Table.java:249-251 | replaces the primary key, which may be null, only |
| `Metadata.Table.GetForeignKey` | api/src/main/java/org/teiid/metadata/Table.java:212-219 | returns null if and only if no foreign key has the name. Otherwise it returns a foreign key that has the name and that no earlier key with the name precedes. The result equals `Keys.FirstNamed`, and nothing is modified. |
| `Keys.FirstNamedIndex` | api/src/main/java/org/teiid/metadata/Table.java:212-219 | the index of the first foreign key with the given name, or the list length when there is none. A null name matches nothing. |
| `Keys.FirstNamedAbsent` | api/src/main/java/org/teiid/metadata/Table.java:212-219 | the name lookup finds nothing exactly when no key has the name |
| `Keys.FirstNamedFindsFirst` | api/src/main/java/org/teiid/metadata/Table.java:212-219 | a key with the name and no earlier key with the name is the one the lookup returns |
| `Metadata.Table.GetAllKeys` | api/src/main/java/org/teiid/metadata/Table.java:285-295 | the result is `Keys.AllKeys` of the current fields. Its length is the sum of the four list lengths, plus one exactly when there is a primary key. |
| `Keys.AllKeysLayout` | api/src/main/java/org/teiid/metadata/Table.java:285-295 | all keys are the primary key first (only when present), then the foreign keys (whole, with the key each references), access patterns, indexes and unique keys, each group in its own order. The total length is the group sizes added up. |
| `Keys.AllKeysMembers` | api/src/main/java/org/teiid/metadata/Table.java:285-295 | a key is among all keys if and only if it is the primary key or is in one of the four lists |
| `Attachments.PutKeepsClassKeyed` | api/src/main/java/org/teiid/metadata/Table.java:365 | storing under a class keeps every key of the map a class |
| `Attachments.NameLookupMisses` | api/src/main/java/org/teiid/metadata/Table.java:385 | a map keyed only by classes holds nothing under any string |
| `Attachments.PutThenGet` | api/src/main/java/org/teiid/metadata/Table.java:365-385 | after storing under a class, probing with that class gives the stored value and every other key reads as before. Probing with the class's name finds nothing. |
| `Metadata.Table.AddAttachment` | api/src/main/java/org/teiid/metadata/Table.java:349-369 | a null type fails with `IllegalArgumentException("Null type")` and changes nothing. Otherwise the map is created if absent and the attachment is stored under the class. The call returns what the class held before, or null. No other entry changes, and the map stays keyed by classes. |
| `Metadata.Table.GetAttachmentAsWritten` | api/src/main/java/org/teiid/metadata/Table.java:379-389 | a null type fails with `IllegalArgumentException`. With no map yet the result is null. Otherwise it probes the map with the class's name, which on a valid table always gives null. It modifies nothing. |
| `Metadata.Table.GetAttachment` | api/src/main/java/org/teiid/metadata/Table.java:371-389 | the documented lookup: a null type fails, and otherwise the result is the attachment stored under the class, or null if none. It modifies nothing. |
| `Metadata.AttachmentRoundTrip` | api/src/main/java/org/teiid/metadata/Table.java:359-389 | after attaching `a` under a class, the documented lookup gives back `a` and the lookup as written gives null |

## Findings

| source | as written | input that shows it | evidently intended | confidence | as-written member | corrected member |
|---|---|---|---|---|---|---|
| api/src/main/java/org/teiid/metadata/Table.java:385 | `getAttachment` probes the map with `type.getName()`, a `String`. `addAttchment` stores under the `Class` object itself (line 365), so no stored attachment is ever found. | `addAttchment(C, a)` then `getAttachment(C)` for any class `C` and non-null `a` returns null | look up `attachments.get(type)`, which returns the attachment stored under the class, as the comment at line 376 promises | high; not executed | `Metadata.Table.GetAttachmentAsWritten` (with `Metadata.AttachmentRoundTrip`) | `Metadata.Table.GetAttachment` |

## Left out

- The batched update execution of the JDBC connector is not part of this model. Its class is not among the files modelled. A test that mocks it shows only that two multi-valued rows give two `addBatch` calls.
- The configuration-loading test reads files and system properties and resets a process-wide singleton. It is all I/O and global state, so it is not modelled.
- `synchronized` on the two attachment methods is a locking concern. The model runs them sequentially.
- `DataTypeManager.getCanonicalString` is taken as the identity on strings, since it only interns.
- `addColumn` delegates to the superclass `ColumnSet` and to `Column.setParent`. Neither is part of this model.
- `type.cast` in the attachment methods is reflective, and attachments are uninterpreted values that carry no class of their own, so the cast is not modelled.
- Metadata.Table.AddAttachment: does not model the `ClassCastException` that `type.cast` can throw after `put` has already replaced the entry. This happens for a primitive class object such as `int.class`, whose `isInstance` is always false, when a previous value exists. It also happens for raw-typed or unchecked calls that store a value of another class. The model returns `Success` of the previous value instead. The documented lookup `Metadata.Table.GetAttachment` would reach the same cast and is simplified in the same way.
- The documentation of `addAttchment` says it throws for a null attachment, but the code stores the null. The model follows the code.
- Plain getters and setters with no rule are left out, because they carry no logic beyond storing a field. These are: bindings, schema paths, resource path, select transformation, the materialized and staging tables, the system, materialized and supports-update flags, the two timestamps, and `serialVersionUID`.
- Null lists are not modelled. The lists are `seq` values, so `setForiegnKeys(null)` followed by `getForeignKey`, which throws `NullPointerException` in Java, cannot be expressed.
- A foreign key with a null name would make `getForeignKey` throw `NullPointerException`. Key names are non-null strings here.
- `setTableStats(null)` throws `NullPointerException` in Java. The model's statistics are always present.
- Only the name and columns of a key record are modelled, plus, for a foreign key, the name of the key it references. Keys are compared by value, not by object identity.
- A foreign key whose referenced key was never set cannot be expressed. The model tells foreign keys apart by the presence of a referenced key (the subset type `ForeignKey`), so such a key cannot be passed to `SetForeignKeys`.
- Sharing of the key lists is not modelled. In Java, `setForiegnKeys`, `setIndexes`, `setUniqueKeys` and `setAccessPatterns` keep the caller's own list, and `getForeignKeys`, `getIndexes`, `getUniqueKeys` and `getAccessPatterns` hand out the live list. A change made through such a shared reference (`t.getForeignKeys().add(fk)`) therefore changes what `getForeignKey` and `getAllKeys` later return. Here the lists are `seq` values held in the fields, so such a change can only be written as a new `SetForeignKeys`, `SetIndexes`, `SetUniqueKeys` or `SetAccessPatterns` call.
- The getters of the modelled fields are reads of the fields themselves; they hand out values, not shared references.
- Class identity is simplified. A `ClassRef` is known by its name, so two `Class` objects with the same name from different class loaders are one map key here. In Java `Class.equals` is identity, so they would be two keys.
