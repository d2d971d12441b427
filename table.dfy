/** The metadata record of one table, as the query engine's catalog keeps it. */
module Metadata {
  import opened Wrappers
  import opened Records
  import Keys
  import opened Attachments

  class Table {
    /** The number of rows, or -1 when it is not known. */
    var cardinality: int32
    /** The kind of table; null until one is set. */
    var tableType: Option<TableType>
    var isVirtual: bool
    var foreignKeys: seq<ForeignKey>
    var indexes: seq<KeyRecord>
    var uniqueKeys: seq<KeyRecord>
    var accessPatterns: seq<KeyRecord>
    var primaryKey: Option<KeyRecord>
    /** The procedures that carry out inserts, updates and deletes against a view. */
    var insertPlan: Option<string>
    var updatePlan: Option<string>
    var deletePlan: Option<string>
    var insertPlanEnabled: bool
    var updatePlanEnabled: bool
    var deletePlanEnabled: bool
    /** Created on the first attachment; null before. */
    var attachments: Option<AttachmentMap>

    /** The attachment map, once it exists, holds entries keyed by classes only. */
    ghost predicate Valid()
      reads this`attachments
    {
      attachments.Some? ==> ClassKeyed(attachments.value)
    }

    /** A new table: no type, unknown cardinality, no keys, no plans, no attachments. */
    constructor ()
      ensures cardinality == -1
      ensures tableType == None && GetTableType() == TableType.Table
      ensures !isVirtual && IsPhysical()
      ensures primaryKey == None
      ensures foreignKeys == [] && indexes == [] && uniqueKeys == [] && accessPatterns == []
      ensures insertPlan == None && updatePlan == None && deletePlan == None
      ensures !insertPlanEnabled && !updatePlanEnabled && !deletePlanEnabled
      ensures attachments == None && Valid()
    {
      cardinality := -1;
      tableType := None;
      isVirtual := false;
      foreignKeys, indexes, uniqueKeys, accessPatterns := [], [], [], [];
      primaryKey := None;
      insertPlan, updatePlan, deletePlan := None, None, None;
      insertPlanEnabled, updatePlanEnabled, deletePlanEnabled := false, false, false;
      attachments := None;
    }

    /** The kind of table, a plain table when none has been set. */
    function GetTableType(): (t: TableType)
      reads this`tableType
      ensures tableType == None ==> t == TableType.Table
      ensures tableType != None ==> t == tableType.value
    {
      tableType.GetOr(TableType.Table)
    }

    method SetTableType(t: Option<TableType>)
      modifies this`tableType
      ensures tableType == t
      ensures GetTableType() == if t.Some? then t.value else TableType.Table
    {
      tableType := t;
    }

    /** A table is physical exactly when it is not virtual. */
    function IsPhysical(): (b: bool)
      reads this`isVirtual
      ensures b <==> !isVirtual
    {
      !isVirtual
    }

    method SetVirtual(b: bool)
      modifies this`isVirtual
      ensures isVirtual == b
      ensures IsPhysical() == !b
    {
      isVirtual := b;
    }

    method SetCardinality(i: int32)
      modifies this`cardinality
      ensures cardinality == i
    {
      cardinality := i;
    }

    /** Takes the cardinality from the statistics when they carry one. */
    method SetTableStats(stats: TableStats)
      modifies this`cardinality
      ensures stats.cardinality.Some? ==> cardinality == stats.cardinality.value
      ensures stats.cardinality.None? ==> cardinality == old(cardinality)
    {
      if stats.cardinality.Some? {
        SetCardinality(stats.cardinality.value);
      }
    }

    /** Stores the insert plan and enables it; the frame leaves the other plans alone. */
    method SetInsertPlan(plan: Option<string>)
      modifies this`insertPlan, this`insertPlanEnabled
      ensures insertPlan == plan && insertPlanEnabled
    {
      insertPlan := plan;
      insertPlanEnabled := true;
    }

    /** Stores the update plan and enables it; the frame leaves the other plans alone. */
    method SetUpdatePlan(plan: Option<string>)
      modifies this`updatePlan, this`updatePlanEnabled
      ensures updatePlan == plan && updatePlanEnabled
    {
      updatePlan := plan;
      updatePlanEnabled := true;
    }

    /** Stores the delete plan and enables it; the frame leaves the other plans alone. */
    method SetDeletePlan(plan: Option<string>)
      modifies this`deletePlan, this`deletePlanEnabled
      ensures deletePlan == plan && deletePlanEnabled
    {
      deletePlan := plan;
      deletePlanEnabled := true;
    }

    method SetInsertPlanEnabled(b: bool)
      modifies this`insertPlanEnabled
      ensures insertPlanEnabled == b
    {
      insertPlanEnabled := b;
    }

    method SetUpdatePlanEnabled(b: bool)
      modifies this`updatePlanEnabled
      ensures updatePlanEnabled == b
    {
      updatePlanEnabled := b;
    }

    method SetDeletePlanEnabled(b: bool)
      modifies this`deletePlanEnabled
      ensures deletePlanEnabled == b
    {
      deletePlanEnabled := b;
    }

    method SetForeignKeys(fks: seq<ForeignKey>)
      modifies this`foreignKeys
      ensures foreignKeys == fks
    {
      foreignKeys := fks;
    }

    method SetIndexes(keys: seq<KeyRecord>)
      modifies this`indexes
      ensures indexes == keys
    {
      indexes := keys;
    }

    method SetUniqueKeys(keys: seq<KeyRecord>)
      modifies this`uniqueKeys
      ensures uniqueKeys == keys
    {
      uniqueKeys := keys;
    }

    method SetAccessPatterns(keys: seq<KeyRecord>)
      modifies this`accessPatterns
      ensures accessPatterns == keys
    {
      accessPatterns := keys;
    }

    method SetPrimaryKey(key: Option<KeyRecord>)
      modifies this`primaryKey
      ensures primaryKey == key
    {
      primaryKey := key;
    }

    /**
     * The first foreign key, in list order, called `name`, or null when no
     * foreign key is called so.
     */
    method GetForeignKey(name: Option<string>) returns (fk: Option<ForeignKey>)
      ensures fk.None? <==> forall i :: 0 <= i < |foreignKeys| ==> !Keys.HasName(foreignKeys[i], name)
      ensures fk.Some? ==> exists i :: 0 <= i < |foreignKeys| && foreignKeys[i] == fk.value
                                       && Keys.HasName(fk.value, name)
                                       && forall j :: 0 <= j < i ==> !Keys.HasName(foreignKeys[j], name)
      ensures fk == Keys.FirstNamed(foreignKeys, name)
    {
      var i := 0;
      while i < |foreignKeys|
        invariant 0 <= i <= |foreignKeys|
        invariant forall j :: 0 <= j < i ==> !Keys.HasName(foreignKeys[j], name)
      {
        if Keys.HasName(foreignKeys[i], name) {
          return Some(foreignKeys[i]);
        }
        i := i + 1;
      }
      return None;
    }

    /**
     * Every key of the table: the primary key when there is one, then the
     * foreign keys, the access patterns, the indexes and the unique keys.
     */
    method GetAllKeys() returns (keys: seq<KeyRecord>)
      ensures keys == Keys.AllKeys(primaryKey, foreignKeys, accessPatterns, indexes, uniqueKeys)
      ensures |keys| == |Keys.PrimaryKeyPart(primaryKey)|
                        + |foreignKeys| + |accessPatterns| + |indexes| + |uniqueKeys|
    {
      keys := [];
      if primaryKey.Some? {
        keys := keys + [primaryKey.value];
      }
      assert keys == Keys.PrimaryKeyPart(primaryKey);
      keys := keys + foreignKeys;
      keys := keys + accessPatterns;
      keys := keys + indexes;
      keys := keys + uniqueKeys;
    }

    /**
     * Attaches `attachment` under the class `t`, creating the map on first
     * use, and returns what was attached under `t` before (null if nothing).
     * A null `t` is rejected and nothing changes.
     */
    method AddAttachment(t: Option<ClassRef>, attachment: Option<Attachment>)
      returns (previous: Result<Option<Attachment>, Error>)
      requires Valid()
      modifies this`attachments
      ensures Valid()
      ensures t.None? ==> previous == Failure(IllegalArgument(NULL_TYPE)) && attachments == old(attachments)
      ensures t.Some? ==> && attachments == Some(old(attachments).GetOr(map[])[ClassKey(t.value) := attachment])
                          && previous == Success(Get(old(attachments).GetOr(map[]), ClassKey(t.value)))
    {
      if t.None? {
        return Failure(IllegalArgument(NULL_TYPE));
      }
      if attachments.None? {
        attachments := Some(map[]);
      }
      var m := attachments.value;
      var result := Get(m, ClassKey(t.value));
      PutKeepsClassKeyed(m, t.value, attachment);
      attachments := Some(m[ClassKey(t.value) := attachment]);
      return Success(result);
    }

    /**
     * The lookup as the source writes it: it probes the map with the class's
     * name, a string, which is never a key the map holds, so on a valid table
     * it never finds anything.
     */
    method GetAttachmentAsWritten(t: Option<ClassRef>) returns (found: Result<Option<Attachment>, Error>)
      ensures t.None? ==> found == Failure(IllegalArgument(NULL_TYPE))
      ensures t.Some? && attachments.None? ==> found == Success(None)
      ensures t.Some? && attachments.Some? ==> found == Success(Get(attachments.value, NameKey(t.value.name)))
      ensures t.Some? && Valid() ==> found == Success(None)
    {
      if t.None? {
        return Failure(IllegalArgument(NULL_TYPE));
      }
      if attachments.None? {
        return Success(None);
      }
      if Valid() {
        NameLookupMisses(attachments.value, t.value.name);
      }
      return Success(Get(attachments.value, NameKey(t.value.name)));
    }

    /**
     * The lookup as documented: the attachment stored under the class `t`,
     * or null if there is none. A null `t` is rejected.
     */
    method GetAttachment(t: Option<ClassRef>) returns (found: Result<Option<Attachment>, Error>)
      ensures t.None? ==> found == Failure(IllegalArgument(NULL_TYPE))
      ensures t.Some? && attachments.None? ==> found == Success(None)
      ensures t.Some? && attachments.Some? ==> found == Success(Get(attachments.value, ClassKey(t.value)))
    {
      if t.None? {
        return Failure(IllegalArgument(NULL_TYPE));
      }
      if attachments.None? {
        return Success(None);
      }
      return Success(Get(attachments.value, ClassKey(t.value)));
    }
  }

  /**
   * Attaching and reading back under the same class: the documented lookup
   * returns what was attached, the lookup as written returns null.
   */
  method AttachmentRoundTrip(table: Table, t: ClassRef, attachment: Attachment)
    returns (found: Result<Option<Attachment>, Error>, foundAsWritten: Result<Option<Attachment>, Error>)
    requires table.Valid()
    modifies table`attachments
    ensures found == Success(Some(attachment))
    ensures foundAsWritten == Success(None)
  {
    var _ := table.AddAttachment(Some(t), Some(attachment));
    PutThenGet(old(table.attachments).GetOr(map[]), t, Some(attachment), ClassKey(t));
    found := table.GetAttachment(Some(t));
    foundAsWritten := table.GetAttachmentAsWritten(Some(t));
  }
}
