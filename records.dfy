/** The value records a `Table` holds and hands out. */
module Records {
  import opened Wrappers

  /** Java's 32-bit `int`, also the value of a non-null `Integer`. */
  newtype int32 = x: int | -0x8000_0000 <= x < 0x8000_0000

  /** `Table.Type`: what kind of table a metadata record describes. */
  datatype TableType = Table | View | Document | XmlMappingClass | XmlStagingTable | MaterializedTable

  /**
   * A key of a table: a primary key, an index, a unique key, an access
   * pattern or a foreign key. Only its name, the names of its columns and,
   * for a foreign key, the name of the key it references are modelled.
   */
  datatype KeyRecord = KeyRecord(name: string, columns: seq<string>, references: Option<string>)

  /**
   * A foreign key: in the source a subclass of the key record, here the key
   * records that reference another key. A foreign key is a key record as it
   * stands, so putting it in a list of key records drops nothing.
   */
  type ForeignKey = k: KeyRecord | k.references.Some? witness KeyRecord("", [], Some(""))

  /** Statistics gathered for a table; the cardinality is a nullable `Integer`. */
  datatype TableStats = TableStats(cardinality: Option<int32>)
}
