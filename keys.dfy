/** What a table's key lists mean: foreign key lookup by name, and all keys in order. */
module Keys {
  import opened Wrappers
  import opened Records

  /**
   * `fk.getName().equals(name)`. A null `name` equals no key's name, because
   * `equals(null)` is false.
   */
  predicate HasName(fk: ForeignKey, name: Option<string>)
  {
    name == Some(fk.name)
  }

  /**
   * Where the first foreign key called `name` stands in `fks`, or `|fks|`
   * when none is called so.
   */
  function FirstNamedIndex(fks: seq<ForeignKey>, name: Option<string>): (i: nat)
    ensures i <= |fks|
    ensures i < |fks| ==> HasName(fks[i], name)
    ensures forall j :: 0 <= j < i ==> !HasName(fks[j], name)
  {
    if fks == [] then 0
    else if HasName(fks[0], name) then 0
    else 1 + FirstNamedIndex(fks[1..], name)
  }

  /** The first foreign key, in list order, called `name`; null when there is none. */
  function FirstNamed(fks: seq<ForeignKey>, name: Option<string>): Option<ForeignKey>
  {
    var i := FirstNamedIndex(fks, name);
    if i < |fks| then Some(fks[i]) else None
  }

  /** The lookup finds nothing exactly when no foreign key has the name. */
  lemma FirstNamedAbsent(fks: seq<ForeignKey>, name: Option<string>)
    ensures FirstNamed(fks, name) == None <==> forall i :: 0 <= i < |fks| ==> !HasName(fks[i], name)
  {
  }

  /** A key called `name` with none of that name before it is the one the lookup finds. */
  lemma FirstNamedFindsFirst(fks: seq<ForeignKey>, name: Option<string>, k: nat)
    requires k < |fks| && HasName(fks[k], name)
    requires forall j :: 0 <= j < k ==> !HasName(fks[j], name)
    ensures FirstNamed(fks, name) == Some(fks[k])
  {
  }

  /** The primary key when there is one, as a list of zero or one keys. */
  function PrimaryKeyPart(pk: Option<KeyRecord>): seq<KeyRecord>
  {
    if pk.Some? then [pk.value] else []
  }

  /**
   * Every key of a table: the primary key when present, then the foreign
   * keys, the access patterns, the indexes and the unique keys.
   */
  function AllKeys(pk: Option<KeyRecord>, fks: seq<ForeignKey>, aps: seq<KeyRecord>,
                   idx: seq<KeyRecord>, uks: seq<KeyRecord>): seq<KeyRecord>
  {
    PrimaryKeyPart(pk) + fks + aps + idx + uks
  }

  /**
   * Where each key stands among all keys: the length is the sum of the four
   * lists, plus one exactly when a primary key is present, and every key
   * keeps its place inside its own group.
   */
  lemma AllKeysLayout(pk: Option<KeyRecord>, fks: seq<ForeignKey>, aps: seq<KeyRecord>,
                      idx: seq<KeyRecord>, uks: seq<KeyRecord>)
    ensures var r, p := AllKeys(pk, fks, aps, idx, uks), |PrimaryKeyPart(pk)|;
      && |r| == p + |fks| + |aps| + |idx| + |uks|
      && (pk.Some? ==> r[0] == pk.value)
      && (forall i :: 0 <= i < |fks| ==> r[p + i] == fks[i])
      && (forall i :: 0 <= i < |aps| ==> r[p + |fks| + i] == aps[i])
      && (forall i :: 0 <= i < |idx| ==> r[p + |fks| + |aps| + i] == idx[i])
      && (forall i :: 0 <= i < |uks| ==> r[p + |fks| + |aps| + |idx| + i] == uks[i])
  {
  }

  /** A key is among all keys exactly when it is the primary key or is in one of the lists. */
  lemma AllKeysMembers(pk: Option<KeyRecord>, fks: seq<ForeignKey>, aps: seq<KeyRecord>,
                       idx: seq<KeyRecord>, uks: seq<KeyRecord>, k: KeyRecord)
    ensures k in AllKeys(pk, fks, aps, idx, uks) <==>
      pk == Some(k) || k in fks || k in aps || k in idx || k in uks
  {
  }
}
