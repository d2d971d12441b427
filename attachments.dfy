/**
 * The attachment storage of a table: a lazily created hash map from Java
 * `Class` objects to attached objects.
 */
module Attachments {
  import opened Wrappers

  /** A Java `Class` object, known by the name `getName()` returns. */
  datatype ClassRef = ClassRef(name: string)

  /**
   * What the map can be probed with. The map's declared key type is `Class`,
   * but `get` accepts any object, and a `String` never equals a `Class`.
   */
  datatype AttachmentKey = ClassKey(cls: ClassRef) | NameKey(name: string)

  /** An attached object; its content is not interpreted. */
  datatype Attachment = Attachment(payload: seq<int>)

  /** The hash map; a stored value may itself be null. */
  type AttachmentMap = map<AttachmentKey, Option<Attachment>>

  /** The exceptions the attachment methods throw. */
  datatype Error = IllegalArgument(message: string)

  /** The message of the exception thrown for a null type. */
  const NULL_TYPE: string := "Null type"

  /** `HashMap.get`, and the value `put` returns: what is stored, or null when nothing is. */
  function Get(m: AttachmentMap, k: AttachmentKey): Option<Attachment>
  {
    if k in m then m[k] else None
  }

  /** Every key is a `Class` object, the only kind of key `addAttchment` stores. */
  predicate ClassKeyed(m: AttachmentMap)
  {
    forall k :: k in m ==> k.ClassKey?
  }

  /** Storing under a `Class` keeps the map keyed by classes only. */
  lemma PutKeepsClassKeyed(m: AttachmentMap, c: ClassRef, a: Option<Attachment>)
    requires ClassKeyed(m)
    ensures ClassKeyed(m[ClassKey(c) := a])
  {
  }

  /** A map keyed by classes only has nothing under any name. */
  lemma NameLookupMisses(m: AttachmentMap, name: string)
    requires ClassKeyed(m)
    ensures Get(m, NameKey(name)) == None
  {
  }

  /**
   * Storing under a class and reading back: probing with the class finds the
   * value, probing with the class's name finds nothing, and every other key
   * keeps what it had.
   */
  lemma PutThenGet(m: AttachmentMap, c: ClassRef, a: Option<Attachment>, k: AttachmentKey)
    ensures Get(m[ClassKey(c) := a], ClassKey(c)) == a
    ensures k != ClassKey(c) ==> Get(m[ClassKey(c) := a], k) == Get(m, k)
    ensures ClassKeyed(m) ==> Get(m[ClassKey(c) := a], NameKey(c.name)) == None
  {
  }
}
