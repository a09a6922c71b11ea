/**
 * A member descriptor: a data-member pointer of an owner class bound to a
 * display name, with typed read and write access to that member of an object.
 *
 * The owner object is its sequence of fields (an `array<Value>` where it is
 * changed in place); a member pointer is the index of the field it designates
 * together with the field's type.
 */
module Members {
  import opened Stream

  /** The member types the serializers know how to write. */
  datatype Kind = IntKind | CharKind | BoolKind | StringKind

  /** The current value of one field of an owner object. */
  datatype Value =
    | IntVal(i: Int32)
    | CharVal(c: char)
    | BoolVal(b: bool)
    | StringVal(s: string)
  {
    function KindOf(): Kind {
      match this
      case IntVal(_) => IntKind
      case CharVal(_) => CharKind
      case BoolVal(_) => BoolKind
      case StringVal(_) => StringKind
    }
  }

  /**
   * The pair form `MemberDescriptor(member, name)`: the member pointer
   * (field index `member` of type `kind`) and the name shown to serializers,
   * which the constructor stores unchanged and `name` gives back.
   */
  datatype MemberDescriptor = MemberDescriptor(member: nat, kind: Kind, name: string)

  /** `d`'s member pointer designates a field of type `d.kind` of an object with these fields. */
  predicate Binds(d: MemberDescriptor, fields: seq<Value>) {
    d.member < |fields| && fields[d.member].KindOf() == d.kind
  }

  /** `object.*member` */
  function Get(d: MemberDescriptor, fields: seq<Value>): Value
    requires d.member < |fields|
  {
    fields[d.member]
  }

  /** The fields after `object.*member = value`. */
  function Set(d: MemberDescriptor, fields: seq<Value>, value: Value): (r: seq<Value>)
    requires d.member < |fields|
    ensures |r| == |fields|
  {
    fields[d.member := value]
  }

  /** `getMemberValue(object)`: reads the bound member; the owner is only read. */
  method GetMemberValue(d: MemberDescriptor, owner: array<Value>) returns (value: Value)
    requires Binds(d, owner[..])
    ensures value == Get(d, owner[..])
    ensures value.KindOf() == d.kind
  {
    value := owner[d.member];
  }

  /** `setMemberValue(object, value)`: overwrites the bound member in place and nothing else. */
  method SetMemberValue(d: MemberDescriptor, owner: array<Value>, value: Value)
    requires Binds(d, owner[..]) && value.KindOf() == d.kind
    modifies owner
    ensures owner[..] == Set(d, old(owner[..]), value)
    ensures owner[d.member] == value
    ensures forall i :: 0 <= i < owner.Length && i != d.member ==> owner[i] == old(owner[i])
  {
    owner[d.member] := value;
  }

  /** After a set, a get through the same descriptor returns the value set. */
  lemma GetAfterSet(d: MemberDescriptor, fields: seq<Value>, value: Value)
    requires d.member < |fields|
    ensures Get(d, Set(d, fields, value)) == value
  {
  }

  /** A set leaves every field designated by another member pointer as it was. */
  lemma SetLeavesOtherMembers(d: MemberDescriptor, e: MemberDescriptor, fields: seq<Value>, value: Value)
    requires d.member < |fields| && e.member < |fields| && e.member != d.member
    ensures Get(e, Set(d, fields, value)) == Get(e, fields)
  {
  }

  /** Writing back the value just read leaves the object unchanged. */
  lemma SetOwnValue(d: MemberDescriptor, fields: seq<Value>)
    requires d.member < |fields|
    ensures Set(d, fields, Get(d, fields)) == fields
  {
  }

  /** Of two successive sets through one descriptor only the last one counts. */
  lemma SetTwice(d: MemberDescriptor, fields: seq<Value>, first: Value, second: Value)
    requires d.member < |fields|
    ensures Set(d, Set(d, fields, first), second) == Set(d, fields, second)
  {
  }

  /** A set of a value of the member's type keeps every descriptor bound. */
  lemma SetKeepsBindings(d: MemberDescriptor, e: MemberDescriptor, fields: seq<Value>, value: Value)
    requires Binds(d, fields) && value.KindOf() == d.kind && Binds(e, fields)
    ensures Binds(e, Set(d, fields, value))
  {
  }
}
