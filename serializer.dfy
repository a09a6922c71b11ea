/**
 * The generic serializer: walks a class's descriptor table in order and, for
 * each data-member descriptor, writes `name: value` and a newline to the
 * stream. Only data-member descriptors have a `serializeMember` overload, so
 * a table that holds a function descriptor does not compile; the methods
 * below require a table of data members only.
 */
module Serializer {
  import opened Stream
  import opened Members
  import opened Descriptors

  /**
   * What `os << value` writes for each member type. The stream has its default
   * flags (no `boolalpha`), so a bool is written as the digit 1 or 0; a string
   * member is a `const char*`.
   */
  function ValueText(v: Value): string {
    match v
    case IntVal(i) => IntText(i as int)
    case CharVal(c) => [c]
    case BoolVal(b) => if b then "1" else "0"
    case StringVal(s) => CStr(s)
  }

  /** The line `serializeMember` writes for one descriptor; `std::endl` ends it with a newline. */
  function MemberLine(d: MemberDescriptor, fields: seq<Value>): string
    requires d.member < |fields|
  {
    CStr(d.name) + ": " + ValueText(Get(d, fields)) + "\n"
  }

  /** A table `serialize` accepts for an owner with these fields: data members only, each bound. */
  predicate Serializable(table: seq<Descriptor>, fields: seq<Value>) {
    forall i :: 0 <= i < |table| ==> table[i].Member? && Binds(table[i].descriptor, fields)
  }

  /** The line of each descriptor of the table, in table order. */
  function Lines(table: seq<Descriptor>, fields: seq<Value>): seq<string>
    requires Serializable(table, fields)
  {
    seq(|table|, i requires 0 <= i < |table| && Serializable(table, fields) => MemberLine(table[i].descriptor, fields))
  }

  /** Element `i` of the list is the line of descriptor `i`. */
  lemma LineAt(table: seq<Descriptor>, fields: seq<Value>, i: nat)
    requires Serializable(table, fields) && i < |table|
    ensures |Lines(table, fields)| == |table|
    ensures Lines(table, fields)[i] == MemberLine(table[i].descriptor, fields)
  {
  }

  /** The strings of a list, one after the other. */
  function Concat(lines: seq<string>): string {
    if lines == [] then [] else lines[0] + Concat(lines[1..])
  }

  /** The text of a whole table: its member lines, in table order, with nothing around or between them. */
  function SerializedText(table: seq<Descriptor>, fields: seq<Value>): string
    requires Serializable(table, fields)
  {
    Concat(Lines(table, fields))
  }

  /** `serializeMember(os, descriptor, object)` */
  method SerializeMember(os: OutStream, d: MemberDescriptor, owner: array<Value>)
    requires Binds(d, owner[..])
    modifies os
    ensures os.text == old(os.text) + MemberLine(d, owner[..])
  {
    var value := GetMemberValue(d, owner);
    ghost var before := os.text;
    var name, text := CStr(d.name), ValueText(value);
    os.Write(name);
    os.Write(": ");
    os.Write(text);
    os.Write("\n");
    assert os.text == before + (name + ": " + text + "\n");
  }

  /** `serialize(os, object)`: one `serializeMember` per descriptor, in table order. */
  method Serialize(os: OutStream, table: seq<Descriptor>, owner: array<Value>)
    requires Serializable(table, owner[..])
    modifies os
    ensures os.text == old(os.text) + SerializedText(table, owner[..])
  {
    ghost var fields := owner[..];
    ghost var lines := Lines(table, fields);
    ghost var start := os.text;
    for i := 0 to |table|
      invariant owner[..] == fields
      invariant os.text == start + Concat(lines[..i])
    {
      ghost var done := os.text;
      var d := table[i].descriptor;
      assert Binds(d, fields);
      SerializeMember(os, d, owner);
      LineAt(table, fields, i);
      WriteLine(start, lines, i, done, os.text);
    }
    TakeAll(lines);
  }

  /** Appending line `i` to the text of the first `i` lines gives the text of the first `i + 1`. */
  lemma WriteLine(start: string, lines: seq<string>, i: nat, done: string, text: string)
    requires i < |lines| && done == start + Concat(lines[..i]) && text == done + lines[i]
    ensures text == start + Concat(lines[..i + 1])
  {
    ConcatOneMore(lines, i);
  }

  /** Serializing an object twice, unchanged in between, writes the same text twice. */
  method SerializeTwice(os: OutStream, table: seq<Descriptor>, owner: array<Value>)
    requires Serializable(table, owner[..])
    modifies os
    ensures os.text == old(os.text) + SerializedText(table, owner[..]) + SerializedText(table, owner[..])
  {
    Serialize(os, table, owner);
    Serialize(os, table, owner);
  }

  /** Concatenation distributes over appending lists of strings. */
  lemma {:induction false} ConcatAppend(a: seq<string>, b: seq<string>)
    ensures Concat(a + b) == Concat(a) + Concat(b)
  {
    if a == [] {
      assert a + b == b;
    } else {
      TailOfAppend(a, b);
      ConcatAppend(a[1..], b);
    }
  }

  lemma ConcatOneMore(lines: seq<string>, i: nat)
    requires i < |lines|
    ensures Concat(lines[..i + 1]) == Concat(lines[..i]) + lines[i]
  {
    TakeOneMore(lines, i);
    ConcatAppend(lines[..i], [lines[i]]);
    assert Concat([lines[i]]) == lines[i] + Concat([]);
  }

  /** The text of a concatenated table is the concatenation of the texts. */
  lemma SerializedTextAppend(a: seq<Descriptor>, b: seq<Descriptor>, fields: seq<Value>)
    requires Serializable(a, fields) && Serializable(b, fields)
    ensures Serializable(a + b, fields)
    ensures SerializedText(a + b, fields) == SerializedText(a, fields) + SerializedText(b, fields)
  {
    forall i | 0 <= i < |a + b|
      ensures (a + b)[i].Member? && Binds((a + b)[i].descriptor, fields)
    {
      if i < |a| { assert (a + b)[i] == a[i]; } else { assert (a + b)[i] == b[i - |a|]; }
    }
    assert Lines(a + b, fields) == Lines(a, fields) + Lines(b, fields);
    ConcatAppend(Lines(a, fields), Lines(b, fields));
  }

  lemma TakeOneMore<T>(s: seq<T>, i: nat)
    requires i < |s|
    ensures s[..i + 1] == s[..i] + [s[i]]
  {
  }

  lemma TakeAll<T>(s: seq<T>)
    ensures s[..|s|] == s
  {
  }

  lemma TailOfAppend<T>(a: seq<T>, b: seq<T>)
    requires a != []
    ensures (a + b)[0] == a[0] && (a + b)[1..] == a[1..] + b
  {
  }

  /** There is no `serializeMember` overload for a function descriptor: a table holding one is not serializable. */
  lemma FunctionDescriptorNotSerializable(table: seq<Descriptor>, fields: seq<Value>, i: nat)
    requires i < |table| && table[i].MemberFunction?
    ensures !Serializable(table, fields)
  {
  }

  /** An empty table writes nothing. */
  lemma EmptyTableWritesNothing(fields: seq<Value>)
    ensures SerializedText([], fields) == []
  {
  }

  /** The text depends only on the fields the table's descriptors bind. */
  lemma SerializedTextReadsBoundFields(table: seq<Descriptor>, f: seq<Value>, g: seq<Value>)
    requires Serializable(table, f) && Serializable(table, g)
    requires forall i :: 0 <= i < |table| ==> Get(table[i].descriptor, f) == Get(table[i].descriptor, g)
    ensures SerializedText(table, f) == SerializedText(table, g)
  {
    assert Lines(table, f) == Lines(table, g);
  }

  /** Setting a field that no descriptor of the table binds leaves the text as it was. */
  lemma SetUnboundKeepsText(table: seq<Descriptor>, d: MemberDescriptor, fields: seq<Value>, value: Value)
    requires Serializable(table, fields) && Binds(d, fields) && value.KindOf() == d.kind
    requires forall i :: 0 <= i < |table| ==> table[i].descriptor.member != d.member
    ensures Serializable(table, Set(d, fields, value))
    ensures SerializedText(table, Set(d, fields, value)) == SerializedText(table, fields)
  {
    var g := Set(d, fields, value);
    forall i | 0 <= i < |table|
      ensures Binds(table[i].descriptor, g)
      ensures Get(table[i].descriptor, fields) == Get(table[i].descriptor, g)
    {
      SetKeepsBindings(d, table[i].descriptor, fields, value);
    }
    SerializedTextReadsBoundFields(table, fields, g);
  }

  /** The field values and names contain no newline character. */
  predicate NoNewlines(table: seq<Descriptor>, fields: seq<Value>)
    requires Serializable(table, fields)
  {
    forall i :: 0 <= i < |table| ==>
      '\n' !in table[i].descriptor.name && '\n' !in ValueText(Get(table[i].descriptor, fields))
  }

  lemma MemberLineIsOneLine(d: MemberDescriptor, fields: seq<Value>)
    requires d.member < |fields|
    requires '\n' !in d.name && '\n' !in ValueText(Get(d, fields))
    ensures multiset(MemberLine(d, fields))['\n'] == 1
  {
    var n, v := CStr(d.name), ValueText(Get(d, fields));
    CStrKeepsOut(d.name, '\n');
    assert MemberLine(d, fields) == n + ": " + v + "\n";
  }

  /** A list of strings each holding one `c` concatenates to a string holding one `c` per element. */
  lemma {:induction false} ConcatCount(lines: seq<string>, c: char)
    requires forall i :: 0 <= i < |lines| ==> multiset(lines[i])[c] == 1
    ensures multiset(Concat(lines))[c] == |lines|
  {
    if lines != [] {
      ConcatCount(lines[1..], c);
    }
  }

  /** Without newlines in names and values, the text has exactly one line per descriptor. */
  lemma OneLinePerDescriptor(table: seq<Descriptor>, fields: seq<Value>)
    requires Serializable(table, fields) && NoNewlines(table, fields)
    ensures multiset(SerializedText(table, fields))['\n'] == |table|
  {
    var lines := Lines(table, fields);
    forall i | 0 <= i < |lines| ensures multiset(lines[i])['\n'] == 1 {
      MemberLineIsOneLine(table[i].descriptor, fields);
    }
    ConcatCount(lines, '\n');
  }
}
