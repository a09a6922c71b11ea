# Serialization: a model of the runtime core

The library is a compile-time reflection and serialization library. A class
lists its members once, as `(member pointer, name)` pairs and
`(member function pointer, name, argument names)` triples. The library turns
that list into a table of descriptors. Serializers walk the table to write an
object to a `std::ostream`. This project models the part of it that does
something at run time, and proves what that code promises:

- `basic_const_string` (module `ConstString`). A fixed-length character array,
  modelled as a class over an `array<char>` of length `Size`. It covers the
  constructors, `size`, `begin`/`end`, `operator[]` for reading and writing,
  `operator<<`, `operator+` and `std::tuple_size`.
- The descriptor builder (module `Descriptors`).
  - `Resolve` models overload resolution of the four declared `make`
    overloads over the flat argument list. Its result is `None` when no
    declared overload matches.
  - `Make` models the recursive `make`, and `MakeClassDescriptor` models
    `makeClassDescriptor`.
- `MemberDescriptor` (module `Members`). A member pointer is a field index
  together with the member's type. The owner object is an `array` of field
  values. `GetMemberValue` and `SetMemberValue` read and write one field of
  it.
- The generic serializer (module `Serializer`). `Serialize` walks the table in
  order and writes `name: value` and a newline for each data member. It is
  proved equal to a pure fold, `SerializedText`.
- The JSON format hooks (module `JsonSerializer`). Each hook is one token
  function plus one append to the stream. Next to each token is a reader that
  gets the name and value back out of it.
- The stream itself (module `Stream`).
  - `OutStream` is an append-only `text` buffer.
  - `CStr` is what streaming a `const char*` writes: the characters before the
    first NUL.
  - `IntText` is the decimal text of an `int`, and `ReadInt` is its inverse.

Where the files disagree with each other, the model follows the code that
uses the descriptors at run time:

- **How a member descriptor is built.** MemberDescriptor.h makes the member
  pointer a template parameter and gives the class a one-argument constructor.
  Descriptor.cpp and Serializer.cpp instead build and use it from a
  `(member, name)` pair. The model uses the pair, and gives the descriptor the
  `name` that `getName()` in Serializer.cpp reads.
- **What the plain serializer writes.** `JSONSerializer` derives from
  `Serializer` and overrides format hooks, but Serializer.cpp calls none of
  them: it writes `name: value` lines.
  - Because it streams a `bool` with default flags, it writes `1` or `0`.
  - The JSON hooks, in contrast, write `true` or `false`.
  - Nothing in SerializerJSON.h drives the hooks through a table.
- **Which builder overloads exist.** Descriptor.cpp defines only the two
  data-member `make` overloads. `makeClassDescriptor` and the two
  function-entry overloads are declared in Descriptor.h and never defined.
  The builder follows the declarations: it gives those overloads the meaning
  their signatures state.

## Model

| member | source | states |
|---|---|---|
| Stream.OutStream.Write | Serializer.cpp:44 | `os << s` appends `s`; what was written before is kept as a prefix |
| Stream.CStr | Serializer.cpp:44 | no contract of its own: the characters of a `const char*` before the first NUL; its properties are the three lemmas below |
| Stream.IntText | Serializer.cpp:44 | no contract of its own: the default-flag decimal text of an int; IntTextRoundTrip, IntTextInjective and IntTextPlain state what it is |
| Stream.CStrIsNulFreePrefix | Serializer.cpp:44 | a `const char*` writes a NUL-free prefix of its array, which stops at the first NUL |
| Stream.CStrKeepsOut | SerializerJSON.h:56 | a character absent from a name is absent from what streaming the name writes |
| Stream.CStrWithoutNul | SerializerJSON.h:71 | a NUL-free string is written in full |
| Stream.NatTextRoundTrip | Serializer.cpp:44 | the decimal digits of a natural number read back as that number |
| Stream.IntTextRoundTrip | Serializer.cpp:44 | `os << int` writes text from which `ReadInt` recovers exactly that int |
| Stream.IntTextInjective | Serializer.cpp:44 | different ints are written as different texts |
| Stream.IntTextPlain | SerializerJSON.h:54-57 | an int is written as bare digits, with a `-` only at the front of a negative one, and no quote |
| Members.Get | MemberDescriptor.cpp:32 | no contract of its own: `object.*member`; GetAfterSet and SetLeavesOtherMembers relate it to Set |
| Members.Set | MemberDescriptor.cpp:35-39 | the object after a set has the same number of fields |
| Members.GetMemberValue | MemberDescriptor.cpp:29-33 | returns the current value of the bound field, which has the member's type, and changes nothing |
| Members.SetMemberValue | MemberDescriptor.cpp:35-39 | the bound field holds the new value and every other field of the owner is as before |
| Members.GetAfterSet | MemberDescriptor.cpp:29-39 | after `setMemberValue(o, v)`, `getMemberValue(o)` is `v` |
| Members.SetLeavesOtherMembers | MemberDescriptor.cpp:35-39 | a set leaves the field of every other member pointer unchanged |
| Members.SetOwnValue | MemberDescriptor.cpp:29-39 | writing back the value just read leaves the object unchanged |
| Members.SetTwice | MemberDescriptor.cpp:35-39 | two successive sets through one descriptor equal the last one alone |
| Members.SetKeepsBindings | MemberDescriptor.cpp:35-39 | setting a value of the member's type keeps every descriptor bound to a field of its type |
| Descriptors.Resolve | Descriptor.h:51-70 | no contract of its own: which declared `make` overload each group of arguments selects, left to right; ResolveExactly states which lists it accepts |
| Descriptors.Describe | Descriptor.cpp:42 | no contract of its own: `MemberDescriptor(member, name)` for a data entry, the declared function descriptor for a function entry; MakeSinglePair states it for one pair |
| Descriptors.Make | Descriptor.cpp:39-64 | the table built from a non-empty entry list has one descriptor per entry, the i-th built from the i-th entry |
| Descriptors.MakeSinglePair | Descriptor.cpp:39-43 | one `(member, name)` pair yields a one-element table holding a member descriptor with exactly that member and name |
| Descriptors.MakeAppend | Descriptor.cpp:60-64 | the table of a concatenated entry list is the concatenation of the two tables |
| Descriptors.MakeArities | Descriptor.h:59-70 | function entries become function descriptors, and each has one argument name per parameter |
| Descriptors.MakeClassDescriptor | Descriptor.h:45-49 | the class descriptor carries the display name given first, and the table built from the flat list that follows it, in order |
| Descriptors.FlattenLength | Descriptor.h:51-70 | a data entry takes two arguments and a function entry three |
| Descriptors.ResolveFlatten | Descriptor.h:51-70 | any non-empty well-formed entry list, written out, resolves to exactly that list, consumed left to right |
| Descriptors.ResolveSound | Descriptor.h:51-70 | whatever resolves is a non-empty well-formed entry list whose written-out form is the argument list |
| Descriptors.ResolveExactly | Descriptor.h:51-70 | a list resolves to some entries if and only if it is their non-empty, well-formed written-out form |
| Descriptors.ArityMismatchRejected | Descriptor.h:59-70 | a function entry whose argument-name array does not have one name per parameter matches no overload, whatever follows it |
| Descriptors.FunctionPairRejected | Descriptor.h:51-57 | a member function pointer followed by a name and no argument-name array is not taken for a data member, whatever follows |
| Serializer.ValueText | Serializer.cpp:44 | no contract of its own: what `os << value` writes for each member type, a bool as `1` or `0` |
| Serializer.MemberLine | Serializer.cpp:44 | no contract of its own: name, `": "`, value and newline; MemberLineIsOneLine states its shape |
| Serializer.SerializedText | Serializer.cpp:29-31 | no contract of its own: the member lines in table order; Serialize is proved to write it, and the lemmas below state its properties |
| Serializer.SerializeMember | Serializer.cpp:38-45 | appends exactly the name, `": "`, the member's value and a newline |
| Serializer.Serialize | Serializer.cpp:26-32 | appends exactly the concatenation of the member lines in table order, with nothing before, between or after them |
| Serializer.SerializeTwice | Serializer.cpp:26-32 | serializing an unchanged object twice appends the same text twice |
| Serializer.SerializedTextAppend | Serializer.cpp:29-31 | the text of a concatenated table is the concatenation of the two texts |
| Serializer.FunctionDescriptorNotSerializable | Serializer.cpp:38-45 | a table that holds a function descriptor has no `serializeMember` overload to call |
| Serializer.EmptyTableWritesNothing | Serializer.cpp:29-31 | an empty descriptor table appends nothing |
| Serializer.SerializedTextReadsBoundFields | Serializer.cpp:27 | the text depends only on the fields the descriptors bind |
| Serializer.SetUnboundKeepsText | Serializer.cpp:26-32 | setting a field that no descriptor binds leaves the text unchanged |
| Serializer.MemberLineIsOneLine | Serializer.cpp:44 | with no newline in name or value, each member line holds exactly one newline |
| Serializer.OneLinePerDescriptor | Serializer.cpp:26-45 | with no newlines in names or values, the text holds exactly one newline per descriptor |
| ConstString.CopyInto | const_string.hpp:64 | `std::copy` writes the source from the target position on and leaves every other element as it was |
| ConstString.BasicConstString.Copy | const_string.hpp:54-58 | copy and move construction give the same size and the same character at every index |
| ConstString.BasicConstString.FromShorter | const_string.hpp:60-65 | a shorter string's characters become the first ones |
| ConstString.BasicConstString.FromRange | const_string.hpp:67-72 | a range's elements become the first ones |
| ConstString.BasicConstString.FromCArray | const_string.hpp:74-78 | exactly `Size` characters are copied from the front of the C array |
| ConstString.BasicConstString.Length | const_string.hpp:46-49 | `size()` is the length of the array, whatever its contents |
| ConstString.BasicConstString.End | const_string.hpp:82-90 | iteration runs from `begin()` at position 0 to one past the last element, so it covers `size()` elements |
| ConstString.BasicConstString.Get | const_string.hpp:92-95 | `operator[](i)` reads element `i` |
| ConstString.BasicConstString.Set | const_string.hpp:92-95 | writing through `operator[](i)` changes element `i` and no other |
| ConstString.BasicConstString.WriteTo | const_string.hpp:99-107 | `operator<<` appends all `Size` characters in index order, NULs included, and only appends |
| ConstString.TupleSize | const_string.hpp:133-138 | `std::tuple_size` is the number of characters |
| ConstString.Plus | const_string.hpp:123-131 | a fresh string of `size_first + size_second` characters, `first` before `second`, with neither operand changed |
| ConstString.FromLiteral | const_string.hpp:117-118 | a string literal gives a string one longer than its text, ending in its NUL |
| ConstString.DudeHasSizeSix | test.cpp:36 | `const_string{"Dude!"}` has six characters, the last one NUL |
| ConstString.HeyPlusDude | test.cpp:52 | `s2 + s3` is the ten characters `Hey Dude!` and a NUL |
| JsonSerializer.Key | SerializerJSON.h:56 | no contract of its own: `"`, the streamed name and `":`; KeyRoundTrip reads the name back |
| JsonSerializer.IntMember | SerializerJSON.h:54-57 | no contract of its own: the int member token; IntMemberReadsBack states its content |
| JsonSerializer.CharMember | SerializerJSON.h:59-62 | no contract of its own: the char member token; CharMemberReadsBack states its content |
| JsonSerializer.BoolMember | SerializerJSON.h:64-67 | no contract of its own: the bool member token; BoolMemberReadsBack states its content |
| JsonSerializer.StringMember | SerializerJSON.h:69-72 | no contract of its own: the string member token; StringMemberReadsBack and StringMemberNotEscaped state its content |
| JsonSerializer.InnerClassName | SerializerJSON.h:79-82 | no contract of its own: the key alone; InnerClassNameReadsBack states it |
| JsonSerializer.TypedMember | SerializerJSON.h:84-102 | no contract of its own: the key and a quoted type tag; TypedMemberReadsBack states its content |
| JsonSerializer.SerializeObjectStart | SerializerJSON.h:44-47 | appends exactly `{` |
| JsonSerializer.SerializeObjectEnd | SerializerJSON.h:49-52 | appends exactly `}` |
| JsonSerializer.SerializeIntMember | SerializerJSON.h:54-57 | appends `"`, the name, `":` and the value's decimal text |
| JsonSerializer.SerializeCharMember | SerializerJSON.h:59-62 | appends `"`, the name, `":` and the bare character |
| JsonSerializer.SerializeBoolMember | SerializerJSON.h:64-67 | appends `"`, the name, `":` and `true` or `false` |
| JsonSerializer.SerializeStringMember | SerializerJSON.h:69-72 | appends `"`, the name, `":"`, the value and `"` |
| JsonSerializer.SerializeMemberSeparator | SerializerJSON.h:74-77 | appends exactly `,` |
| JsonSerializer.SerializeDescriptorInnerClassName | SerializerJSON.h:79-82 | appends `"`, the name and `":`, with nothing after it |
| JsonSerializer.SerializeDescriptorChar | SerializerJSON.h:84-87 | appends `"name":"CHAR"` |
| JsonSerializer.SerializeDescriptorInt | SerializerJSON.h:89-92 | appends `"name":"INT"` |
| JsonSerializer.SerializeDescriptorString | SerializerJSON.h:94-97 | appends `"name":"STRING"` |
| JsonSerializer.SerializeDescriptorBool | SerializerJSON.h:99-102 | appends `"name":"BOOLEAN"` |
| JsonSerializer.ReadQuotedRoundTrip | SerializerJSON.h:69-72 | text without a quote, followed by a quote, reads back up to that quote |
| JsonSerializer.KeyRoundTrip | SerializerJSON.h:56 | the name of a `"name":` key reads back from the front of the token, whatever follows it |
| JsonSerializer.IntMemberReadsBack | SerializerJSON.h:54-57 | an int member carries the name and, unquoted, text that reads back as the value |
| JsonSerializer.CharMemberReadsBack | SerializerJSON.h:59-62 | a char member carries the name and then the single bare character |
| JsonSerializer.BoolMemberReadsBack | SerializerJSON.h:64-67 | a bool member carries the word `true` or `false` that reads back as the value, and never a number |
| JsonSerializer.StringMemberReadsBack | SerializerJSON.h:69-72 | a string member carries the name and the value between quotes, exactly as given |
| JsonSerializer.StringMemberNotEscaped | SerializerJSON.h:69-72 | for every NUL-free value holding a quote, the quote is written bare, and reading the quoted value back stops at it instead of at the closing quote |
| JsonSerializer.InnerClassNameReadsBack | SerializerJSON.h:79-82 | the inner-class-name token is only the key, so what follows it is untouched |
| JsonSerializer.TypedMemberReadsBack | SerializerJSON.h:84-102 | a schema member carries the name and a quoted tag that reads back as its type |

## Left out

- main.cpp and test.cpp are harnesses that print to `std::cout`. The copy of
  `basic_const_string` inside main.cpp is divergent; const_string.hpp is the
  version modelled. The two test.cpp lines above are kept only as concrete
  examples.
- descriptor.hpp and the reflection half of main.cpp are type-level only:
  concepts, `static_assert` and `declval`. They have no run-time behaviour.
- MemberFunctionDescriptor's `call` forwards to an arbitrary member function.
  It is not modelled, and function entries are data only: member index, name,
  argument names and arity.
- ClassDescriptor.h/.cpp are a record of a name and a tuple, and their
  constructor signatures disagree. The record is the datatype
  `Descriptors.ClassDescriptor`.
- Serializer.h is a stub that does not compile and has no behaviour. Nothing
  in the source drives the JSON hooks from a descriptor table, so no JSON
  traversal is modelled.
- The whole stream is modelled as its text. I/O, flushing by `std::endl`,
  stream state and formatting flags other than the defaults are not modelled.
- The function-entry `make` overloads and `makeClassDescriptor` are declared
  in Descriptor.h but have no definition. Descriptor.cpp's two definitions
  also differ from their declarations: they drop the `enable_if_t` parameter
  and take the remaining arguments by value. As written, a
  `makeClassDescriptor` call or a list holding a function entry would not
  build. The model gives them the meaning their declarations state instead.
- Overload resolution, `enable_if` and the `requires` clauses are compile-time
  checks. They are modelled as `Resolve` returning `None`, and as
  preconditions of the builder and the serializer. They are not run-time error
  paths.
- Member types are limited to `int`, `char`, `bool` and `const char*`: these
  are the types the hooks handle. `char_type` is fixed to `char`.
- A C++ `char` is an 8-bit byte that may be signed. A Dafny `char` is a
  Unicode character. No property proved here depends on the difference.
- Move construction is modelled as a copy. What is left in the moved-from
  array is not modelled.
- ConstString.BasicConstString.FromShorter: states only the first `other_size`
  characters. The source does not initialise the rest of the array, so it is
  left unspecified.
- ConstString.BasicConstString.FromRange: states only the first `|range|`
  characters, for the same reason.
- ConstString.BasicConstString.FromRange and FromCArray require the source to
  fit, or to be long enough. The source does not check this, and a violation
  is undefined behaviour.
- ConstString.Plus: the model defines the result for an empty `second` as a
  copy of `first`. In the source (const_string.hpp:129) that case takes
  `&new_string[size_first]` with an index equal to the size, which is
  undefined behaviour.
- Only non-const member functions are modelled as function entries. The
  function-entry overloads (Descriptor.h:59-70) take
  `ReturnT (SerializeableT::*)(ArgTs...)`, so a pointer to a `const` member
  function matches neither them nor the data-member overloads.
- ConstString.BasicConstString.Get and Set require `index < Size`.
  `operator[]` does no bounds check.
- Stream.CStrIsNulFreePrefix and the JSON readers treat names and values as
  the character arrays behind the `const char*`, up to the first NUL. Pointer
  identity and lifetime are not modelled.
