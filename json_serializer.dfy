/**
 * The JSON format hooks of `JSONSerializer`: stateless emitters that each
 * append one token to the caller's stream. Names and string values are
 * `const char*` and are written as they are, without any escaping.
 */
module JsonSerializer {
  import opened Wrappers
  import opened Stream

  /** The type tags the schema hooks write. */
  datatype TypeTag = CharTag | IntTag | StringTag | BooleanTag

  function TagName(t: TypeTag): string {
    match t
    case CharTag => "CHAR"
    case IntTag => "INT"
    case StringTag => "STRING"
    case BooleanTag => "BOOLEAN"
  }

  function ObjectStart(): string { "{" }

  function ObjectEnd(): string { "}" }

  function MemberSeparator(): string { "," }

  /** `"name":` */
  function Key(name: string): string {
    "\"" + CStr(name) + "\":"
  }

  function IntMember(name: string, value: Int32): string {
    Key(name) + IntText(value as int)
  }

  function CharMember(name: string, value: char): string {
    Key(name) + [value]
  }

  function BoolMember(name: string, value: bool): string {
    Key(name) + (if value then "true" else "false")
  }

  function StringMember(name: string, value: string): string {
    Key(name) + "\"" + CStr(value) + "\""
  }

  function InnerClassName(name: string): string {
    Key(name)
  }

  function TypedMember(name: string, tag: TypeTag): string {
    Key(name) + "\"" + TagName(tag) + "\""
  }

  // The hooks. Each appends its token; what the stream held before is kept.

  method SerializeObjectStart(os: OutStream)
    modifies os
    ensures os.text == old(os.text) + "{"
  {
    os.Write(ObjectStart());
  }

  method SerializeObjectEnd(os: OutStream)
    modifies os
    ensures os.text == old(os.text) + "}"
  {
    os.Write(ObjectEnd());
  }

  method SerializeIntMember(os: OutStream, name: string, value: Int32)
    modifies os
    ensures os.text == old(os.text) + "\"" + CStr(name) + "\":" + IntText(value as int)
  {
    os.Write(IntMember(name, value));
  }

  method SerializeCharMember(os: OutStream, name: string, value: char)
    modifies os
    ensures os.text == old(os.text) + "\"" + CStr(name) + "\":" + [value]
  {
    os.Write(CharMember(name, value));
  }

  method SerializeBoolMember(os: OutStream, name: string, value: bool)
    modifies os
    ensures os.text == old(os.text) + "\"" + CStr(name) + "\":" + (if value then "true" else "false")
  {
    os.Write(BoolMember(name, value));
  }

  method SerializeStringMember(os: OutStream, name: string, value: string)
    modifies os
    ensures os.text == old(os.text) + "\"" + CStr(name) + "\":\"" + CStr(value) + "\""
  {
    os.Write(StringMember(name, value));
  }

  method SerializeMemberSeparator(os: OutStream)
    modifies os
    ensures os.text == old(os.text) + ","
  {
    os.Write(MemberSeparator());
  }

  method SerializeDescriptorInnerClassName(os: OutStream, name: string)
    modifies os
    ensures os.text == old(os.text) + "\"" + CStr(name) + "\":"
  {
    os.Write(InnerClassName(name));
  }

  method SerializeDescriptorChar(os: OutStream, name: string)
    modifies os
    ensures os.text == old(os.text) + "\"" + CStr(name) + "\":\"CHAR\""
  {
    os.Write(TypedMember(name, CharTag));
  }

  method SerializeDescriptorInt(os: OutStream, name: string)
    modifies os
    ensures os.text == old(os.text) + "\"" + CStr(name) + "\":\"INT\""
  {
    os.Write(TypedMember(name, IntTag));
  }

  method SerializeDescriptorString(os: OutStream, name: string)
    modifies os
    ensures os.text == old(os.text) + "\"" + CStr(name) + "\":\"STRING\""
  {
    os.Write(TypedMember(name, StringTag));
  }

  method SerializeDescriptorBool(os: OutStream, name: string)
    modifies os
    ensures os.text == old(os.text) + "\"" + CStr(name) + "\":\"BOOLEAN\""
  {
    os.Write(TypedMember(name, BooleanTag));
  }

  // Reading the tokens back: which name and which value a token carries.

  /** The text up to the first quote, and what follows that quote. */
  function ReadQuoted(s: string): Option<(string, string)> {
    if s == [] then None
    else if s[0] == '"' then Some(([], s[1..]))
    else
      match ReadQuoted(s[1..])
      case None => None
      case Some(p) => Some(([s[0]] + p.0, p.1))
  }

  /** Reads `"name":` off the front of `s`: the name and the text after the colon. */
  function ReadKey(s: string): Option<(string, string)> {
    if s == [] || s[0] != '"' then None
    else
      match ReadQuoted(s[1..])
      case None => None
      case Some(p) => if p.1 != [] && p.1[0] == ':' then Some((p.0, p.1[1..])) else None
  }

  function ReadBool(s: string): Option<bool> {
    if s == "true" then Some(true) else if s == "false" then Some(false) else None
  }

  /** Reads a quoted type tag. */
  function ReadTag(s: string): Option<TypeTag> {
    if s == "\"CHAR\"" then Some(CharTag)
    else if s == "\"INT\"" then Some(IntTag)
    else if s == "\"STRING\"" then Some(StringTag)
    else if s == "\"BOOLEAN\"" then Some(BooleanTag)
    else None
  }

  lemma {:induction false} ReadQuotedRoundTrip(t: string, rest: string)
    requires '"' !in t
    ensures ReadQuoted(t + "\"" + rest) == Some((t, rest))
  {
    if t == [] {
      assert t + "\"" + rest == "\"" + rest;
    } else {
      var s := t + "\"" + rest;
      ReadQuotedRoundTrip(t[1..], rest);
      assert s[0] == t[0] && t[0] != '"';
      assert s[1..] == t[1..] + "\"" + rest;
      assert [t[0]] + t[1..] == t;
    }
  }

  /** A name without a quote can be read back from the front of its key, whatever follows. */
  lemma KeyRoundTrip(name: string, rest: string)
    requires '"' !in name
    ensures ReadKey(Key(name) + rest) == Some((CStr(name), rest))
  {
    var n := CStr(name);
    CStrKeepsOut(name, '"');
    ReadQuotedRoundTrip(n, ":" + rest);
    assert (Key(name) + rest)[1..] == n + "\"" + (":" + rest);
  }

  /** An int member carries the name and, unquoted, the decimal text of the value. */
  lemma IntMemberReadsBack(name: string, value: Int32)
    requires '"' !in name
    ensures ReadKey(IntMember(name, value)).Some?
    ensures ReadKey(IntMember(name, value)).value.0 == CStr(name)
    ensures ReadInt(ReadKey(IntMember(name, value)).value.1) == Some(value as int)
  {
    KeyRoundTrip(name, IntText(value as int));
    IntTextRoundTrip(value as int);
  }

  /** A char member carries the name and then the bare character, unquoted. */
  lemma CharMemberReadsBack(name: string, value: char)
    requires '"' !in name
    ensures ReadKey(CharMember(name, value)) == Some((CStr(name), [value]))
  {
    KeyRoundTrip(name, [value]);
  }

  /** A bool member carries the literal word `true` or `false`, never a digit. */
  lemma BoolMemberReadsBack(name: string, value: bool)
    requires '"' !in name
    ensures ReadKey(BoolMember(name, value)).Some?
    ensures ReadKey(BoolMember(name, value)).value.0 == CStr(name)
    ensures ReadBool(ReadKey(BoolMember(name, value)).value.1) == Some(value)
    ensures ReadInt(ReadKey(BoolMember(name, value)).value.1) == None
  {
    KeyRoundTrip(name, if value then "true" else "false");
  }

  /** A string member carries the name and the value between quotes, exactly as given. */
  lemma StringMemberReadsBack(name: string, value: string)
    requires '"' !in name
    ensures ReadKey(StringMember(name, value)) == Some((CStr(name), "\"" + CStr(value) + "\""))
  {
    KeyRoundTrip(name, "\"" + CStr(value) + "\"");
    assert StringMember(name, value) == Key(name) + ("\"" + CStr(value) + "\"");
  }

  /**
   * Nothing is escaped: a quote inside a string value ends up bare in the
   * token, and reading the quoted value back stops at it.
   */
  lemma StringMemberNotEscaped(name: string, t: string, rest: string)
    requires '"' !in t && '\0' !in t + "\"" + rest
    ensures StringMember(name, t + "\"" + rest) == Key(name) + "\"" + t + "\"" + rest + "\""
    ensures ReadQuoted(StringMember(name, t + "\"" + rest)[|Key(name)| + 1..]) == Some((t, rest + "\""))
  {
    var v := t + "\"" + rest;
    CStrWithoutNul(v);
    var s := StringMember(name, v);
    assert s == Key(name) + "\"" + v + "\"";
    assert s[|Key(name)| + 1..] == t + "\"" + (rest + "\"");
    ReadQuotedRoundTrip(t, rest + "\"");
  }

  /** The inner-class-name hook writes the key and nothing after it. */
  lemma InnerClassNameReadsBack(name: string, rest: string)
    requires '"' !in name
    ensures ReadKey(InnerClassName(name) + rest) == Some((CStr(name), rest))
  {
    KeyRoundTrip(name, rest);
  }

  /** A schema member carries the name and the quoted tag, and the tag can be told back. */
  lemma TypedMemberReadsBack(name: string, tag: TypeTag)
    requires '"' !in name
    ensures ReadKey(TypedMember(name, tag)).Some?
    ensures ReadKey(TypedMember(name, tag)).value.0 == CStr(name)
    ensures ReadTag(ReadKey(TypedMember(name, tag)).value.1) == Some(tag)
  {
    KeyRoundTrip(name, "\"" + TagName(tag) + "\"");
    assert TypedMember(name, tag) == Key(name) + ("\"" + TagName(tag) + "\"");
    ReadTagName(tag);
  }

  /** Each quoted tag name reads back as its tag. */
  lemma ReadTagName(tag: TypeTag)
    ensures ReadTag("\"" + TagName(tag) + "\"") == Some(tag)
  {
    match tag
    case CharTag => assert "\"" + TagName(tag) + "\"" == "\"CHAR\"";
    case IntTag => assert "\"" + TagName(tag) + "\"" == "\"INT\"";
    case StringTag => assert "\"" + TagName(tag) + "\"" == "\"STRING\"";
    case BooleanTag => assert "\"" + TagName(tag) + "\"" == "\"BOOLEAN\"";
  }
}
