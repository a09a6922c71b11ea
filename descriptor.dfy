/**
 * The descriptor builder: `makeClassDescriptor(name, args...)` takes a flat
 * argument list of `(member pointer, name)` pairs and `(member function
 * pointer, name, argument names)` triples, picks the `make` overload for each
 * group from the front of the list, and builds the ordered descriptor table.
 *
 * Overload resolution happens at compile time in the source: `Resolve` below
 * says which argument lists the declared overloads accept (`None` means no
 * overload matches), and the builder itself requires a list that they do.
 * Only the two data-member overloads of `make` have definitions; the
 * function-entry overloads and `makeClassDescriptor` are modelled after their
 * declarations.
 */
module Descriptors {
  import opened Wrappers
  import opened Members

  /** What a pointer-to-member points at. */
  datatype Target =
    | Object(kind: Kind)       // a data member of an object type
    | Function(arity: nat)     // a non-const member function taking `arity` parameters

  /** One argument of the flat list. */
  datatype Arg =
    | MemberPointer(member: nat, target: Target)
    | Name(text: string)
    | ArgumentNames(names: seq<string>)

  /** One group of arguments, as one `make` overload consumes it. */
  datatype Entry =
    | Field(member: nat, kind: Kind, name: string)
    | Func(member: nat, name: string, argNames: seq<string>, arity: nat)

  /** What the builder produces for one entry. */
  datatype Descriptor =
    | Member(descriptor: MemberDescriptor)
    | MemberFunction(member: nat, name: string, argumentNames: seq<string>, arity: nat)

  /** A class display name with its ordered descriptor table. */
  datatype ClassDescriptor = ClassDescriptor(name: string, descriptors: seq<Descriptor>)

  /**
   * The argument-name array of a function entry has type
   * `std::array<const char* const, sizeof...(ArgTs)>`: one name per parameter.
   */
  predicate ArityMatches(e: Entry) {
    e.Func? ==> |e.argNames| == e.arity
  }

  predicate WellFormed(entries: seq<Entry>) {
    forall i :: 0 <= i < |entries| ==> ArityMatches(entries[i])
  }

  /** The arguments one entry is written as at the call site. */
  function ArgsOf(e: Entry): seq<Arg> {
    match e
    case Field(m, k, n) => [MemberPointer(m, Object(k)), Name(n)]
    case Func(m, n, names, a) => [MemberPointer(m, Function(a)), Name(n), ArgumentNames(names)]
  }

  /** The flat argument list that spells out a list of entries. */
  function Flatten(entries: seq<Entry>): seq<Arg> {
    if entries == [] then [] else ArgsOf(entries[0]) + Flatten(entries[1..])
  }

  /** How many of the entries are function entries. */
  function FunctionCount(entries: seq<Entry>): nat {
    if entries == [] then 0 else (if entries[0].Func? then 1 else 0) + FunctionCount(entries[1..])
  }

  /**
   * Overload resolution for `make`, left to right. A pointer to a data member
   * of object type followed by a name selects a data-member overload (the
   * `is_object_v` guard keeps function pointers out of it); a non-const member
   * function pointer, a name and an array of exactly as many names as the function has
   * parameters select a function overload. With nothing left the "last entry"
   * form applies, otherwise the "more follow" form recurses on the rest. There
   * is no overload for an empty list.
   */
  function Resolve(args: seq<Arg>): Option<seq<Entry>>
    decreases |args|
  {
    if |args| < 2 || !args[0].MemberPointer? || !args[1].Name? then None
    else
      var m, n := args[0].member, args[1].text;
      match args[0].target
      case Object(k) =>
        if |args| == 2 then Some([Field(m, k, n)])
        else (
          match Resolve(args[2..])
          case None => None
          case Some(rest) => Some([Field(m, k, n)] + rest))
      case Function(a) =>
        if |args| < 3 || !args[2].ArgumentNames? || |args[2].names| != a then None
        else if |args| == 3 then Some([Func(m, n, args[2].names, a)])
        else (
          match Resolve(args[3..])
          case None => None
          case Some(rest) => Some([Func(m, n, args[2].names, a)] + rest))
  }

  /** `MemberDescriptor(member, name)` or the function descriptor for one entry. */
  function Describe(e: Entry): Descriptor
    requires ArityMatches(e)
  {
    match e
    case Field(m, k, n) => Member(MemberDescriptor(m, k, n))
    case Func(m, n, names, a) => MemberFunction(m, n, names, a)
  }

  /**
   * `make(args...)`: a single entry yields a one-element table; otherwise the
   * table for the first entry concatenated with `make` of the rest.
   */
  function Make(entries: seq<Entry>): (r: seq<Descriptor>)
    requires |entries| >= 1 && WellFormed(entries)
    ensures |r| == |entries|
    ensures forall i :: 0 <= i < |entries| ==> r[i] == Describe(entries[i])
  {
    if |entries| == 1 then [Describe(entries[0])]
    else [Describe(entries[0])] + Make(entries[1..])
  }

  /** `makeClassDescriptor(name, args...)`: the display name first, then the flat list. */
  function MakeClassDescriptor(name: string, args: seq<Arg>): (c: ClassDescriptor)
    requires Resolve(args).Some?
    ensures c.name == name
    ensures |Resolve(args).value| >= 1 && WellFormed(Resolve(args).value)
    ensures |c.descriptors| == |Resolve(args).value|
    ensures forall i :: 0 <= i < |c.descriptors| ==> c.descriptors[i] == Describe(Resolve(args).value[i])
  {
    ResolveSound(args);
    ClassDescriptor(name, Make(Resolve(args).value))
  }

  /** A single `(member, name)` pair yields one member descriptor holding exactly that member and name. */
  lemma MakeSinglePair(m: nat, k: Kind, n: string)
    ensures Make([Field(m, k, n)]) == [Member(MemberDescriptor(m, k, n))]
    ensures Make([Field(m, k, n)])[0].descriptor.name == n
  {
  }

  /** Every function descriptor in a built table has one argument name per parameter. */
  lemma MakeArities(entries: seq<Entry>, i: nat)
    requires |entries| >= 1 && WellFormed(entries) && i < |entries|
    ensures Make(entries)[i].MemberFunction? <==> entries[i].Func?
    ensures Make(entries)[i].MemberFunction? ==> |Make(entries)[i].argumentNames| == Make(entries)[i].arity
  {
  }

  /** Building a concatenation of entry lists concatenates the two tables. */
  lemma MakeAppend(a: seq<Entry>, b: seq<Entry>)
    requires |a| >= 1 && |b| >= 1 && WellFormed(a) && WellFormed(b)
    ensures WellFormed(a + b)
    ensures Make(a + b) == Make(a) + Make(b)
  {
    assert forall i :: 0 <= i < |a + b| ==> (a + b)[i] == if i < |a| then a[i] else b[i - |a|];
  }

  /** A data entry is written as two arguments and a function entry as three. */
  lemma {:induction false} FlattenLength(entries: seq<Entry>)
    ensures |Flatten(entries)| == 2 * |entries| + FunctionCount(entries)
  {
    if entries != [] {
      FlattenLength(entries[1..]);
    }
  }

  /** Resolution consumes the written-out list of any non-empty well-formed entry list exactly. */
  lemma {:induction false} ResolveFlatten(entries: seq<Entry>)
    requires |entries| >= 1 && WellFormed(entries)
    ensures Resolve(Flatten(entries)) == Some(entries)
  {
    var e, rest := entries[0], entries[1..];
    var args := Flatten(entries);
    assert ArityMatches(e);
    assert args == ArgsOf(e) + Flatten(rest);
    if rest == [] {
      assert Flatten(rest) == [];
      assert args == ArgsOf(e);
      assert entries == [e];
    } else {
      assert WellFormed(rest) by {
        forall i | 0 <= i < |rest| ensures ArityMatches(rest[i]) {
          assert rest[i] == entries[i + 1];
        }
      }
      ResolveFlatten(rest);
      assert args[|ArgsOf(e)|..] == Flatten(rest);
      assert [e] + rest == entries;
    }
  }

  /** Whatever resolves is a non-empty well-formed entry list written out. */
  lemma {:induction false} ResolveSound(args: seq<Arg>)
    requires Resolve(args).Some?
    ensures |Resolve(args).value| >= 1 && WellFormed(Resolve(args).value)
    ensures Flatten(Resolve(args).value) == args
    decreases |args|
  {
    var es := Resolve(args).value;
    var k := if args[0].target.Object? then 2 else 3;
    var e := es[0];
    assert ArgsOf(e) == args[..k];
    if |args| == k {
      assert es == [e];
      assert Flatten(es[1..]) == [];
    } else {
      ResolveSound(args[k..]);
      assert es[1..] == Resolve(args[k..]).value;
      assert args == args[..k] + args[k..];
    }
  }

  /** The argument lists the declared overloads accept are exactly the written-out non-empty well-formed entry lists. */
  lemma ResolveExactly(args: seq<Arg>, entries: seq<Entry>)
    ensures Resolve(args) == Some(entries) <==> (|entries| >= 1 && WellFormed(entries) && Flatten(entries) == args)
  {
    if Resolve(args) == Some(entries) {
      ResolveSound(args);
    }
    if |entries| >= 1 && WellFormed(entries) && Flatten(entries) == args {
      ResolveFlatten(entries);
    }
  }

  /**
   * A function entry whose name array does not have one name per parameter
   * does not compile, whatever follows it.
   */
  lemma ArityMismatchRejected(m: nat, a: nat, n: string, names: seq<string>, rest: seq<Arg>)
    requires |names| != a
    ensures Resolve([MemberPointer(m, Function(a)), Name(n), ArgumentNames(names)] + rest) == None
  {
  }

  /**
   * A member function pointer followed by a name but no argument-name array
   * is not taken for a data member, whatever follows it.
   */
  lemma FunctionPairRejected(m: nat, a: nat, n: string, rest: seq<Arg>)
    requires rest == [] || !rest[0].ArgumentNames?
    ensures Resolve([MemberPointer(m, Function(a)), Name(n)] + rest) == None
  {
  }
}
