/**
 * `basic_const_string<Size, char>`: a string of exactly `Size` characters held
 * in a fixed array. NUL characters are ordinary elements: they count towards
 * the size and are streamed like any other character.
 */
module ConstString {
  import opened Stream

  /** `std::copy(src, dst + at)`: writes `src` into `dst` from index `at` on and leaves the rest alone. */
  method CopyInto(src: seq<char>, dst: array<char>, at: nat)
    requires at + |src| <= dst.Length
    modifies dst
    ensures dst[..] == old(dst[..at]) + src + old(dst[at + |src|..])
  {
    for k := 0 to |src|
      invariant forall j :: 0 <= j < at ==> dst[j] == old(dst[j])
      invariant forall j :: 0 <= j < k ==> dst[at + j] == src[j]
      invariant forall j :: at + k <= j < dst.Length ==> dst[j] == old(dst[j])
    {
      dst[at + k] := src[k];
    }
    assert dst[..] == old(dst[..at]) + src + old(dst[at + |src|..]);
  }

  class BasicConstString {
    /** The template length `Size`. */
    const Size: nat
    /** The member `std::array<char, Size> data`: the array is fixed, its elements are writable. */
    const data: array<char>

    ghost predicate Valid() {
      data.Length == Size
    }

    /** The characters, in index order. */
    function Contents(): seq<char>
      reads data
    {
      data[..]
    }

    /** Copy and move construction: the same characters as `other`. */
    constructor Copy(other: BasicConstString)
      requires other.Valid()
      ensures Valid() && fresh(data)
      ensures Size == other.Size && Contents() == other.Contents()
    {
      var a := new char[other.Size];
      CopyInto(other.data[..], a, 0);
      Size, data := other.Size, a;
    }

    /**
     * Construction from a string of `otherSize <= size` characters: they
     * become the first ones; the remaining elements are left unspecified.
     */
    constructor FromShorter(size: nat, other: BasicConstString)
      requires other.Valid() && other.Size <= size
      ensures Valid() && fresh(data) && Size == size
      ensures Contents()[..other.Size] == other.Contents()
    {
      var a := new char[size];
      CopyInto(other.data[..], a, 0);
      Size, data := size, a;
    }

    /**
     * Construction from a fixed-size range such as `std::array<char, N>`: its
     * elements become the first ones. No size check is written in the source;
     * a range longer than `size` would overrun the array, so it is required here.
     */
    constructor FromRange(size: nat, range: seq<char>)
      requires |range| <= size
      ensures Valid() && fresh(data) && Size == size
      ensures Contents()[..|range|] == range
    {
      var a := new char[size];
      CopyInto(range, a, 0);
      Size, data := size, a;
    }

    /**
     * Construction from a C array: `std::copy_n` copies exactly `size`
     * characters from its front, so the array must hold at least that many.
     */
    constructor FromCArray(size: nat, cArray: seq<char>)
      requires size <= |cArray|
      ensures Valid() && fresh(data) && Size == size
      ensures Contents() == cArray[..size]
    {
      var a := new char[size];
      CopyInto(cArray[..size], a, 0);
      Size, data := size, a;
    }

    /** `size()`: the template length, whatever the characters are. */
    function Length(): (n: nat)
      requires Valid()
      ensures n == data.Length
    {
      Size
    }

    /** `begin()`: the position of the first character. */
    function Begin(): nat {
      0
    }

    /** `end()`: the position one past the last character; `[Begin(), End())` covers the whole array. */
    function End(): (e: nat)
      requires Valid()
      ensures e == data.Length && e - Begin() == Length()
    {
      Size
    }

    /** `operator[](index)` used for reading. */
    method Get(index: nat) returns (c: char)
      requires Valid() && index < Size
      ensures c == Contents()[index]
    {
      c := data[index];
    }

    /** `operator[](index)` used for writing: element `index` changes and no other. */
    method Set(index: nat, c: char)
      requires Valid() && index < Size
      modifies data
      ensures Contents() == old(Contents())[index := c]
      ensures forall j :: 0 <= j < Size && j != index ==> data[j] == old(data[j])
    {
      data[index] := c;
    }

    /** `os << string`: every one of the `Size` characters in index order, NULs included. */
    method WriteTo(os: OutStream)
      requires Valid()
      modifies os
      ensures os.text == old(os.text) + Contents()
    {
      for i := 0 to Size
        invariant os.text == old(os.text) + data[..i]
      {
        os.Write([data[i]]);
        assert data[..i + 1] == data[..i] + [data[i]];
      }
      assert data[..Size] == data[..];
    }
  }

  /** `std::tuple_size<basic_const_string<Size, char>>`: the template length. */
  function TupleSize(s: BasicConstString): (n: nat)
    requires s.Valid()
    ensures n == |s.Contents()|
    reads s.data
  {
    s.Size
  }

  /**
   * `first + second`: a new string of `size_first + size_second` characters,
   * `first`'s at indices below `size_first` and `second`'s after them; the
   * operands are not modified.
   */
  method Plus(first: BasicConstString, second: BasicConstString) returns (r: BasicConstString)
    requires first.Valid() && second.Valid()
    ensures r.Valid() && fresh(r) && fresh(r.data)
    ensures r.Size == first.Size + second.Size
    ensures r.Contents()[..first.Size] == first.Contents()
    ensures r.Contents()[first.Size..] == second.Contents()
  {
    r := new BasicConstString.FromShorter(first.Size + second.Size, first);
    CopyInto(second.data[..], r.data, first.Size);
  }

  /** The character array of a string literal: its characters and the terminating NUL. */
  function Literal(s: string): seq<char> {
    s + ['\0']
  }

  /**
   * `basic_const_string s{"..."}`: the deduction guide takes the literal's
   * array length, NUL included, as the size, and the C-array constructor copies
   * the whole array.
   */
  method FromLiteral(s: string) returns (r: BasicConstString)
    ensures r.Valid() && r.Size == |s| + 1
    ensures r.Contents()[..|s|] == s && r.Contents()[|s|] == '\0'
  {
    var a := Literal(s);
    r := new BasicConstString.FromCArray(|a|, a);
  }

  /** `const_string s3{"Dude!"}` has six characters, the last one NUL. */
  method DudeHasSizeSix() returns (r: BasicConstString)
    ensures r.Valid() && r.Length() == 6 && r.Contents() == "Dude!\0"
  {
    r := FromLiteral("Dude!");
    assert r.Contents() == r.Contents()[..5] + [r.Contents()[5]];
  }

  /** `s2 + s3` with `s2` from the array `{'H','e','y',' '}` and `s3` from `"Dude!"`: ten characters. */
  method HeyPlusDude() returns (r: BasicConstString)
    ensures r.Valid() && r.Length() == 10 && r.Contents() == "Hey Dude!\0"
  {
    var s2 := new BasicConstString.FromCArray(4, ['H', 'e', 'y', ' ']);
    var s3 := DudeHasSizeSix();
    r := Plus(s2, s3);
    assert r.Contents() == r.Contents()[..4] + r.Contents()[4..];
  }
}
