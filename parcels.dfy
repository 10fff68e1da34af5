/**
 * An abstract Android Parcel: a sequence of tagged values written one after
 * the other, and a read cursor that walks over them.  The byte layout of the
 * real Parcel is replaced by the tags, so a read of the wrong kind of value,
 * or a read past the end, is reported instead of yielding garbage.
 */
module Parcels {
  import opened Options

  /** Java's 32-bit `int`. */
  newtype int32 = x: int | -0x8000_0000 <= x < 0x8000_0000

  const INT32_MAX: int := 0x7fff_ffff

  /** One value written by `writeString` or `writeInt`. */
  datatype Value = Str(s: string) | Int(n: int32)

  class Parcel {
    /** Everything written so far, in order. */
    var values: seq<Value>
    /** Index of the next value a read returns. */
    var pos: nat

    /** An empty parcel, as handed to `writeToParcel`. */
    constructor ()
      ensures values == [] && pos == 0
    {
      values := [];
      pos := 0;
    }

    /** A parcel holding previously written values, positioned at its start for reading. */
    constructor FromValues(vs: seq<Value>)
      ensures values == vs && pos == 0
    {
      values := vs;
      pos := 0;
    }

    method WriteString(s: string)
      modifies this`values
      ensures values == old(values) + [Str(s)]
    {
      values := values + [Str(s)];
    }

    method WriteInt(n: int32)
      modifies this`values
      ensures values == old(values) + [Int(n)]
    {
      values := values + [Int(n)];
    }

    /** Reads a string at the cursor and advances past it; reads nothing if none is there. */
    method ReadString() returns (r: Option<string>)
      modifies this`pos
      ensures r.Some? <==> old(pos) < |values| && values[old(pos)].Str?
      ensures r.Some? ==> r.value == values[old(pos)].s && pos == old(pos) + 1
      ensures r.None? ==> pos == old(pos)
    {
      if pos < |values| && values[pos].Str? {
        r := Some(values[pos].s);
        pos := pos + 1;
      } else {
        r := None;
      }
    }

    /** Reads an int at the cursor and advances past it; reads nothing if none is there. */
    method ReadInt() returns (r: Option<int32>)
      modifies this`pos
      ensures r.Some? <==> old(pos) < |values| && values[old(pos)].Int?
      ensures r.Some? ==> r.value == values[old(pos)].n && pos == old(pos) + 1
      ensures r.None? ==> pos == old(pos)
    {
      if pos < |values| && values[pos].Int? {
        r := Some(values[pos].n);
        pos := pos + 1;
      } else {
        r := None;
      }
    }
  }
}
