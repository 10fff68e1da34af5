/**
 * The saved-instance-state Bundle: a key/value map whose values are either an
 * opaque Parcelable or an ArrayList of Sports.  The list is held in its
 * parcelled form, as it is when the state outlives the process: a count
 * followed by the records, written and read through a Parcel.
 */
module Bundles {
  import opened Options
  import opened Parcels
  import opened Sports

  /** The layout manager's saved scroll position: an opaque Parcelable, carried and never inspected. */
  datatype ScrollState = ScrollState(token: int)

  /** A value stored under a key.  `ParcelableEntry(None)` is a key mapped to null. */
  datatype Entry = ParcelableEntry(state: Option<ScrollState>) | ListEntry(data: seq<Value>)

  /** A parcelled list: its size as a Java int, then each element's encoding. */
  function EncodeList(ss: seq<Sport>): (vs: seq<Value>)
    requires |ss| <= INT32_MAX
  {
    [Int(|ss| as int32)] + EncodeAll(ss)
  }

  /** Reads a parcelled list at `pos`: a negative size is read as null, as the framework does. */
  function DecodeList(vs: seq<Value>, pos: nat): (r: Option<seq<Sport>>)
    ensures r.Some? ==> pos < |vs| && vs[pos].Int? && |r.value| == vs[pos].n as int
  {
    if pos < |vs| && vs[pos].Int? && vs[pos].n >= 0 then
      match DecodeN(vs, pos + 1, vs[pos].n as nat)
      case Some((ss, _)) => Some(ss)
      case None => None
    else
      None
  }

  /** A parcelled list reads back as the same list, in the same order, wherever it sits. */
  lemma ListRoundTrip(prefix: seq<Value>, ss: seq<Sport>, rest: seq<Value>)
    requires |ss| <= INT32_MAX
    ensures DecodeList(prefix + EncodeList(ss) + rest, |prefix|) == Some(ss)
  {
    var vs := prefix + EncodeList(ss) + rest;
    assert vs[|prefix|] == Int(|ss| as int32);
    assert vs == (prefix + [Int(|ss| as int32)]) + EncodeAll(ss) + rest;
    DecodeAllEncodeAll(prefix + [Int(|ss| as int32)], ss, rest);
  }

  /** Once a record fails to decode, decoding more records cannot succeed. */
  lemma {:induction false} DecodeNStaysFailed(vs: seq<Value>, pos: nat, i: nat, n: nat)
    requires i <= n && DecodeN(vs, pos, i).None?
    ensures DecodeN(vs, pos, n).None?
  {
    if i < n {
      DecodeNStaysFailed(vs, pos, i, n - 1);
    }
  }

  /** Writes a list of Sports: its size, then each record by `writeToParcel`. */
  method WriteSportList(out: Parcel, ss: seq<Sport>)
    requires |ss| <= INT32_MAX
    modifies out`values
    ensures out.values == old(out.values) + EncodeList(ss)
  {
    out.WriteInt(|ss| as int32);
    var i := 0;
    while i < |ss|
      invariant 0 <= i <= |ss|
      invariant out.values == old(out.values) + [Int(|ss| as int32)] + EncodeAll(ss[..i])
    {
      WriteToParcel(ss[i], out, 0);
      assert ss[..i + 1][..i] == ss[..i];
      i := i + 1;
    }
    assert ss[..|ss|] == ss;
  }

  /** Reads a list of Sports at the cursor: its size, then each record by `createFromParcel`. */
  method ReadSportList(source: Parcel) returns (r: Option<seq<Sport>>)
    modifies source`pos
    ensures r == DecodeList(source.values, old(source.pos))
    ensures r.Some? ==> source.pos == old(source.pos) + 1 + 3 * |r.value|
  {
    var count := source.ReadInt();
    if count.None? || count.value < 0 {
      return None;
    }
    var n := count.value as nat;
    var start := source.pos;
    var done: seq<Sport> := [];
    var i := 0;
    while i < n
      invariant 0 <= i <= n
      invariant DecodeN(source.values, start, i) == Some((done, source.pos))
    {
      var s := CreateFromParcel(source);
      if s.None? {
        DecodeNStaysFailed(source.values, start, i + 1, n);
        return None;
      }
      done := done + [s.value];
      i := i + 1;
    }
    r := Some(done);
  }

  class Bundle {
    var entries: map<string, Entry>

    constructor ()
      ensures entries == map[]
    {
      entries := map[];
    }

    /** `putParcelable`: stores `state` (possibly null) under `key`, replacing what was there. */
    method PutParcelable(key: string, state: Option<ScrollState>)
      modifies this
      ensures entries == old(entries)[key := ParcelableEntry(state)]
    {
      entries := entries[key := ParcelableEntry(state)];
    }

    /** `getParcelable`: the Parcelable under `key`, or null if there is none or it is a list. */
    function GetParcelable(key: string): (r: Option<ScrollState>)
      reads this
      ensures r.Some? ==> key in entries && entries[key] == ParcelableEntry(r)
      ensures key !in entries || entries[key].ListEntry? ==> r.None?
      ensures key in entries && entries[key].ParcelableEntry? ==> r == entries[key].state
    {
      if key in entries && entries[key].ParcelableEntry? then entries[key].state else None
    }

    /** `putParcelableArrayList`: stores the parcelled form of `list` under `key`. */
    method PutParcelableArrayList(key: string, list: seq<Sport>)
      requires |list| <= INT32_MAX
      modifies this
      ensures entries == old(entries)[key := ListEntry(EncodeList(list))]
    {
      var p := new Parcel();
      WriteSportList(p, list);
      assert p.values == EncodeList(list);
      entries := entries[key := ListEntry(p.values)];
    }

    /**
     * The list stored under `key`, or null if there is none, it is not a list, or
     * it does not decode.  The body is the definition; the ensures give what a
     * caller may rely on without unfolding it.
     */
    function SavedList(key: string): (r: Option<seq<Sport>>)
      reads this
      ensures r.Some? ==> key in entries && entries[key].ListEntry? && |r.value| <= INT32_MAX
    {
      if key in entries && entries[key].ListEntry? then DecodeList(entries[key].data, 0) else None
    }

    /** `getParcelableArrayList`: unparcels the list stored under `key`. */
    method GetParcelableArrayList(key: string) returns (r: Option<seq<Sport>>)
      ensures r == SavedList(key)
    {
      if key in entries && entries[key].ListEntry? {
        var p := new Parcel.FromValues(entries[key].data);
        r := ReadSportList(p);
      } else {
        r := None;
      }
    }
  }
}
