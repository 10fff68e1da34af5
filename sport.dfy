/**
 * The Sport record of Sport.java and its Parcelable encoding: three values
 * written in a fixed order and read back in the same order.
 */
module Sports {
  import opened Options
  import opened Parcels

  /**
   * One card.  The Java class has no setters and `imageResource` is final,
   * so a Sport never changes after construction: a datatype value.
   */
  datatype Sport = Sport(title: string, info: string, imageResource: int32)

  /** `getTitle`, `getInfo` and `getImageResource`; what they promise is stated by the two lemmas below. */
  function GetTitle(s: Sport): (r: string)
  {
    s.title
  }

  function GetInfo(s: Sport): (r: string)
  {
    s.info
  }

  function GetImageResource(s: Sport): (r: int32)
  {
    s.imageResource
  }

  /** The three getters together give back the whole record. */
  lemma GettersDetermineSport(s: Sport)
    ensures Sport(GetTitle(s), GetInfo(s), GetImageResource(s)) == s
  {
  }

  /** The getters hand back exactly what the constructor was given. */
  lemma GettersReturnConstructorArgs(title: string, info: string, imageResource: int32)
    ensures GetTitle(Sport(title, info, imageResource)) == title
    ensures GetInfo(Sport(title, info, imageResource)) == info
    ensures GetImageResource(Sport(title, info, imageResource)) == imageResource
  {
  }

  /** No special objects (file descriptors) in the parcelled form, for every Sport. */
  function DescribeContents(s: Sport): (r: int32)
    ensures r == 0
  {
    0
  }

  /**
   * The values `writeToParcel` appends: exactly three, which the three reads
   * of `Sport(Parcel)` (string, string, int) all accept, carrying title, info
   * and imageResource in that order.
   */
  function Encode(s: Sport): (vs: seq<Value>)
    ensures |vs| == 3 && ReadableFields(vs, 0) == 3
    ensures vs[0].s == s.title && vs[1].s == s.info && vs[2].n == s.imageResource
  {
    [Str(s.title), Str(s.info), Int(s.imageResource)]
  }

  /**
   * How many of the three reads of `Sport(Parcel)` succeed in turn, starting at
   * `pos`, before the first one that finds no value of the kind it asks for.
   */
  function ReadableFields(vs: seq<Value>, pos: nat): (k: nat)
    ensures k <= 3 && (k > 0 ==> pos + k <= |vs|)
  {
    if !(pos < |vs| && vs[pos].Str?) then 0
    else if !(pos + 1 < |vs| && vs[pos + 1].Str?) then 1
    else if !(pos + 2 < |vs| && vs[pos + 2].Int?) then 2
    else 3
  }

  /**
   * Decodes one Sport at `pos`, giving the record and the position after it.
   * A decoded record consumed exactly three values, and those values are its encoding.
   */
  function Decode(vs: seq<Value>, pos: nat): (r: Option<(Sport, nat)>)
    ensures r.Some? <==> ReadableFields(vs, pos) == 3
    ensures r.Some? ==> r.value.1 == pos + 3 && vs[pos..pos + 3] == Encode(r.value.0)
  {
    if ReadableFields(vs, pos) == 3 then
      Some((Sport(vs[pos].s, vs[pos + 1].s, vs[pos + 2].n), pos + 3))
    else
      None
  }

  /** Decoding an encoded Sport, wherever it sits in a stream, gives it back and stops right after it. */
  lemma DecodeEncode(prefix: seq<Value>, s: Sport, rest: seq<Value>)
    ensures Decode(prefix + Encode(s) + rest, |prefix|) == Some((s, |prefix| + 3))
  {
  }

  /** The encodings of `ss`, one after another. */
  function EncodeAll(ss: seq<Sport>): (vs: seq<Value>)
    ensures |vs| == 3 * |ss|
  {
    if ss == [] then [] else EncodeAll(ss[..|ss| - 1]) + Encode(ss[|ss| - 1])
  }

  /** Decodes `n` Sports one after another from `pos`, as `n` successive `createFromParcel` calls do. */
  function DecodeN(vs: seq<Value>, pos: nat, n: nat): (r: Option<(seq<Sport>, nat)>)
    ensures r.Some? ==> |r.value.0| == n && r.value.1 == pos + 3 * n
  {
    if n == 0 then Some(([], pos))
    else
      match DecodeN(vs, pos, n - 1)
      case None => None
      case Some((done, q)) =>
        match Decode(vs, q)
        case None => None
        case Some((s, q')) => Some((done + [s], q'))
  }

  /** One more record decoded after `n - 1` of them extends the result by that record. */
  lemma DecodeNStep(vs: seq<Value>, pos: nat, n: nat, done: seq<Sport>, q: nat, s: Sport, q': nat)
    requires n > 0
    requires DecodeN(vs, pos, n - 1) == Some((done, q)) && Decode(vs, q) == Some((s, q'))
    ensures DecodeN(vs, pos, n) == Some((done + [s], q'))
  {
  }

  /**
   * Concatenated records decode back in sequence: each decode consumes exactly
   * one encoding, whatever precedes or follows the records.
   */
  lemma {:induction false} DecodeAllEncodeAll(prefix: seq<Value>, ss: seq<Sport>, rest: seq<Value>)
    ensures DecodeN(prefix + EncodeAll(ss) + rest, |prefix|, |ss|) == Some((ss, |prefix| + 3 * |ss|))
  {
    if ss != [] {
      var init, last := ss[..|ss| - 1], ss[|ss| - 1];
      var head := prefix + EncodeAll(init);
      var vs := prefix + EncodeAll(ss) + rest;
      SplitLast(prefix, ss, rest);
      DecodeAllEncodeAll(prefix, init, Encode(last) + rest);
      DecodeEncode(head, last, rest);
      DecodeNStep(vs, |prefix|, |ss|, init, |head|, last, |head| + 3);
      assert init + [last] == ss;
    }
  }

  /** The two ways of grouping a stream in which the last of `ss` is singled out. */
  lemma SplitLast(prefix: seq<Value>, ss: seq<Sport>, rest: seq<Value>)
    requires ss != []
    ensures prefix + EncodeAll(ss) + rest == prefix + EncodeAll(ss[..|ss| - 1]) + (Encode(ss[|ss| - 1]) + rest)
    ensures prefix + EncodeAll(ss) + rest == (prefix + EncodeAll(ss[..|ss| - 1])) + Encode(ss[|ss| - 1]) + rest
  {
    var front, back := EncodeAll(ss[..|ss| - 1]), Encode(ss[|ss| - 1]);
    assert EncodeAll(ss) == front + back;
    Regroup(prefix, front, back, rest);
  }

  lemma Regroup(p: seq<Value>, a: seq<Value>, b: seq<Value>, r: seq<Value>)
    ensures p + (a + b) + r == p + a + (b + r)
    ensures p + (a + b) + r == (p + a) + b + r
  {
  }

  /** `writeToParcel`: appends title, info and imageResource, in that order, and nothing else. */
  method WriteToParcel(s: Sport, out: Parcel, flags: int32)
    modifies out`values
    ensures out.values == old(out.values) + Encode(s)
  {
    out.WriteString(s.title);
    out.WriteString(s.info);
    out.WriteInt(s.imageResource);
  }

  /**
   * `createFromParcel`, that is the private `Sport(Parcel)` constructor: reads
   * title, info and imageResource in turn.  It yields a record exactly when
   * `Decode` does, and leaves the cursor just past the values it read.
   */
  method CreateFromParcel(source: Parcel) returns (r: Option<Sport>)
    modifies source`pos
    ensures source.pos == old(source.pos) + ReadableFields(source.values, old(source.pos))
    ensures Decode(source.values, old(source.pos)) == if r.Some? then Some((r.value, source.pos)) else None
  {
    var title := source.ReadString();
    if title.None? {
      return None;
    }
    var info := source.ReadString();
    if info.None? {
      return None;
    }
    var imageResource := source.ReadInt();
    if imageResource.None? {
      return None;
    }
    r := Some(Sport(title.value, info.value, imageResource.value));
  }

  /** `CREATOR.newArray`: an array of `size` empty (null) slots; Java refuses a negative size. */
  method NewArray(size: int32) returns (r: Option<array<Option<Sport>>>)
    ensures r.Some? <==> size >= 0
    ensures r.Some? ==> fresh(r.value) && r.value.Length == size as int
    ensures r.Some? ==> forall i :: 0 <= i < r.value.Length ==> r.value[i] == None
  {
    if size < 0 {
      return None;
    }
    var a := new Option<Sport>[size as int](_ => None);
    r := Some(a);
  }
}
