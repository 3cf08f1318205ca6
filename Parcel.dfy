/**
 * The Android Parcel as an abstract stream of tokens with a read cursor.
 * Writers append at the end; readers consume from the cursor.
 */
module Parcels {
  import opened Wrappers

  datatype Token = StringToken(s: Option<string>) | DoubleToken(d: real)

  /**
   * readString on the unread tokens: the string and what is left.
   * Past the end, or on a token of another kind, it reads as null.
   */
  function DecodeString(ts: seq<Token>): (r: (Option<string>, seq<Token>))
    ensures ts == [] ==> r == (None, [])
    ensures ts != [] ==> r.1 == ts[1..]
    ensures ts != [] && ts[0].StringToken? ==> r.0 == ts[0].s
  {
    if ts == [] then (None, [])
    else if ts[0].StringToken? then (ts[0].s, ts[1..])
    else (None, ts[1..])
  }

  /** readDouble on the unread tokens; past the end, or on another kind, it reads as 0. */
  function DecodeDouble(ts: seq<Token>): (r: (real, seq<Token>))
    ensures ts == [] ==> r == (0.0, [])
    ensures ts != [] ==> r.1 == ts[1..]
    ensures ts != [] && ts[0].DoubleToken? ==> r.0 == ts[0].d
  {
    if ts == [] then (0.0, [])
    else if ts[0].DoubleToken? then (ts[0].d, ts[1..])
    else (0.0, ts[1..])
  }

  class Parcel {
    var tokens: seq<Token>
    var position: nat

    ghost predicate Valid()
      reads this
    {
      position <= |tokens|
    }

    /** The tokens not read yet. */
    function Remaining(): seq<Token>
      reads this
      requires Valid()
    {
      tokens[position..]
    }

    constructor ()
      ensures Valid() && tokens == [] && position == 0
    {
      tokens, position := [], 0;
    }

    method WriteString(s: Option<string>)
      requires Valid()
      modifies this
      ensures Valid() && position == old(position)
      ensures tokens == old(tokens) + [StringToken(s)]
      ensures Remaining() == old(Remaining()) + [StringToken(s)]
    {
      tokens := tokens + [StringToken(s)];
    }

    method WriteDouble(d: real)
      requires Valid()
      modifies this
      ensures Valid() && position == old(position)
      ensures tokens == old(tokens) + [DoubleToken(d)]
      ensures Remaining() == old(Remaining()) + [DoubleToken(d)]
    {
      tokens := tokens + [DoubleToken(d)];
    }

    method ReadString() returns (s: Option<string>)
      requires Valid()
      modifies this
      ensures Valid() && tokens == old(tokens)
      ensures (s, Remaining()) == DecodeString(old(Remaining()))
    {
      if position < |tokens| {
        s := if tokens[position].StringToken? then tokens[position].s else None;
        position := position + 1;
      } else {
        s := None;
      }
    }

    method ReadDouble() returns (d: real)
      requires Valid()
      modifies this
      ensures Valid() && tokens == old(tokens)
      ensures (d, Remaining()) == DecodeDouble(old(Remaining()))
    {
      if position < |tokens| {
        d := if tokens[position].DoubleToken? then tokens[position].d else 0.0;
        position := position + 1;
      } else {
        d := 0.0;
      }
    }
  }
}
