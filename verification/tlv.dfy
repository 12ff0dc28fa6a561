/**
 The container of typed items behind unified encodings: items are printed as
 type code, length and value, and parsed back (ZIP 316, section "Encoding of
 Unified Addresses").
*/
module Tlv {
  import opened Domain

  type byte = x: int | 0 <= x < 256

  const MAX_U16 := 0xffff
  const MAX_U32 := 0xffff_ffff
  const MAX_U64 := 0xffff_ffff_ffff_ffff

  // ----- little-endian words -----

  function Pow256(w: nat): (r: nat)
    ensures r >= 1
  {
    if w == 0 then 1 else 256 * Pow256(w - 1)
  }

  lemma Widths()
    ensures Pow256(2) == MAX_U16 + 1 && Pow256(4) == MAX_U32 + 1 && Pow256(8) == MAX_U64 + 1
  {
    assert Pow256(1) == 256 && Pow256(3) == 256 * Pow256(2) && Pow256(5) == 256 * Pow256(4);
    assert Pow256(6) == 256 * Pow256(5) && Pow256(7) == 256 * Pow256(6);
  }

  function ToBytes(n: nat, w: nat): (r: seq<byte>)
    ensures |r| == w
  {
    if w == 0 then [] else [n % 256] + ToBytes(n / 256, w - 1)
  }

  function FromBytes(bs: seq<byte>): (n: nat)
    ensures n < Pow256(|bs|)
  {
    if bs == [] then 0 else bs[0] + 256 * FromBytes(bs[1..])
  }

  lemma {:induction false} FromToBytes(n: nat, w: nat)
    requires n < Pow256(w)
    ensures FromBytes(ToBytes(n, w)) == n
  {
    if w > 0 {
      FromToBytes(n / 256, w - 1);
      assert ToBytes(n, w)[1..] == ToBytes(n / 256, w - 1);
    }
  }

  lemma {:induction false} ToFromBytes(bs: seq<byte>)
    ensures ToBytes(FromBytes(bs), |bs|) == bs
  {
    if bs != [] {
      ToFromBytes(bs[1..]);
      assert FromBytes(bs) % 256 == bs[0] && FromBytes(bs) / 256 == FromBytes(bs[1..]);
    }
  }

  // ----- compact sizes -----

  /** Width of the word after the first byte. */
  function Width(n: nat): (r: nat) {
    if n <= 252 then 0 else if n <= MAX_U16 then 2 else if n <= MAX_U32 then 4 else 8
  }

  function Compact(n: nat): (r: seq<byte>) {
    match Width(n)
    case 0 => if n <= 252 then [n] else []
    case 2 => [253] + ToBytes(n, 2)
    case 4 => [254] + ToBytes(n, 4)
    case _ => [255] + ToBytes(n, 8)
  }

  /** Little-endian: each byte has 256 times the weight of the one before. */
  lemma {:induction false} ByteAt(n: nat, w: nat, k: nat)
    requires k < w
    ensures ToBytes(n, w)[k] == n / Pow256(k) % 256
  {
    if k > 0 {
      ByteAt(n / 256, w - 1, k - 1);
      DivTwice(n, Pow256(k - 1));
    }
  }

  lemma DivTwice(n: nat, p: nat)
    requires p > 0
    ensures n / 256 / p == n / (256 * p)
  {
    var q := n / (256 * p);
    var r := n % (256 * p);
    assert n == 256 * p * q + r;
    assert n / 256 == p * q + r / 256 by {
      assert n == 256 * (p * q) + r;
    }
    assert r / 256 < p;
    QuotientIs(n / 256, p, q, r / 256);
  }

  lemma Apart(p: nat, a: nat, b: nat)
    ensures a < b ==> p * a + p <= p * b
  {
    if a < b {
      AtLeastOnce(p, b - a);
      assert p * b == p * a + p * (b - a);
    }
  }

  lemma AtLeastOnce(p: nat, k: nat)
    requires k >= 1
    ensures p * k >= p
  {
    assert p * k == p + p * (k - 1);
  }

  lemma QuotientIs(n: nat, p: nat, q: nat, r: nat)
    requires p > 0 && r < p && n == p * q + r
    ensures n / p == q
  {
    assert n == p * (n / p) + n % p;
    Apart(p, q, n / p);
    Apart(p, n / p, q);
  }

  /** The four forms of a size on the wire. */
  lemma CompactForms(n: nat)
    requires n <= 0xffff_ffff_ffff_ffff
    ensures n < 253 ==> Compact(n) == [n]
    ensures 253 <= n <= 0xffff ==> Compact(n) == [253, n % 256, n / 256]
    ensures 0xffff < n <= 0xffff_ffff ==>
              Compact(n) == [254, n % 256, n / 0x100 % 256, n / 0x1_0000 % 256, n / 0x100_0000]
    ensures 0xffff_ffff < n ==>
              |Compact(n)| == 9 && Compact(n)[0] == 255
              && forall k :: 0 <= k < 8 ==> Compact(n)[k + 1] == n / Pow256(k) % 256
  {
    if 253 <= n <= 0xffff {
      TwoBytes(n);
    } else if 0xffff < n <= 0xffff_ffff {
      FourBytes(n);
    } else if 0xffff_ffff < n {
      forall k | 0 <= k < 8 ensures Compact(n)[k + 1] == n / Pow256(k) % 256 {
        ByteAt(n, 8, k);
      }
    }
  }

  lemma TwoBytes(n: nat)
    requires n <= 0xffff
    ensures ToBytes(n, 2) == [n % 256, n / 256]
  {
    assert ToBytes(n / 256, 1) == [n / 256 % 256] + ToBytes(n / 256 / 256, 0);
  }

  lemma FourBytes(n: nat)
    requires n <= 0xffff_ffff
    ensures ToBytes(n, 4) == [n % 256, n / 0x100 % 256, n / 0x1_0000 % 256, n / 0x100_0000]
  {
    SmallPowers();
    ByteAt(n, 4, 0);
    ByteAt(n, 4, 1);
    ByteAt(n, 4, 2);
    ByteAt(n, 4, 3);
    hide ToBytes, Pow256;
    var b := ToBytes(n, 4);
    assert b[0] == n % 256 && b[1] == n / 0x100 % 256 && b[2] == n / 0x1_0000 % 256 && b[3] == n / 0x100_0000 % 256;
    assert n / 0x100_0000 < 256;
  }

  lemma SmallPowers()
    ensures Pow256(0) == 1 && Pow256(1) == 256 && Pow256(2) == 0x1_0000 && Pow256(3) == 0x100_0000
  {
  }

  /** A small item on the wire: its type code, its length, its value. */
  lemma SmallItemOnWire(item: Item)
    requires item.typecode < 253 && |item.value| < 253
    ensures Encode([item]) == [item.typecode, |item.value|] + item.value
  {
    CompactForms(item.typecode);
    CompactForms(|item.value|);
    hide Compact;
    assert [item][1..] == [];
    assert Encode([item]) == item.Encoded() + [];
  }

  /** Items follow each other. */
  lemma ItemsFollow(item: Item, items: seq<Item>)
    ensures Encode([item] + items) == Encode([item]) + Encode(items)
  {
    hide Compact;
    assert ([item] + items)[1..] == items && [item][1..] == [];
  }

  /** Width announced by a first byte. */
  function WidthOf(first: byte): (r: nat) {
    match first
    case 253 => 2
    case 254 => 4
    case 255 => 8
    case _ => 0
  }

  /** A size at the start of the input, and what follows it. */
  function ReadCompact(input: seq<byte>): (r: Result<(nat, seq<byte>)>)
    ensures r.Ok? ==> |r.value.1| < |input| && r.value.0 <= MAX_U64
  {
    if input == [] then Err(Malformed) else
    var w := WidthOf(input[0]);
    if |input| < 1 + w then Err(Malformed)
    else if w == 0 then Ok((input[0], input[1..]))
    else
      Widths();
      Pow256Grows(w, 8);
      Ok((FromBytes(input[1..1 + w]), input[1 + w..]))
  }

  lemma {:induction false} Pow256Grows(v: nat, w: nat)
    requires v <= w
    ensures Pow256(v) <= Pow256(w)
  {
    if v < w {
      Pow256Grows(v, w - 1);
    }
  }

  lemma CompactRoundTrip(n: nat, rest: seq<byte>)
    requires n <= MAX_U64
    ensures ReadCompact(Compact(n) + rest) == Ok((n, rest))
    ensures Compact(n) != []
  {
    Widths();
    var w := Width(n);
    var input := Compact(n) + rest;
    if w > 0 {
      FromToBytes(n, w);
      assert input[1..1 + w] == ToBytes(n, w) && input[1 + w..] == rest;
    } else {
      assert input[1..] == rest;
    }
  }

  /** The shortest form of the size was used. */
  predicate Minimal(input: seq<byte>)
    requires ReadCompact(input).Ok?
  {
    WidthOf(input[0]) == Width(ReadCompact(input).value.0)
  }

  /** Printing a size that was read is never longer, and gives the same bytes exactly when the form was the shortest. */
  lemma CompactReprints(input: seq<byte>)
    requires ReadCompact(input).Ok?
    ensures var (n, rest) := ReadCompact(input).value;
            && |Compact(n)| + |rest| <= |input|
            && (|Compact(n)| + |rest| == |input| <==> Minimal(input))
            && (Compact(n) + rest == input <==> Minimal(input))
  {
    Widths();
    var (n, rest) := ReadCompact(input).value;
    var w := WidthOf(input[0]);
    if w > 0 {
      ToFromBytes(input[1..1 + w]);
      assert input == [input[0]] + input[1..1 + w] + rest;
      assert |Compact(n)| == 1 + Width(n);
    } else {
      assert input == [input[0]] + rest;
    }
  }

  method WriteCompactSize(n: nat, out: seq<byte>) returns (out': seq<byte>)
    requires n <= MAX_U64
    ensures out' == out + Compact(n)
  {
    if n <= 252 {
      out' := out + [n];
    } else if n <= MAX_U16 {
      out' := out + [253] + ToBytes(n, 2);
    } else if n <= MAX_U32 {
      out' := out + [254] + ToBytes(n, 4);
    } else {
      out' := out + [255] + ToBytes(n, 8);
    }
  }

  method ReadCompactSize(input: seq<byte>) returns (r: Result<nat>, rest: seq<byte>)
    ensures if r.Ok? then ReadCompact(input) == Ok((r.value, rest)) else ReadCompact(input) == Err(r.error)
  {
    if input == [] {
      return Err(Malformed), input;
    }
    var first := input[0];
    rest := input[1..];
    if first <= 252 {
      return Ok(first), rest;
    }
    var w := if first == 253 then 2 else if first == 254 then 4 else 8;
    if |rest| < w {
      return Err(Malformed), rest;
    }
    assert rest[..w] == input[1..1 + w] && rest[w..] == input[1 + w..];
    r, rest := Ok(FromBytes(rest[..w])), rest[w..];
  }

  // ----- items -----

  datatype Item = Item(typecode: nat, value: seq<byte>) {
    /** Type code and length are 64-bit words. */
    predicate Words() {
      typecode <= MAX_U64 && |value| <= MAX_U64
    }

    function Encoded(): (r: seq<byte>) {
      Compact(typecode) + (Compact(|value|) + value)
    }
  }

  function Encode(items: seq<Item>): (r: seq<byte>) {
    if items == [] then [] else items[0].Encoded() + Encode(items[1..])
  }

  /** The first item of a payload, and what follows it. */
  function DecodeFirst(input: seq<byte>): (r: Result<(Item, seq<byte>)>)
    ensures r.Ok? ==> |r.value.1| < |input| && r.value.0.Words()
  {
    var t := ReadCompact(input);
    if t.Err? then Err(t.error) else
    var l := ReadCompact(t.value.1);
    if l.Err? then Err(l.error) else
    if |l.value.1| < l.value.0 then Err(Malformed) else
    Ok((Item(t.value.0, l.value.1[..l.value.0]), l.value.1[l.value.0..]))
  }

  function Decode(input: seq<byte>): (r: Result<seq<Item>>)
    decreases |input|
  {
    if input == [] then Ok([]) else
    var first := DecodeFirst(input);
    if first.Err? then Err(first.error) else
    var more := Decode(first.value.1);
    if more.Err? then more else Ok([first.value.0] + more.value)
  }

  lemma FirstRoundTrip(item: Item, rest: seq<byte>)
    requires item.Words()
    ensures item.Encoded() + rest != [] && DecodeFirst(item.Encoded() + rest) == Ok((item, rest))
  {
    hide Compact, ReadCompact;
    var tail := Compact(|item.value|) + (item.value + rest);
    assert item.Encoded() + rest == Compact(item.typecode) + tail;
    CompactRoundTrip(item.typecode, tail);
    CompactRoundTrip(|item.value|, item.value + rest);
  }

  /** Parsing what was printed gives the items back. */
  lemma {:induction false} ItemsRoundTrip(items: seq<Item>)
    requires forall i :: 0 <= i < |items| ==> items[i].Words()
    ensures Decode(Encode(items)) == Ok(items)
  {
    hide DecodeFirst;
    if items != [] {
      ItemsRoundTrip(items[1..]);
      FirstRoundTrip(items[0], Encode(items[1..]));
      assert items == [items[0]] + items[1..];
    }
  }

  /** Every size of an accepted payload has its shortest form. */
  predicate AllMinimal(input: seq<byte>)
    requires Decode(input).Ok?
    decreases |input|
  {
    input == [] || (
      && Minimal(input) && Minimal(ReadCompact(input).value.1)
      && AllMinimal(DecodeFirst(input).value.1))
  }

  lemma FirstReprints(input: seq<byte>)
    requires DecodeFirst(input).Ok?
    ensures var (item, rest) := DecodeFirst(input).value;
            && |item.Encoded()| + |rest| <= |input|
            && (item.Encoded() + rest == input <==> Minimal(input) && Minimal(ReadCompact(input).value.1))
            && (|item.Encoded()| + |rest| == |input| <==> Minimal(input) && Minimal(ReadCompact(input).value.1))
  {
    hide Compact, ReadCompact, Minimal;
    var (item, rest) := DecodeFirst(input).value;
    var (t, after) := ReadCompact(input).value;
    var (l, tail) := ReadCompact(after).value;
    CompactReprints(input);
    CompactReprints(after);
    assert tail == item.value + rest;
    assert item.Encoded() + rest == Compact(t) + (Compact(l) + tail);
    if item.Encoded() + rest == input {
      assert |item.Encoded()| + |rest| == |input|;
    }
  }

  /** An accepted payload is printed no longer, and as it was exactly when all its sizes were minimal. */
  lemma {:induction false} AcceptedReprints(input: seq<byte>)
    requires Decode(input).Ok?
    ensures var again := Encode(Decode(input).value);
            && |again| <= |input|
            && (again == input <==> AllMinimal(input))
            && (|again| == |input| <==> AllMinimal(input))
    decreases |input|
  {
    hide DecodeFirst, Minimal, ReadCompact;
    if input != [] {
      var (item, rest) := DecodeFirst(input).value;
      FirstReprints(input);
      AcceptedReprints(rest);
      var again := Encode(Decode(rest).value);
      assert Encode(Decode(input).value) == item.Encoded() + again;
      if item.Encoded() + again == input {
        assert |item.Encoded()| + |again| == |input|;
      }
    }
  }

  /** Every accepted item fits the words it was read from. */
  lemma {:induction false} DecodedWords(input: seq<byte>)
    requires Decode(input).Ok?
    ensures forall i :: 0 <= i < |Decode(input).value| ==> Decode(input).value[i].Words()
    decreases |input|
  {
    hide DecodeFirst;
    if input != [] {
      DecodedWords(DecodeFirst(input).value.1);
    }
  }

  method EncodeItems(items: seq<Item>) returns (payload: seq<byte>)
    requires forall i :: 0 <= i < |items| ==> items[i].Words()
    ensures payload == Encode(items)
  {
    hide Compact;
    payload := [];
    for i := 0 to |items|
      invariant payload + Encode(items[i..]) == Encode(items)
    {
      payload := WriteCompactSize(items[i].typecode, payload);
      payload := WriteCompactSize(|items[i].value|, payload);
      payload := payload + items[i].value;
      assert items[i..][1..] == items[i + 1..];
    }
  }

  /** The loop ends because every item takes at least one byte. */
  method DecodeItems(bytes: seq<byte>) returns (r: Result<seq<Item>>)
    ensures r == Decode(bytes)
  {
    hide ReadCompact;
    var rest, out: seq<Item> := bytes, [];
    assert Decode(bytes).Ok? ==> [] + Decode(bytes).value == Decode(bytes).value;
    while rest != []
      invariant Decode(bytes) == (if Decode(rest).Ok? then Ok(out + Decode(rest).value) else Decode(rest))
      decreases |rest|
    {
      assert rest != [];
      ghost var before := rest;
      var typecode, after := ReadCompactSize(rest);
      if typecode.Err? {
        return Err(typecode.error);
      }
      var len, tail := ReadCompactSize(after);
      if len.Err? {
        return Err(len.error);
      }
      if |tail| < len.value {
        return Err(Malformed);
      }
      var item := Item(typecode.value, tail[..len.value]);
      rest := tail[len.value..];
      assert DecodeFirst(before) == Ok((item, rest));
      assert Decode(rest).Ok? ==> out + ([item] + Decode(rest).value) == out + [item] + Decode(rest).value;
      out := out + [item];
    }
    assert out + [] == out;
    r := Ok(out);
  }
}
