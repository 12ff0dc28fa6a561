/**
 Unified containers as text: the payload is padded with the human-readable
 part, jumbled and encoded in bech32m. The two outer layers are parameters.
*/
module Zip316 {
  import opened Domain
  import opened Tlv

  const PADDING := 16
  const SHORTEST := 48

  datatype ContainerError =
    | HrpTooLong | InvalidHrp | PayloadTooShort | JumbleFailed | Bech32EncodeFailed | Bech32DecodeFailed
    | HrpMismatch | PaddingInvalid | TlvInvalid

  /** A panic is what indexing beyond the padding ends in. */
  datatype ContainerResult<+T> = Fine(value: T) | Failed(error: ContainerError) | Panics

  /** Jumbling and bech32m, as functions that may refuse. */
  datatype Transport = Transport(
    jumble: seq<byte> -> Option<seq<byte>>,
    unjumble: seq<byte> -> Option<seq<byte>>,
    validHrp: seq<byte> -> bool,
    wrap: (seq<byte>, seq<byte>) -> Option<string>,
    unwrap: string -> Option<(seq<byte>, seq<byte>)>)
  {
    /** Each layer is undone by its inverse, for a (lower-case) human-readable part. */
    ghost predicate Invertible(hrp: seq<byte>) {
      && (forall b :: jumble(b).Some? ==> unjumble(jumble(b).value) == Some(b))
      && (forall b :: wrap(hrp, b).Some? ==> unwrap(wrap(hrp, b).value) == Some((hrp, b)))
    }

    /** The other way round: what a text was made from makes the text again. */
    ghost predicate Canonical(hrp: seq<byte>) {
      && validHrp(hrp)
      && (forall b :: unjumble(b).Some? ==> jumble(unjumble(b).value) == Some(b))
      && (forall s :: unwrap(s).Some? && unwrap(s).value.0 == hrp ==> wrap(hrp, unwrap(s).value.1) == Some(s))
    }
  }

  // ----- padding -----

  function Zeros(n: nat): (r: seq<byte>) {
    seq(n, _ => 0)
  }

  function Padded(hrp: seq<byte>, payload: seq<byte>): (r: seq<byte>)
    requires |hrp| <= PADDING
  {
    payload + (hrp + Zeros(PADDING - |hrp|))
  }

  /** The payload, if the bytes end in the padding for this human-readable part. */
  function Unpadded(hrp: seq<byte>, bytes: seq<byte>): (r: Option<seq<byte>>)
    requires |hrp| <= PADDING
  {
    if |bytes| < PADDING then None else
    var padding := bytes[|bytes| - PADDING..];
    if padding[..|hrp|] != hrp || (exists i :: |hrp| <= i < PADDING && padding[i] != 0) then None
    else Some(bytes[..|bytes| - PADDING])
  }

  /** Padding and stripping it are inverse both ways. */
  lemma PaddingExact(hrp: seq<byte>, bytes: seq<byte>, payload: seq<byte>)
    requires |hrp| <= PADDING
    ensures Unpadded(hrp, bytes) == Some(payload) <==> bytes == Padded(hrp, payload)
  {
    var back := Padded(hrp, payload);
    assert back[..|back| - PADDING] == payload && back[|back| - PADDING..] == hrp + Zeros(PADDING - |hrp|);
    if Unpadded(hrp, bytes) == Some(payload) {
      var padding := bytes[|bytes| - PADDING..];
      assert forall i :: 0 <= i < |hrp| ==> padding[i] == padding[..|hrp|][i];
      assert bytes == payload + padding;
    }
  }

  /**
   The bytes that are jumbled: the payload, the human-readable part, and zeros up to
   sixteen bytes after the payload.
  */
  lemma PaddedOnWire(hrp: seq<byte>, payload: seq<byte>)
    requires |hrp| <= 16
    ensures var b, n := Padded(hrp, payload), |payload|;
            && |b| == n + 16 && b[..n] == payload && b[n..n + |hrp|] == hrp
            && forall i :: n + |hrp| <= i < n + 16 ==> b[i] == 0
  {
  }

  // ----- containers -----

  function EncodePayload(t: Transport, hrp: seq<byte>, payload: seq<byte>): (r: ContainerResult<string>) {
    if |hrp| > PADDING then Failed(HrpTooLong)
    else if |payload| + PADDING < SHORTEST then Failed(PayloadTooShort)
    else
      var jumbled := t.jumble(Padded(hrp, payload));
      if jumbled.None? then Failed(JumbleFailed)
      else if !t.validHrp(hrp) then Failed(InvalidHrp)
      else
        var s := t.wrap(hrp, jumbled.value);
        if s.None? then Failed(Bech32EncodeFailed) else Fine(s.value)
  }

  function DecodePayload(t: Transport, expected: seq<byte>, s: string): (r: ContainerResult<seq<byte>>) {
    var checked := t.unwrap(s);
    if checked.None? then Failed(Bech32DecodeFailed)
    else if checked.value.0 != expected then Failed(HrpMismatch)
    else
      var bytes := t.unjumble(checked.value.1);
      if bytes.None? then Failed(JumbleFailed)
      else if |bytes.value| < PADDING then Failed(PaddingInvalid)
      else if |expected| > PADDING then Panics
      else
        var payload := Unpadded(expected, bytes.value);
        if payload.None? then Failed(PaddingInvalid) else Fine(payload.value)
  }

  method EncodeTlvContainer(t: Transport, hrp: seq<byte>, items: seq<Item>) returns (r: ContainerResult<string>)
    requires forall i :: 0 <= i < |items| ==> items[i].Words()
    ensures r == EncodePayload(t, hrp, Encode(items))
  {
    var payload := EncodeItems(items);
    r := EncodePayload(t, hrp, payload);
  }

  function ItemsOrFail(r: Result<seq<Item>>): (res: ContainerResult<seq<Item>>) {
    if r.Ok? then Fine(r.value) else Failed(TlvInvalid)
  }

  /** Decoding of the payload goes before decoding of its items, and ends the call when it fails or panics. */
  function DecodeContainer(t: Transport, expected: seq<byte>, s: string): (r: ContainerResult<seq<Item>>) {
    match DecodePayload(t, expected, s)
    case Fine(payload) => ItemsOrFail(Decode(payload))
    case Failed(error) => Failed(error)
    case Panics => Panics
  }

  method DecodeTlvContainer(t: Transport, expected: seq<byte>, s: string) returns (r: ContainerResult<seq<Item>>)
    ensures r == DecodeContainer(t, expected, s)
  {
    var payload := DecodePayload(t, expected, s);
    match payload {
      case Failed(error) => return Failed(error);
      case Panics => return Panics;
      case Fine(bytes) =>
        var items := DecodeItems(bytes);
        r := ItemsOrFail(items);
    }
  }

  /**
   Only a human-readable part longer than the padding makes decoding panic, on a text
   that really carries it and enough bytes.
  */
  lemma PanicsExactly(t: Transport, expected: seq<byte>, s: string)
    ensures DecodeContainer(t, expected, s) == Panics <==>
              && |expected| > PADDING && t.unwrap(s).Some? && t.unwrap(s).value.0 == expected
              && t.unjumble(t.unwrap(s).value.1).Some? && |t.unjumble(t.unwrap(s).value.1).value| >= PADDING
  {
    hide Decode, Unpadded;
  }

  /** Any bytes that are long enough can be jumbled and wrapped in a text. */
  ghost predicate Wraps(t: Transport, hrp: seq<byte>) {
    forall bytes :: |bytes| >= SHORTEST ==> t.jumble(bytes).Some? && t.wrap(hrp, t.jumble(bytes).value).Some?
  }

  /**
   A text made with a human-readable part longer than the padding makes its own decoding
   panic, and there are such texts.
  */
  lemma LongPartPanics(t: Transport, hrp: seq<byte>, bytes: seq<byte>)
    requires t.Invertible(hrp) && Wraps(t, hrp) && |hrp| > PADDING && |bytes| >= SHORTEST
    ensures t.wrap(hrp, t.jumble(bytes).value).Some?
    ensures DecodeContainer(t, hrp, t.wrap(hrp, t.jumble(bytes).value).value) == Panics
  {
    PanicsExactly(t, hrp, t.wrap(hrp, t.jumble(bytes).value).value);
  }

  /**
   What cannot be encoded at all: a human-readable part of more than sixteen bytes, or
   fewer than 32 bytes of payload.
  */
  lemma RefusedToEncode(t: Transport, hrp: seq<byte>, payload: seq<byte>)
    ensures EncodePayload(t, hrp, payload) == Failed(HrpTooLong) <==> |hrp| > 16
    ensures EncodePayload(t, hrp, payload) == Failed(PayloadTooShort) <==> |hrp| <= 16 && |payload| < 32
  {
    hide Padded;
  }

  lemma PayloadRoundTrip(t: Transport, hrp: seq<byte>, payload: seq<byte>, expected: seq<byte>)
    requires t.Invertible(hrp) && EncodePayload(t, hrp, payload).Fine?
    ensures DecodePayload(t, expected, EncodePayload(t, hrp, payload).value) == if expected == hrp then Fine(payload)
            else Failed(HrpMismatch)
  {
    hide Padded, Unpadded;
    PaddingExact(hrp, Padded(hrp, payload), payload);
    PaddedLength(hrp, payload);
    assert t.jumble(Padded(hrp, payload)).Some?;
  }

  lemma PaddedLength(hrp: seq<byte>, payload: seq<byte>)
    requires |hrp| <= PADDING
    ensures |Padded(hrp, payload)| == |payload| + PADDING
  {
  }

  /** A container that was encoded decodes to its items, under its own human-readable part and no other. */
  lemma ContainerRoundTrip(t: Transport, hrp: seq<byte>, items: seq<Item>, expected: seq<byte>)
    requires t.Invertible(hrp) && forall i :: 0 <= i < |items| ==> items[i].Words()
    requires EncodePayload(t, hrp, Encode(items)).Fine?
    ensures DecodeContainer(t, expected, EncodePayload(t, hrp, Encode(items)).value) == if expected == hrp
            then Fine(items) else Failed(HrpMismatch)
  {
    hide Encode, Decode, EncodePayload, DecodePayload, Transport.Invertible;
    PayloadRoundTrip(t, hrp, Encode(items), expected);
    ItemsRoundTrip(items);
  }

  /**
   A text that was accepted is the one its payload encodes to, unless the payload is too
   short to be encoded at all.
  */
  lemma AcceptedIsCanonical(t: Transport, hrp: seq<byte>, s: string)
    requires t.Canonical(hrp) && DecodePayload(t, hrp, s).Fine?
    ensures var payload := DecodePayload(t, hrp, s).value;
            EncodePayload(t, hrp, payload) == if |payload| + PADDING < SHORTEST then Failed(PayloadTooShort)
                else Fine(s)
  {
    hide Padded, Unpadded;
    PaddingExact(hrp, t.unjumble(t.unwrap(s).value.1).value, DecodePayload(t, hrp, s).value);
  }
}
