/** Length-prefixed frames on the broker socket (encodeBrokerFrame and readBrokerFrame
    in broker-protocol.ts). How a JSON value is printed to bytes and parsed from them
    is a parameter. */
module Frames {

  import opened Optional
  import opened Utf8

  datatype FrameError = Exceeds | TrailingBytes | InvalidJson | Truncated

  datatype Framed<+V> = Framed(value: V) | Refused(error: FrameError)

  // ---- Writing ------------------------------------------------------------------

  /** The length as an unsigned 32-bit number, most significant byte first. */
  function Header(length: nat): Bytes
    requires length < 0x1_0000_0000
  {
    [length / 256 / 256 / 256, length / 256 / 256 % 256, length / 256 % 256, length % 256]
  }

  function Shifted(high: nat, low: Byte): nat {
    high * 256 + low
  }

  function Declared(buffer: Bytes): nat
    requires |buffer| >= 4
  {
    Shifted(Shifted(Shifted(buffer[0], buffer[1]), buffer[2]), buffer[3])
  }

  function Frame(body: Bytes): Bytes
    requires |body| < 0x1_0000_0000
  {
    Header(|body|) + body
  }

  /** A body that the header cannot count is refused by the header's own range check. */
  function Encode(body: Bytes, maximum: nat): Framed<Bytes> {
    if |body| <= 0 || |body| > maximum || |body| >= 0x1_0000_0000 then Refused(Exceeds) else Framed(Frame(body))
  }

  // ---- Reading ------------------------------------------------------------------

  function Joined(chunks: seq<Bytes>): Bytes {
    if chunks == [] then [] else Joined(chunks[..|chunks| - 1]) + chunks[|chunks| - 1]
  }

  /** The chunks pause exactly after so many bytes. */
  ghost predicate PausesAfter(chunks: seq<Bytes>, length: nat) {
    exists k :: 0 <= k <= |chunks| && |Joined(chunks[..k])| == length
  }

  function Parsed<V>(parse: Bytes -> Option<V>, body: Bytes): Framed<V> {
    match parse(body)
    case None => Refused(InvalidJson)
    case Some(value) => Framed(value)
  }

  /** What a stream of chunks amounts to. The chunking matters only in one place: a
      frame is taken as complete when a chunk ends with it, and otherwise whatever
      follows it in the same chunk is trailing bytes. */
  ghost function Meaning<V>(chunks: seq<Bytes>, maximum: nat, parse: Bytes -> Option<V>): Framed<V> {
    var all := Joined(chunks);
    if |all| < 4 then Refused(Truncated)
    else if !(0 < Declared(all) <= maximum) then Refused(Exceeds)
    else if |all| < Declared(all) + 4 then Refused(Truncated)
    else if PausesAfter(chunks, Declared(all) + 4) then Parsed(parse, all[4..Declared(all) + 4])
    else Refused(TrailingBytes)
  }

  lemma {:induction false} JoinedGrows(chunks: seq<Bytes>, k: nat)
    requires k <= |chunks|
    ensures |Joined(chunks[..k])| <= |Joined(chunks)|
    ensures Joined(chunks)[..|Joined(chunks[..k])|] == Joined(chunks[..k])
    decreases |chunks|
  {
    if k == |chunks| {
      assert chunks[..k] == chunks;
    } else {
      var front := chunks[..|chunks| - 1];
      JoinedGrows(front, k);
      assert front[..k] == chunks[..k];
      assert Joined(chunks) == Joined(front) + chunks[|chunks| - 1];
      assert Joined(chunks)[..|Joined(chunks[..k])|] == Joined(front)[..|Joined(chunks[..k])|];
    }
  }

  lemma DeclaredEarly(chunks: seq<Bytes>, k: nat)
    requires k <= |chunks| && |Joined(chunks[..k])| >= 4
    ensures |Joined(chunks)| >= 4 && Declared(Joined(chunks)) == Declared(Joined(chunks[..k]))
  {
    JoinedGrows(chunks, k);
    var early := Joined(chunks[..k]);
    forall i | 0 <= i < 4 ensures Joined(chunks)[i] == early[i] {
      assert Joined(chunks)[..|early|][i] == early[i];
    }
  }

  /** What the loop knows after `k` chunks: it has gone on, so it has not yet seen a
      refused length nor the end of a frame. */
  ghost predicate Reading(chunks: seq<Bytes>, maximum: nat, k: nat, buffer: Bytes, declared: Option<nat>) {
    && k <= |chunks| && buffer == Joined(chunks[..k])
    && (declared.Some? <==> |buffer| >= 4)
    && (|buffer| >= 4 ==>
          declared.value == Declared(buffer) && 0 < declared.value <= maximum && |buffer| < declared.value + 4)
  }

  lemma NextChunk(chunks: seq<Bytes>, k: nat)
    requires k < |chunks|
    ensures Joined(chunks[..k + 1]) == Joined(chunks[..k]) + chunks[k]
  {
    assert chunks[..k + 1][..k] == chunks[..k];
  }

  /** A length out of bounds refuses the stream, whatever else it holds. */
  lemma RefusedByLength<V>(chunks: seq<Bytes>, maximum: nat, parse: Bytes -> Option<V>, k: nat)
    requires k <= |chunks| && |Joined(chunks[..k])| >= 4
    requires !(0 < Declared(Joined(chunks[..k])) <= maximum)
    ensures Meaning(chunks, maximum, parse) == Refused(Exceeds)
  {
    DeclaredEarly(chunks, k);
  }

  /** A chunk that ends with the frame completes it. */
  lemma CompletedAt<V>(chunks: seq<Bytes>, maximum: nat, parse: Bytes -> Option<V>, k: nat)
    requires k <= |chunks|
    requires
      var early := Joined(chunks[..k]);
      |early| >= 4 && 0 < Declared(early) <= maximum && |early| == Declared(early) + 4
    ensures Meaning(chunks, maximum, parse) == Parsed(parse, Joined(chunks[..k])[4..])
  {
    hide Joined, Declared, Parsed;
    DeclaredEarly(chunks, k);
    JoinedGrows(chunks, k);
    var all, early := Joined(chunks), Joined(chunks[..k]);
    assert PausesAfter(chunks, |early|);
    SliceOfPrefix(all, |early|);
  }

  lemma SliceOfPrefix(all: Bytes, length: nat)
    requires 4 <= length <= |all|
    ensures all[4..length] == all[..length][4..]
  {
  }

  /** A chunk that runs over the end of the frame leaves no chunk that ends with it. */
  lemma OverrunAt<V>(chunks: seq<Bytes>, maximum: nat, parse: Bytes -> Option<V>, k: nat, declared: nat)
    requires k < |chunks|
    requires
      var before, after := Joined(chunks[..k]), Joined(chunks[..k + 1]);
      && |after| >= 4 && declared == Declared(after) && 0 < declared <= maximum
      && |before| < declared + 4 < |after|
    ensures Meaning(chunks, maximum, parse) == Refused(TrailingBytes)
  {
    DeclaredEarly(chunks, k + 1);
    JoinedGrows(chunks, k + 1);
    forall other | 0 <= other <= |chunks| ensures |Joined(chunks[..other])| != declared + 4 {
      if other <= k {
        JoinedGrows(chunks[..k], other);
        assert chunks[..k][..other] == chunks[..other];
      } else {
        JoinedGrows(chunks[..other], k + 1);
        assert chunks[..other][..k + 1] == chunks[..k + 1];
      }
    }
  }

  method ReadFrame<V>(chunks: seq<Bytes>, maximum: nat, parse: Bytes -> Option<V>) returns (framed: Framed<V>)
    ensures framed == Meaning(chunks, maximum, parse)
  {
    hide Meaning;
    var buffer: Bytes := [];
    var declared: Option<nat> := None;
    assert chunks[..0] == [];
    for k := 0 to |chunks|
      invariant Reading(chunks, maximum, k, buffer, declared)
    {
      ghost var before := buffer;
      NextChunk(chunks, k);
      buffer := buffer + chunks[k];
      if declared.None? && |buffer| >= 4 {
        declared := Some(Declared(buffer));
        if declared.value <= 0 || declared.value > maximum {
          RefusedByLength(chunks, maximum, parse, k + 1);
          return Refused(Exceeds);
        }
      }
      assert declared.Some? ==> declared.value == Declared(buffer);
      if declared.Some? && |buffer| > declared.value + 4 {
        OverrunAt(chunks, maximum, parse, k, declared.value);
        return Refused(TrailingBytes);
      }
      if declared.Some? && |buffer| == declared.value + 4 {
        CompletedAt(chunks, maximum, parse, k + 1);
        return Parsed(parse, buffer[4..]);
      }
    }
    EndedEarly(chunks, maximum, parse, buffer, declared);
    framed := Refused(Truncated);
  }

  lemma EndedEarly<V>(chunks: seq<Bytes>, maximum: nat, parse: Bytes -> Option<V>, buffer: Bytes, declared: Option<nat>)
    requires Reading(chunks, maximum, |chunks|, buffer, declared)
    ensures Meaning(chunks, maximum, parse) == Refused(Truncated)
  {
    assert chunks[..|chunks|] == chunks;
  }

  // ---- What a frame guarantees -----------------------------------------------------

  lemma HeaderDeclares(length: nat, more: Bytes)
    requires length < 0x1_0000_0000
    ensures Declared(Header(length) + more) == length
  {
    assert length == length / 256 * 256 + length % 256;
    assert length / 256 == length / 256 / 256 * 256 + length / 256 % 256;
  }

  /** However a whole frame is cut into chunks, reading gives what its body parses to. */
  lemma EveryChunkingReads<V>(chunks: seq<Bytes>, maximum: nat, parse: Bytes -> Option<V>, body: Bytes)
    requires Encode(body, maximum).Framed? && Joined(chunks) == Encode(body, maximum).value
    ensures Meaning(chunks, maximum, parse) == Parsed(parse, body)
  {
    HeaderDeclares(|body|, body);
    assert chunks[..|chunks|] == chunks;
    assert Frame(body)[4..] == body;
    CompletedAt(chunks, maximum, parse, |chunks|);
  }

  /** However it is cut, a part of a frame that is not the whole is refused as truncated. */
  lemma EveryPartIsTruncated<V>(
    chunks: seq<Bytes>, maximum: nat, parse: Bytes -> Option<V>, body: Bytes, length: nat)
    requires Encode(body, maximum).Framed? && length < |body| + 4
    requires Joined(chunks) == Encode(body, maximum).value[..length]
    ensures Meaning(chunks, maximum, parse) == Refused(Truncated)
  {
    var frame := Frame(body);
    HeaderDeclares(|body|, body);
    if length >= 4 {
      forall i | 0 <= i < 4 ensures frame[..length][i] == frame[i] {
      }
    }
  }

  /** Whatever is read came from exactly the declared bytes, no more than allowed. */
  lemma OnlyDeclaredBytesAreRead<V>(chunks: seq<Bytes>, maximum: nat, parse: Bytes -> Option<V>)
    ensures
      Meaning(chunks, maximum, parse).Framed? ==>
        exists body: Bytes ::
          && 0 < |body| <= maximum && |body| < 0x1_0000_0000
          && Frame(body) <= Joined(chunks)
          && parse(body) == Some(Meaning(chunks, maximum, parse).value)
  {
    if Meaning(chunks, maximum, parse).Framed? {
      var all := Joined(chunks);
      var body := all[4..Declared(all) + 4];
      DeclaredHeads(all);
      assert Frame(body) == all[..|body| + 4];
      assert parse(body) == Some(Meaning(chunks, maximum, parse).value);
    }
  }

  lemma DeclaredHeads(all: Bytes)
    requires |all| >= 4
    ensures Declared(all) < 0x1_0000_0000 && Header(Declared(all)) == all[..4]
  {
    var a, b, c, d := all[0], all[1], all[2], all[3];
    Quotient(Shifted(Shifted(a, b), c), d);
    Quotient(Shifted(a, b), c);
    Quotient(a, b);
    assert Header(Declared(all)) == [a, b, c, d];
  }

  lemma Quotient(high: nat, low: Byte)
    ensures Shifted(high, low) / 256 == high && Shifted(high, low) % 256 == low
  {
  }
}
