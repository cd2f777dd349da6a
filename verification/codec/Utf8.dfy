/** UTF-8 as Buffer.from and Buffer.toString have it: a text is a sequence of UTF-16
    code units, and what is ill-formed on either side becomes U+FFFD, on the reading
    side once for every maximal part of a character (the UTF-8 decoder of the WHATWG
    Encoding Standard). */
module Utf8 {

  import opened Json
  import opened Optional

  type Byte = b: nat | b < 256

  type Bytes = seq<Byte>

  const REPLACEMENT: Unit := 0xFFFD

  // ---- Writing ------------------------------------------------------------------

  predicate Scalar(point: nat) {
    point < 0xD800 || 0xE000 <= point < 0x11_0000
  }

  function PairPoint(high: Unit, low: Unit): nat
    requires High(high) && Low(low)
  {
    0x1_0000 + (high - 0xD800) * 0x400 + (low - 0xDC00)
  }

  function Tail(bits: nat): Byte {
    0x80 + bits % 64
  }

  function EncodedPoint(point: nat): Bytes
    requires Scalar(point)
  {
    if point < 0x80 then [point]
    else if point < 0x800 then [0xC0 + point / 64, Tail(point)]
    else if point < 0x1_0000 then [0xE0 + point / 64 / 64, Tail(point / 64), Tail(point)]
    else [0xF0 + point / 64 / 64 / 64, Tail(point / 64 / 64), Tail(point / 64), Tail(point)]
  }

  function Encode(text: Units): Bytes {
    if text == [] then []
    else if StartsPair(text) then EncodedPoint(PairPoint(text[0], text[1])) + Encode(text[2..])
    else EncodedPoint(if High(text[0]) || Low(text[0]) then REPLACEMENT else text[0]) + Encode(text[1..])
  }

  // ---- Reading ------------------------------------------------------------------

  /** What the first byte of a longer character says: its own bits, how many bytes
      follow it, and the bounds of the next one. */
  datatype Lead = Lead(bits: nat, more: nat, low: Byte, high: Byte)

  function LeadOf(b: Byte): Option<Lead> {
    if 0xC2 <= b < 0xE0 then Some(Lead(b - 0xC0, 1, 0x80, 0xBF))
    else if 0xE0 <= b < 0xF0 then
      Some(Lead(b - 0xE0, 2, if b == 0xE0 then 0xA0 else 0x80, if b == 0xED then 0x9F else 0xBF))
    else if 0xF0 <= b < 0xF5 then
      Some(Lead(b - 0xF0, 3, if b == 0xF0 then 0x90 else 0x80, if b == 0xF4 then 0x8F else 0xBF))
    else None
  }

  /** One more byte taken in. */
  function Fed(lead: Lead, b: Byte): Lead
    requires lead.more > 0
  {
    Lead(lead.bits * 64 + b % 64, lead.more - 1, 0x80, 0xBF)
  }

  /** The character goes on as far as its bytes are within bounds: the bits so far, how
      many bytes are still missing, and what follows. */
  datatype Progress = Progress(bits: nat, missing: nat, rest: Bytes)

  function Continue(lead: Lead, bytes: Bytes): (progress: Progress)
    ensures |progress.rest| <= |bytes|
    decreases lead.more
  {
    if lead.more == 0 || bytes == [] || !(lead.low <= bytes[0] <= lead.high)
    then Progress(lead.bits, lead.more, bytes)
    else Continue(Fed(lead, bytes[0]), bytes[1..])
  }

  function UnitsOf(point: nat): Units {
    if point < 0x1_0000 then [point]
    else [0xD800 + (point - 0x1_0000) / 0x400 % 0x400, 0xDC00 + (point - 0x1_0000) % 0x400]
  }

  function Decode(bytes: Bytes): Units
    decreases |bytes|
  {
    if bytes == [] then []
    else if bytes[0] < 0x80 then [bytes[0]] + Decode(bytes[1..])
    else
      match LeadOf(bytes[0])
      case None => [REPLACEMENT] + Decode(bytes[1..])
      case Some(lead) =>
        var progress := Continue(lead, bytes[1..]);
        (if progress.missing == 0 then UnitsOf(progress.bits) else [REPLACEMENT]) + Decode(progress.rest)
  }

  // ---- Reading what was written ----------------------------------------------------

  lemma TailBits(bits: nat)
    ensures bits == bits / 64 * 64 + Tail(bits) % 64
  {
  }

  lemma ContinueOnce(lead: Lead, b: Byte, rest: Bytes)
    requires lead.more > 0 && lead.low <= b <= lead.high
    ensures Continue(lead, [b] + rest) == Continue(Fed(lead, b), rest)
  {
    hide Fed;
    assert ([b] + rest)[0] == b && ([b] + rest)[1..] == rest;
  }

  lemma LastTail(lead: Lead, point: nat, rest: Bytes)
    requires lead.more == 1 && lead.bits == point / 64 && lead.low <= Tail(point) <= lead.high
    ensures Continue(lead, [Tail(point)] + rest) == Progress(point, 0, rest)
  {
    ContinueOnce(lead, Tail(point), rest);
    TailBits(point);
  }

  lemma TwoTails(lead: Lead, point: nat, rest: Bytes)
    requires lead.more == 2 && lead.bits == point / 64 / 64
    requires lead.low <= Tail(point / 64) <= lead.high
    ensures Continue(lead, [Tail(point / 64), Tail(point)] + rest) == Progress(point, 0, rest)
  {
    TailBits(point / 64);
    assert [Tail(point / 64), Tail(point)] + rest == [Tail(point / 64)] + ([Tail(point)] + rest);
    ContinueOnce(lead, Tail(point / 64), [Tail(point)] + rest);
    LastTail(Lead(point / 64, 1, 0x80, 0xBF), point, rest);
  }

  lemma ThreeTails(lead: Lead, point: nat, rest: Bytes)
    requires lead.more == 3 && lead.bits == point / 64 / 64 / 64
    requires lead.low <= Tail(point / 64 / 64) <= lead.high
    ensures
      Continue(lead, [Tail(point / 64 / 64), Tail(point / 64), Tail(point)] + rest) == Progress(point, 0, rest)
  {
    var two := [Tail(point / 64), Tail(point)];
    TailBits(point / 64 / 64);
    assert [Tail(point / 64 / 64), Tail(point / 64), Tail(point)] + rest == [Tail(point / 64 / 64)] + (two + rest);
    ContinueOnce(lead, Tail(point / 64 / 64), two + rest);
    TwoTails(Lead(point / 64 / 64, 2, 0x80, 0xBF), point, rest);
  }

  /** The first byte of a character bounds the next one as the character needs it. */
  lemma LeadFits(point: nat)
    requires Scalar(point) && point >= 0x80
    ensures
      var bytes := EncodedPoint(point);
      && LeadOf(bytes[0]).Some?
      && var lead := LeadOf(bytes[0]).value;
         && lead.more == |bytes| - 1
         && lead.low <= bytes[1] <= lead.high
         && lead.bits ==
              if point < 0x800 then point / 64
              else if point < 0x1_0000 then point / 64 / 64
              else point / 64 / 64 / 64
  {
  }

  lemma PointIsRead(point: nat, rest: Bytes)
    requires Scalar(point)
    ensures Decode(EncodedPoint(point) + rest) == UnitsOf(point) + Decode(rest)
  {
    var bytes := EncodedPoint(point) + rest;
    if point < 0x80 {
      assert bytes[1..] == rest;
    } else {
      LeadFits(point);
      hide Continue, LeadOf, Tail;
      var lead := LeadOf(bytes[0]).value;
      assert bytes[1..] == EncodedPoint(point)[1..] + rest;
      if point < 0x800 {
        LastTail(lead, point, rest);
      } else if point < 0x1_0000 {
        TwoTails(lead, point, rest);
      } else {
        ThreeTails(lead, point, rest);
      }
    }
  }

  lemma PairIsRead(high: Unit, low: Unit)
    requires High(high) && Low(low)
    ensures Scalar(PairPoint(high, low)) && UnitsOf(PairPoint(high, low)) == [high, low]
  {
  }

  /** The text with U+FFFD for every surrogate on its own. */
  function Mended(text: Units): Units {
    if text == [] then []
    else if StartsPair(text) then text[..2] + Mended(text[2..])
    else [if High(text[0]) || Low(text[0]) then REPLACEMENT else text[0]] + Mended(text[1..])
  }

  /** What is written is read as the mended text. */
  lemma {:induction false} EncodedIsRead(text: Units)
    ensures Decode(Encode(text)) == Mended(text)
  {
    hide Decode, EncodedPoint, PairPoint, UnitsOf;
    if text == [] {
      NothingIsRead();
    } else if StartsPair(text) {
      PairIsRead(text[0], text[1]);
      PointIsRead(PairPoint(text[0], text[1]), Encode(text[2..]));
      EncodedIsRead(text[2..]);
    } else {
      var point := if High(text[0]) || Low(text[0]) then REPLACEMENT else text[0];
      PointIsRead(point, Encode(text[1..]));
      OneUnit(point);
      EncodedIsRead(text[1..]);
    }
  }

  lemma NothingIsRead()
    ensures Decode([]) == []
  {
  }

  lemma OneUnit(point: Unit)
    ensures UnitsOf(point) == [point]
  {
  }

  lemma {:induction false} MendedIsSame(text: Units)
    ensures Mended(text) == text <==> WellFormed(text)
    ensures |Mended(text)| == |text|
  {
    if text != [] {
      if StartsPair(text) {
        MendedIsSame(text[2..]);
        assert text == text[..2] + text[2..] && Mended(text)[2..] == Mended(text[2..]);
      } else {
        MendedIsSame(text[1..]);
        assert text == [text[0]] + text[1..] && Mended(text)[1..] == Mended(text[1..]);
      }
    }
  }

  // ---- Reading anything else ------------------------------------------------------

  /** Some character is written with these first bytes. */
  ghost predicate Begins(part: Bytes) {
    exists point :: Scalar(point) && part <= EncodedPoint(point)
  }

  /** Some character is written so. */
  ghost predicate Whole(part: Bytes) {
    exists point :: Scalar(point) && part == EncodedPoint(point)
  }

  /** The smallest point whose first bytes are these. */
  function Least(part: Bytes): nat
    requires |part| > 0 && LeadOf(part[0]).Some?
  {
    var lead := LeadOf(part[0]).value;
    var second: nat := if |part| > 1 then part[1] % 64 else lead.low % 64;
    var third: nat := if |part| > 2 then part[2] % 64 else 0;
    var fourth: nat := if |part| > 3 then part[3] % 64 else 0;
    if lead.more == 1 then lead.bits * 64 + second
    else if lead.more == 2 then (lead.bits * 64 + second) * 64 + third
    else ((lead.bits * 64 + second) * 64 + third) * 64 + fourth
  }

  /** The bytes after the first are within the bounds that the first one sets. */
  predicate Follows(part: Bytes)
    requires |part| > 0
  {
    && LeadOf(part[0]).Some? && |part| <= LeadOf(part[0]).value.more + 1
    && (|part| > 1 ==> LeadOf(part[0]).value.low <= part[1] <= LeadOf(part[0]).value.high)
    && forall i :: 2 <= i < |part| ==> 0x80 <= part[i] <= 0xBF
  }

  lemma Shifted(bits: nat, more: nat)
    requires more < 64
    ensures (bits * 64 + more) / 64 == bits && (bits * 64 + more) % 64 == more
  {
  }

  lemma FourBytes(point: nat, first: nat, second: nat, third: nat)
    requires 0x1_0000 <= point < 0x11_0000 && second < 64 && third < 64
    requires point / 64 == (first * 64 + second) * 64 + third
    ensures EncodedPoint(point) == [0xF0 + first, 0x80 + second, 0x80 + third, 0x80 + point % 64]
  {
    Shifted(first * 64 + second, third);
    Shifted(first, second);
  }

  lemma OneMore(part: Bytes)
    requires |part| > 0 && Follows(part) && LeadOf(part[0]).value.more == 1
    ensures Scalar(Least(part)) && part <= EncodedPoint(Least(part)) && |EncodedPoint(Least(part))| == 2
  {
    assert part == EncodedPoint(Least(part))[..|part|];
  }

  lemma TwoMore(part: Bytes)
    requires |part| > 0 && Follows(part) && LeadOf(part[0]).value.more == 2
    ensures Scalar(Least(part)) && part <= EncodedPoint(Least(part)) && |EncodedPoint(Least(part))| == 3
  {
    assert part == EncodedPoint(Least(part))[..|part|];
  }

  /** The bits of the first four bytes, the missing ones as small as they may be. */
  lemma LeastOfFour(part: Bytes, second: nat, third: nat, fourth: nat)
    requires |part| > 0 && Follows(part) && LeadOf(part[0]).value.more == 3
    requires second == if |part| > 1 then part[1] - 0x80 else LeadOf(part[0]).value.low - 0x80
    requires third == if |part| > 2 then part[2] - 0x80 else 0
    requires fourth == if |part| > 3 then part[3] - 0x80 else 0
    ensures Least(part) == (((part[0] - 0xF0) * 64 + second) * 64 + third) * 64 + fourth
    ensures second < 64 && third < 64 && fourth < 64
    ensures 0x1_0000 <= Least(part) < 0x11_0000
  {
  }

  lemma ThreeMore(part: Bytes)
    requires |part| > 0 && Follows(part) && LeadOf(part[0]).value.more == 3
    ensures Scalar(Least(part)) && part <= EncodedPoint(Least(part)) && |EncodedPoint(Least(part))| == 4
  {
    var point, first := Least(part), part[0] - 0xF0;
    var second := if |part| > 1 then part[1] - 0x80 else LeadOf(part[0]).value.low - 0x80;
    var third := if |part| > 2 then part[2] - 0x80 else 0;
    var fourth := if |part| > 3 then part[3] - 0x80 else 0;
    LeastOfFour(part, second, third, fourth);
    hide Least, LeadOf, EncodedPoint;
    Shifted((first * 64 + second) * 64 + third, fourth);
    FourBytes(point, first, second, third);
    assert part == EncodedPoint(point)[..|part|];
  }

  lemma FollowingBegins(part: Bytes)
    requires |part| > 0 && Follows(part)
    ensures Begins(part)
    ensures |part| == LeadOf(part[0]).value.more + 1 ==> Whole(part)
  {
    hide Least, EncodedPoint;
    if LeadOf(part[0]).value.more == 1 {
      OneMore(part);
    } else if LeadOf(part[0]).value.more == 2 {
      TwoMore(part);
    } else {
      ThreeMore(part);
    }
  }

  lemma AsciiIsWhole(b: Byte)
    requires b < 0x80
    ensures Whole([b]) && Begins([b])
  {
    assert [b] == EncodedPoint(b) && [b] <= EncodedPoint(b);
  }

  lemma BeginningFollows(part: Bytes)
    requires |part| > 0 && part[0] >= 0x80 && Begins(part)
    ensures Follows(part)
    ensures Whole(part) ==> |part| == LeadOf(part[0]).value.more + 1
  {
    var point :| Scalar(point) && part <= EncodedPoint(point);
    LeadFits(point);
    if Whole(part) {
      var other :| Scalar(other) && part == EncodedPoint(other);
      LeadFits(other);
    }
  }

  lemma {:induction false} ContinueStops(lead: Lead, part: Bytes, rest: Bytes)
    requires |part| < lead.more && (part != [] ==> lead.low <= part[0] <= lead.high)
    requires forall i :: 1 <= i < |part| ==> 0x80 <= part[i] <= 0xBF
    requires rest != [] ==>
      !(if part == [] then lead.low <= rest[0] <= lead.high else 0x80 <= rest[0] <= 0xBF)
    ensures Continue(lead, part + rest).missing > 0 && Continue(lead, part + rest).rest == rest
    decreases |part|
  {
    if part == [] {
      assert part + rest == rest;
    } else {
      assert part + rest == [part[0]] + (part[1..] + rest);
      ContinueOnce(lead, part[0], part[1..] + rest);
      ContinueStops(Fed(lead, part[0]), part[1..], rest);
    }
  }

  lemma AsciiIsAlone(part: Bytes)
    requires part != [] && part[0] < 0x80 && Begins(part)
    ensures Whole(part)
  {
    var point :| Scalar(point) && part <= EncodedPoint(point);
    assert part == EncodedPoint(point);
  }

  /** A byte that no character starts with is read as one U+FFFD. */
  lemma StrayByteIsReplaced(b: Byte, rest: Bytes)
    requires !Begins([b])
    ensures Decode([b] + rest) == [REPLACEMENT] + Decode(rest)
  {
    if b < 0x80 {
      AsciiIsWhole(b);
    } else if LeadOf(b).Some? {
      FollowingBegins([b]);
    }
    assert ([b] + rest)[1..] == rest;
  }

  /** What begins a character but is not yet one lacks some of the bytes that its first
      one announces. */
  lemma BrokenOffLacks(part: Bytes)
    requires part != [] && Begins(part) && !Whole(part)
    ensures part[0] >= 0x80 && Follows(part) && |part| <= LeadOf(part[0]).value.more
  {
    if part[0] < 0x80 {
      AsciiIsAlone(part);
    } else {
      BeginningFollows(part);
      if |part| == LeadOf(part[0]).value.more + 1 {
        FollowingBegins(part);
      }
    }
  }

  lemma CutOffDoesNotFollow(part: Bytes, b: Byte)
    requires part != [] && Follows(part) && |part| <= LeadOf(part[0]).value.more && !Begins(part + [b])
    ensures !(if |part| == 1 then LeadOf(part[0]).value.low <= b <= LeadOf(part[0]).value.high else 0x80 <= b <= 0xBF)
  {
    var longer := part + [b];
    if Follows(longer) {
      FollowingBegins(longer);
    }
  }

  lemma LackingIsReplaced(bytes: Bytes)
    requires bytes != [] && bytes[0] >= 0x80 && LeadOf(bytes[0]).Some?
    requires Continue(LeadOf(bytes[0]).value, bytes[1..]).missing > 0
    ensures Decode(bytes) == [REPLACEMENT] + Decode(Continue(LeadOf(bytes[0]).value, bytes[1..]).rest)
  {
  }

  /** The first bytes of a character, as far as they go, are read as one U+FFFD, and
      reading goes on with the byte that does not belong to it. */
  lemma BrokenOffIsReplaced(part: Bytes, rest: Bytes)
    requires part != [] && Begins(part) && !Whole(part)
    requires rest != [] ==> !Begins(part + [rest[0]])
    ensures Decode(part + rest) == [REPLACEMENT] + Decode(rest)
  {
    BrokenOffLacks(part);
    if rest != [] {
      CutOffDoesNotFollow(part, rest[0]);
    }
    hide Begins, Whole, LeadOf, Continue, Decode;
    assert (part + rest)[1..] == part[1..] + rest;
    ContinueStops(LeadOf(part[0]).value, part[1..], rest);
    LackingIsReplaced(part + rest);
  }

  /** A text survives the way through bytes if and only if its surrogates come in pairs. */
  lemma RoundTripIsExact(text: Units)
    ensures Decode(Encode(text)) == text <==> WellFormed(text)
  {
    EncodedIsRead(text);
    MendedIsSame(text);
  }
}
