/** JSON texts as the runtime prints them: strings are sequences of UTF-16 code units,
    quoted as in section 25.5.2.3 (QuoteJSONString) of ECMA-262, and a reader for such
    texts that serves as the reference for what a text means. */
module Json {

  import opened Optional

  /** One UTF-16 code unit. */
  type Unit = u: nat | u < 0x10000

  type Units = seq<Unit>

  const MAX_SAFE: int := 0x1F_FFFF_FFFF_FFFF

  type SafeInteger = n: int | -MAX_SAFE <= n <= MAX_SAFE

  datatype Json =
    | Null
    | Bool(b: bool)
    | Integer(n: SafeInteger)
    | Text(units: Units)
    | Array(items: seq<Json>)
    | Object(members: seq<Member>)

  /** An object lists its members in the order they were inserted. */
  datatype Member = Member(key: Units, value: Json)

  const QUOTE: Unit := 0x22
  const COMMA: Unit := 0x2C
  const MINUS: Unit := 0x2D
  const COLON: Unit := 0x3A
  const LEFT_BRACKET: Unit := 0x5B
  const BACKSLASH: Unit := 0x5C
  const RIGHT_BRACKET: Unit := 0x5D
  const LETTER_U: Unit := 0x75
  const LEFT_BRACE: Unit := 0x7B
  const RIGHT_BRACE: Unit := 0x7D
  const NULL_TEXT: Units := [0x6E, 0x75, 0x6C, 0x6C]
  const TRUE_TEXT: Units := [0x74, 0x72, 0x75, 0x65]
  const FALSE_TEXT: Units := [0x66, 0x61, 0x6C, 0x73, 0x65]

  // ---- Strings ------------------------------------------------------------------

  predicate High(u: Unit) {
    0xD800 <= u < 0xDC00
  }

  predicate Low(u: Unit) {
    0xDC00 <= u < 0xE000
  }

  predicate StartsPair(units: Units) {
    |units| >= 2 && High(units[0]) && Low(units[1])
  }

  predicate HasShortEscape(u: Unit) {
    u == 8 || u == 9 || u == 10 || u == 12 || u == 13 || u == QUOTE || u == BACKSLASH
  }

  function ShortEscape(u: Unit): Unit
    requires HasShortEscape(u)
  {
    if u == 8 then 0x62 else if u == 9 then 0x74 else if u == 10 then 0x6E
    else if u == 12 then 0x66 else if u == 13 then 0x72 else u
  }

  function FromShortEscape(letter: Unit): Option<Unit> {
    if letter == 0x62 then Some(8) else if letter == 0x74 then Some(9) else if letter == 0x6E then Some(10)
    else if letter == 0x66 then Some(12) else if letter == 0x72 then Some(13)
    else if letter == QUOTE || letter == BACKSLASH || letter == 0x2F then Some(letter)
    else None
  }

  function HexDigit(d: nat): Unit
    requires d < 16
  {
    if d < 10 then 0x30 + d else 0x57 + d
  }

  function FromHexDigit(u: Unit): (d: Option<nat>)
    ensures d.Some? ==> d.value < 16
  {
    if 0x30 <= u < 0x3A then Some(u - 0x30)
    else if 0x61 <= u < 0x67 then Some(u - 0x57)
    else if 0x41 <= u < 0x47 then Some(u - 0x37)
    else None
  }

  function Hex4(u: Unit): (digits: Units)
    ensures |digits| == 4
  {
    [HexDigit(u / 16 / 16 / 16), HexDigit(u / 16 / 16 % 16), HexDigit(u / 16 % 16), HexDigit(u % 16)]
  }

  function FromHex4(units: Units): Option<Unit>
    requires |units| == 4
  {
    match (FromHexDigit(units[0]), FromHexDigit(units[1]), FromHexDigit(units[2]), FromHexDigit(units[3]))
    case (Some(a), Some(b), Some(c), Some(d)) => Some(((a * 16 + b) * 16 + c) * 16 + d)
    case _ => None
  }

  function EscapedUnit(u: Unit): Units {
    if HasShortEscape(u) then [BACKSLASH, ShortEscape(u)]
    else if u < 0x20 || High(u) || Low(u) then [BACKSLASH, LETTER_U] + Hex4(u)
    else [u]
  }

  /** A surrogate pair stands as it is, a surrogate on its own is escaped. */
  function Escaped(units: Units): Units {
    if units == [] then []
    else if StartsPair(units) then units[..2] + Escaped(units[2..])
    else EscapedUnit(units[0]) + Escaped(units[1..])
  }

  function Quoted(units: Units): Units {
    [QUOTE] + Escaped(units) + [QUOTE]
  }

  datatype Read<T> = Read(value: T, rest: Units)

  function Prepended(u: Unit, read: Option<Read<Units>>): Option<Read<Units>> {
    match read
    case None => None
    case Some(Read(units, rest)) => Some(Read([u] + units, rest))
  }

  /** The characters of a string up to its closing quote. */
  function ReadCharacters(text: Units): (read: Option<Read<Units>>)
    ensures read.Some? ==> |read.value.rest| < |text|
  {
    if text == [] then None
    else if text[0] == QUOTE then Some(Read([], text[1..]))
    else if text[0] == BACKSLASH then
      if |text| >= 6 && text[1] == LETTER_U then
        match FromHex4(text[2..6])
        case None => None
        case Some(u) => Prepended(u, ReadCharacters(text[6..]))
      else if |text| >= 2 then
        match FromShortEscape(text[1])
        case None => None
        case Some(u) => Prepended(u, ReadCharacters(text[2..]))
      else None
    else if text[0] < 0x20 then None
    else Prepended(text[0], ReadCharacters(text[1..]))
  }

  // ---- Numbers --------------------------------------------------------------------

  function Decimal(n: nat): Units {
    (if n < 10 then [] else Decimal(n / 10)) + [0x30 + n % 10]
  }

  predicate Digit(u: Unit) {
    0x30 <= u < 0x3A
  }

  predicate Digits(units: Units) {
    forall i :: 0 <= i < |units| ==> Digit(units[i])
  }

  function FromDecimal(digits: Units): nat
    requires Digits(digits)
  {
    if digits == [] then 0
    else FromDecimal(digits[..|digits| - 1]) * 10 + (digits[|digits| - 1] - 0x30)
  }

  /** How many digits stand at the front. */
  function LeadingDigits(text: Units): (count: nat)
    ensures count <= |text| && Digits(text[..count])
    ensures count < |text| ==> !Digit(text[count])
  {
    if text != [] && Digit(text[0]) then 1 + LeadingDigits(text[1..]) else 0
  }

  // ---- Values -----------------------------------------------------------------------

  function Print(value: Json): Units
    decreases value
  {
    match value
    case Null => NULL_TEXT
    case Bool(b) => if b then TRUE_TEXT else FALSE_TEXT
    case Integer(n) => if n < 0 then [MINUS] + Decimal(-n) else Decimal(n)
    case Text(units) => Quoted(units)
    case Array(items) => [LEFT_BRACKET] + PrintItems(items, true)
    case Object(members) => [LEFT_BRACE] + PrintMembers(members, true)
  }

  function Separator(first: bool): Units {
    if first then [] else [COMMA]
  }

  function PrintItems(items: seq<Json>, first: bool): Units
    decreases items
  {
    if items == [] then [RIGHT_BRACKET]
    else Separator(first) + (Print(items[0]) + PrintItems(items[1..], false))
  }

  function PrintMembers(members: seq<Member>, first: bool): Units
    decreases members
  {
    if members == [] then [RIGHT_BRACE]
    else
      Separator(first) +
      (Quoted(members[0].key) + ([COLON] + (Print(members[0].value) + PrintMembers(members[1..], false))))
  }

  function ReadValue(text: Units): (read: Option<Read<Json>>)
    ensures read.Some? ==> |read.value.rest| < |text|
    decreases |text|, 0
  {
    if text == [] then None
    else if text[0] == QUOTE then
      match ReadCharacters(text[1..])
      case None => None
      case Some(Read(units, rest)) => Some(Read(Text(units), rest))
    else if text[0] == LEFT_BRACKET then
      match ReadItems(text[1..], true)
      case None => None
      case Some(Read(items, rest)) => Some(Read(Array(items), rest))
    else if text[0] == LEFT_BRACE then
      match ReadMembers(text[1..], true)
      case None => None
      case Some(Read(members, rest)) => Some(Read(Object(members), rest))
    else ReadScalar(text)
  }

  function ReadScalar(text: Units): (read: Option<Read<Json>>)
    requires text != []
    ensures read.Some? ==> |read.value.rest| < |text|
  {
    if NULL_TEXT <= text then Some(Read(Null, text[4..]))
    else if TRUE_TEXT <= text then Some(Read(Bool(true), text[4..]))
    else if FALSE_TEXT <= text then Some(Read(Bool(false), text[5..]))
    else if text[0] == MINUS then ReadInteger(text[1..], -1)
    else ReadInteger(text, 1)
  }

  function ReadInteger(text: Units, sign: int): (read: Option<Read<Json>>)
    requires sign == 1 || sign == -1
    ensures read.Some? ==> |read.value.rest| < |text|
  {
    match ReadNatural(text)
    case None => None
    case Some(Read(n, rest)) => if n <= MAX_SAFE then Some(Read(Integer(sign * n), rest)) else None
  }

  function ReadNatural(text: Units): (read: Option<Read<nat>>)
    ensures read.Some? ==> |read.value.rest| < |text|
  {
    var count := LeadingDigits(text);
    if count == 0 then None else Some(Read(FromDecimal(text[..count]), text[count..]))
  }

  /** What follows the separator that this place calls for. */
  function AfterSeparator(text: Units, first: bool): (rest: Option<Units>)
    ensures rest.Some? ==> |rest.value| <= |text|
  {
    if first then Some(text) else if text != [] && text[0] == COMMA then Some(text[1..]) else None
  }

  function ReadItems(text: Units, first: bool): (read: Option<Read<seq<Json>>>)
    ensures read.Some? ==> |read.value.rest| < |text|
    decreases |text|, 1
  {
    if text != [] && text[0] == RIGHT_BRACKET then Some(Read([], text[1..]))
    else
      match AfterSeparator(text, first)
      case None => None
      case Some(after) =>
        match ReadValue(after)
        case None => None
        case Some(Read(item, more)) =>
          match ReadItems(more, false)
          case None => None
          case Some(Read(items, rest)) => Some(Read([item] + items, rest))
  }

  function ReadMembers(text: Units, first: bool): (read: Option<Read<seq<Member>>>)
    ensures read.Some? ==> |read.value.rest| < |text|
    decreases |text|, 1
  {
    if text != [] && text[0] == RIGHT_BRACE then Some(Read([], text[1..]))
    else
      match AfterSeparator(text, first)
      case None => None
      case Some(after) =>
        if after == [] || after[0] != QUOTE then None
        else
          match ReadCharacters(after[1..])
          case None => None
          case Some(Read(key, more)) =>
            if more == [] || more[0] != COLON then None
            else
              match ReadValue(more[1..])
              case None => None
              case Some(Read(value, others)) =>
                match ReadMembers(others, false)
                case None => None
                case Some(Read(members, rest)) => Some(Read([Member(key, value)] + members, rest))
  }

  /** The value of a whole text. */
  function Parse(text: Units): Option<Json> {
    match ReadValue(text)
    case None => None
    case Some(Read(value, rest)) => if rest == [] then Some(value) else None
  }

  // ---- Reading recovers what was printed ------------------------------------------

  lemma HexDigitRoundTrip(d: nat)
    requires d < 16
    ensures FromHexDigit(HexDigit(d)) == Some(d)
  {
  }

  lemma HexRoundTrip(u: Unit)
    ensures FromHex4(Hex4(u)) == Some(u)
  {
    HexDigitRoundTrip(u / 16 / 16 / 16);
    HexDigitRoundTrip(u / 16 / 16 % 16);
    HexDigitRoundTrip(u / 16 % 16);
    HexDigitRoundTrip(u % 16);
    hide HexDigit, FromHexDigit;
    assert u == u / 16 * 16 + u % 16;
    assert u / 16 == u / 16 / 16 * 16 + u / 16 % 16;
    assert u / 16 / 16 == u / 16 / 16 / 16 * 16 + u / 16 / 16 % 16;
  }

  lemma PlainUnitIsRead(u: Unit, more: Units)
    requires 0x20 <= u && u != QUOTE && u != BACKSLASH
    ensures ReadCharacters([u] + more) == Prepended(u, ReadCharacters(more))
  {
    assert ([u] + more)[1..] == more;
  }

  lemma UnitIsRead(u: Unit, more: Units)
    ensures ReadCharacters(EscapedUnit(u) + more) == Prepended(u, ReadCharacters(more))
  {
    hide Hex4, FromHex4;
    var text := EscapedUnit(u) + more;
    if HasShortEscape(u) {
      assert text[2..] == more;
    } else if u < 0x20 || High(u) || Low(u) {
      HexRoundTrip(u);
      assert text[2..6] == Hex4(u) && text[6..] == more;
    } else {
      PlainUnitIsRead(u, more);
    }
  }

  /** Reading the first character or pair, when what follows it reads as it should. */
  lemma FirstCharacterIsRead(units: Units, end: Units, rest: Units)
    requires units != []
    requires var more := if StartsPair(units) then units[2..] else units[1..];
             ReadCharacters(Escaped(more) + end) == Some(Read(more, rest))
    ensures ReadCharacters(Escaped(units) + end) == Some(Read(units, rest))
  {
    hide ReadCharacters, EscapedUnit;
    if StartsPair(units) {
      var more := Escaped(units[2..]) + end;
      PlainUnitIsRead(units[1], more);
      PlainUnitIsRead(units[0], [units[1]] + more);
      assert Escaped(units) + end == [units[0]] + ([units[1]] + more);
      assert units == [units[0]] + ([units[1]] + units[2..]);
    } else {
      UnitIsRead(units[0], Escaped(units[1..]) + end);
      assert Escaped(units) + end == EscapedUnit(units[0]) + (Escaped(units[1..]) + end);
      assert units == [units[0]] + units[1..];
    }
  }

  lemma {:induction false} StringRoundTrip(units: Units, rest: Units)
    ensures ReadCharacters(Escaped(units) + ([QUOTE] + rest)) == Some(Read(units, rest))
  {
    var end := [QUOTE] + rest;
    if units == [] {
      assert Escaped(units) + end == end && end[1..] == rest;
    } else {
      StringRoundTrip(if StartsPair(units) then units[2..] else units[1..], rest);
      FirstCharacterIsRead(units, end, rest);
    }
  }

  lemma {:induction false} DecimalRoundTrip(n: nat)
    ensures Digits(Decimal(n)) && Decimal(n) != [] && FromDecimal(Decimal(n)) == n
  {
    var front := if n < 10 then [] else Decimal(n / 10);
    if n >= 10 {
      DecimalRoundTrip(n / 10);
    }
    assert Decimal(n)[..|Decimal(n)| - 1] == front;
  }

  /** No digit stands at the front, so a number before it ends there. */
  predicate EndsNumber(text: Units) {
    text == [] || !Digit(text[0])
  }

  lemma {:induction false} LeadingDigitsOf(digits: Units, rest: Units)
    requires Digits(digits) && EndsNumber(rest)
    ensures LeadingDigits(digits + rest) == |digits|
  {
    if digits == [] {
      assert digits + rest == rest;
    } else {
      LeadingDigitsOf(digits[1..], rest);
      assert (digits + rest)[1..] == digits[1..] + rest;
    }
  }

  lemma NaturalRoundTrip(n: nat, rest: Units)
    requires EndsNumber(rest)
    ensures ReadNatural(Decimal(n) + rest) == Some(Read(n, rest))
  {
    DecimalRoundTrip(n);
    LeadingDigitsOf(Decimal(n), rest);
    assert (Decimal(n) + rest)[..|Decimal(n)|] == Decimal(n) && (Decimal(n) + rest)[|Decimal(n)|..] == rest;
  }

  lemma IntegerRoundTrip(n: SafeInteger, rest: Units)
    requires EndsNumber(rest)
    ensures ReadValue(Print(Integer(n)) + rest) == Some(Read(Integer(n), rest))
  {
    hide Decimal, ReadNatural;
    var size := if n < 0 then -n else n;
    var text := Print(Integer(n)) + rest;
    NaturalRoundTrip(size, rest);
    DecimalRoundTrip(size);
    if n < 0 {
      assert text[0] == MINUS && text[1..] == Decimal(size) + rest;
    } else {
      assert text == Decimal(size) + rest && Digit(text[0]);
    }
    assert ReadValue(text) == ReadScalar(text);
  }

  lemma QuotedIsRead(units: Units, rest: Units)
    ensures Quoted(units) != [] && (Quoted(units) + rest)[0] == QUOTE
    ensures ReadCharacters((Quoted(units) + rest)[1..]) == Some(Read(units, rest))
  {
    StringRoundTrip(units, rest);
    assert (Quoted(units) + rest)[1..] == Escaped(units) + ([QUOTE] + rest);
  }

  /** A value never begins with a bracket or brace that closes a list. */
  lemma PrintBegins(value: Json)
    ensures Print(value) != [] && Print(value)[0] != RIGHT_BRACKET && Print(value)[0] != RIGHT_BRACE
  {
    if value.Integer? && value.n >= 0 {
      DecimalRoundTrip(value.n);
      assert Digit(Decimal(value.n)[0]);
    }
  }

  lemma LiteralsAreRead(rest: Units)
    ensures ReadValue(NULL_TEXT + rest) == Some(Read(Null, rest))
    ensures ReadValue(TRUE_TEXT + rest) == Some(Read(Bool(true), rest))
    ensures ReadValue(FALSE_TEXT + rest) == Some(Read(Bool(false), rest))
  {
    hide ReadInteger;
    assert (NULL_TEXT + rest)[4..] == rest;
    assert (TRUE_TEXT + rest)[4..] == rest;
    assert (FALSE_TEXT + rest)[5..] == rest;
  }

  /** Reading what was printed gives the value back and leaves what came after it. */
  lemma {:induction false} ValueRoundTrip(value: Json, rest: Units)
    requires EndsNumber(rest)
    ensures ReadValue(Print(value) + rest) == Some(Read(value, rest))
    decreases value, 0
  {
    hide ReadScalar, ReadCharacters, ReadItems, ReadMembers, PrintItems, PrintMembers, Quoted;
    match value
    case Null => LiteralsAreRead(rest);
    case Bool(_) => LiteralsAreRead(rest);
    case Integer(n) => IntegerRoundTrip(n, rest);
    case Text(units) => QuotedIsRead(units, rest);
    case Array(items) =>
      ItemsRoundTrip(items, true, rest);
      assert (Print(value) + rest)[1..] == PrintItems(items, true) + rest;
    case Object(members) =>
      MembersRoundTrip(members, true, rest);
      assert (Print(value) + rest)[1..] == PrintMembers(members, true) + rest;
  }

  lemma Separated(text: Units, first: bool, after: Units)
    requires text == Separator(first) + after
    ensures AfterSeparator(text, first) == Some(after)
  {
    assert text == if first then after else [COMMA] + after;
    assert !first ==> text[1..] == after;
  }

  lemma {:induction false} ItemsRoundTrip(items: seq<Json>, first: bool, rest: Units)
    ensures ReadItems(PrintItems(items, first) + rest, first) == Some(Read(items, rest))
    ensures !first ==> EndsNumber(PrintItems(items, first) + rest)
    decreases items, 1
  {
    hide ReadValue, Print, AfterSeparator;
    var text := PrintItems(items, first) + rest;
    if items == [] {
      assert text[1..] == rest;
    } else {
      var more := PrintItems(items[1..], false) + rest;
      var after := Print(items[0]) + more;
      ItemsRoundTrip(items[1..], false, rest);
      ValueRoundTrip(items[0], more);
      PrintBegins(items[0]);
      assert text == Separator(first) + after;
      Separated(text, first, after);
      assert [items[0]] + items[1..] == items;
    }
  }

  /** One member: its key, the colon and its value, and what comes after. */
  function Following(member: Member, others: Units): Units {
    Quoted(member.key) + ([COLON] + (Print(member.value) + others))
  }

  lemma MembersLayout(members: seq<Member>, first: bool, rest: Units)
    requires members != []
    ensures
      var after := Following(members[0], PrintMembers(members[1..], false) + rest);
      && PrintMembers(members, first) + rest == Separator(first) + after
      && AfterSeparator(PrintMembers(members, first) + rest, first) == Some(after)
  {
    hide Print, AfterSeparator, Quoted, Separator;
    var text := PrintMembers(members, first) + rest;
    var more := PrintMembers(members[1..], false);
    var after := Following(members[0], more + rest);
    Regrouped(Separator(first), Quoted(members[0].key), [COLON], Print(members[0].value), more, rest);
    assert text == Separator(first) + after;
    Separated(text, first, after);
  }

  lemma Regrouped(a: Units, b: Units, c: Units, d: Units, e: Units, f: Units)
    ensures (a + (b + (c + (d + e)))) + f == a + (b + (c + (d + (e + f))))
  {
  }

  lemma {:induction false} MembersRoundTrip(members: seq<Member>, first: bool, rest: Units)
    ensures ReadMembers(PrintMembers(members, first) + rest, first) == Some(Read(members, rest))
    ensures !first ==> EndsNumber(PrintMembers(members, first) + rest)
    decreases members, 1
  {
    hide ReadValue, Print, AfterSeparator, ReadCharacters, Quoted;
    var text := PrintMembers(members, first) + rest;
    if members == [] {
      assert text[1..] == rest;
    } else {
      var others := PrintMembers(members[1..], false) + rest;
      var more := [COLON] + (Print(members[0].value) + others);
      MembersRoundTrip(members[1..], false, rest);
      ValueRoundTrip(members[0].value, others);
      QuotedIsRead(members[0].key, more);
      assert more[1..] == Print(members[0].value) + others;
      MembersLayout(members, first, rest);
      assert [members[0]] + members[1..] == members;
    }
  }

  lemma PrintRoundTrip(value: Json)
    ensures Parse(Print(value)) == Some(value)
  {
    ValueRoundTrip(value, []);
    assert Print(value) + [] == Print(value);
  }

  // ---- What is printed is well-formed UTF-16 ----------------------------------------

  /** Surrogates come in pairs. */
  predicate WellFormed(text: Units) {
    text == [] ||
    if StartsPair(text) then WellFormed(text[2..])
    else !High(text[0]) && !Low(text[0]) && WellFormed(text[1..])
  }

  lemma {:induction false} WellFormedJoin(left: Units, right: Units)
    requires WellFormed(left) && WellFormed(right)
    ensures WellFormed(left + right)
    decreases |left|
  {
    if left == [] {
      assert left + right == right;
    } else if StartsPair(left) {
      WellFormedJoin(left[2..], right);
      assert (left + right)[2..] == left[2..] + right;
    } else {
      WellFormedJoin(left[1..], right);
      assert (left + right)[1..] == left[1..] + right;
    }
  }

  predicate Plain(text: Units) {
    forall i :: 0 <= i < |text| ==> text[i] < 0xD800
  }

  lemma {:induction false} PlainIsWellFormed(text: Units)
    requires Plain(text)
    ensures WellFormed(text)
  {
    if text != [] {
      PlainIsWellFormed(text[1..]);
    }
  }

  lemma {:induction false} EscapedIsWellFormed(units: Units)
    ensures WellFormed(Escaped(units))
  {
    if units != [] {
      if StartsPair(units) {
        EscapedIsWellFormed(units[2..]);
        WellFormedJoin(units[..2], Escaped(units[2..]));
      } else {
        EscapedIsWellFormed(units[1..]);
        var u := units[0];
        if HasShortEscape(u) || u < 0x20 || High(u) || Low(u) {
          PlainIsWellFormed(EscapedUnit(u));
        }
        WellFormedJoin(EscapedUnit(u), Escaped(units[1..]));
      }
    }
  }

  lemma QuotedIsWellFormed(units: Units)
    ensures WellFormed(Quoted(units))
  {
    EscapedIsWellFormed(units);
    WellFormedJoin([QUOTE], Escaped(units));
    WellFormedJoin([QUOTE] + Escaped(units), [QUOTE]);
  }

  /** Whatever lone surrogates the strings hold, the printed text has none, so that
      encoding it as UTF-8 replaces nothing. */
  lemma {:induction false} PrintIsWellFormed(value: Json)
    ensures WellFormed(Print(value))
    decreases value, 0
  {
    hide PrintItems, PrintMembers, Quoted, Decimal;
    match value
    case Null => PlainIsWellFormed(NULL_TEXT);
    case Bool(b) =>
      PlainIsWellFormed(TRUE_TEXT);
      PlainIsWellFormed(FALSE_TEXT);
    case Integer(n) =>
      DecimalRoundTrip(if n < 0 then -n else n);
      assert Plain(Print(value));
      PlainIsWellFormed(Print(value));
    case Text(units) => QuotedIsWellFormed(units);
    case Array(items) =>
      ItemsAreWellFormed(items, true);
      WellFormedJoin([LEFT_BRACKET], PrintItems(items, true));
    case Object(members) =>
      MembersAreWellFormed(members, true);
      WellFormedJoin([LEFT_BRACE], PrintMembers(members, true));
  }

  lemma {:induction false} ItemsAreWellFormed(items: seq<Json>, first: bool)
    ensures WellFormed(PrintItems(items, first))
    decreases items, 1
  {
    if items != [] {
      PrintIsWellFormed(items[0]);
      ItemsAreWellFormed(items[1..], false);
      WellFormedJoin(Print(items[0]), PrintItems(items[1..], false));
      WellFormedJoin(Separator(first), Print(items[0]) + PrintItems(items[1..], false));
    }
  }

  lemma {:induction false} MembersAreWellFormed(members: seq<Member>, first: bool)
    ensures WellFormed(PrintMembers(members, first))
    decreases members, 1
  {
    if members != [] {
      var value, others := Print(members[0].value), PrintMembers(members[1..], false);
      PrintIsWellFormed(members[0].value);
      MembersAreWellFormed(members[1..], false);
      QuotedIsWellFormed(members[0].key);
      WellFormedJoin(value, others);
      WellFormedJoin([COLON], value + others);
      WellFormedJoin(Quoted(members[0].key), [COLON] + (value + others));
      WellFormedJoin(Separator(first), Quoted(members[0].key) + ([COLON] + (value + others)));
    }
  }

  // ---- The text is the one that the runtime prints -------------------------------------

  /** No digit more than the number needs. */
  lemma {:induction false} DecimalIsShortest(n: nat)
    ensures Decimal(n)[0] == '0' as int ==> n == 0 && |Decimal(n)| == 1
  {
    if n >= 10 {
      DecimalIsShortest(n / 10);
    }
  }

  predicate LowerCaseHex(u: Unit) {
    '0' as int <= u <= '9' as int || 'a' as int <= u <= 'f' as int
  }

  /** A unit stands as it is, is escaped by one letter, or by four lower-case digits, and
      which of the three is decided as in section 25.5.2.3 of ECMA-262. */
  lemma EscapedUnitIs(u: Unit)
    ensures
      var text := EscapedUnit(u);
      && (text == [u] <==>
            0x20 <= u && u != '"' as int && u != '\\' as int && !(0xD800 <= u < 0xE000))
      && (u == 0x08 ==> text == ['\\' as int, 'b' as int]) && (u == 0x09 ==> text == ['\\' as int, 't' as int])
      && (u == 0x0A ==> text == ['\\' as int, 'n' as int]) && (u == 0x0C ==> text == ['\\' as int, 'f' as int])
      && (u == 0x0D ==> text == ['\\' as int, 'r' as int])
      && (u == '"' as int || u == '\\' as int ==> text == ['\\' as int, u])
      && ((u < 0x20 && u !in [0x08, 0x09, 0x0A, 0x0C, 0x0D]) || 0xD800 <= u < 0xE000 ==>
            && |text| == 6 && text[0] == '\\' as int && text[1] == 'u' as int
            && FromHex4(text[2..]) == Some(u)
            && forall i :: 2 <= i < 6 ==> LowerCaseHex(text[i]))
  {
    hide FromHex4;
    HexRoundTrip(u);
    assert ([BACKSLASH, LETTER_U] + Hex4(u))[2..] == Hex4(u);
    DigitsAreLowerCase(u);
  }

  lemma DigitsAreLowerCase(u: Unit)
    ensures forall i :: 0 <= i < 4 ==> LowerCaseHex(Hex4(u)[i])
  {
  }

  /** A surrogate pair stands as it is in a string. */
  lemma PairIsPlain(high: Unit, low: Unit, rest: Units)
    requires 0xD800 <= high < 0xDC00 <= low < 0xE000
    ensures Escaped([high, low] + rest) == [high, low] + Escaped(rest)
  {
    assert ([high, low] + rest)[..2] == [high, low] && ([high, low] + rest)[2..] == rest;
  }
}
